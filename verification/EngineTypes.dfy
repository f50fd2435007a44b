/** Data of the delay engine: buffered messages, encoder sessions, pending changes,
    and what goes out to the destination. */
module EngineTypes {
  import opened Wrappers

  /** Microseconds on a clock that never goes back. */
  type Time = nat

  const MS: nat := 1_000
  const SEC: nat := 1_000_000

  const MAX_HEADERS: nat := 64
  const MAX_HEADER_BYTES: nat := 1024 * 1024
  const HEADER_SHARE_OF_RAM_CAP: nat := 8
  const MAX_METADATA_BYTES: nat := 64 * 1024
  const REPLAY_GAP_HELD_AFTER: Time := 2 * SEC
  const SLATE_CONFIRM_WAIT: Time := 2 * SEC

  /** The memory counted for a message on top of its payload: an entry, as laid out on a 64-bit
      machine, and 64 bytes. */
  const ENTRY_OVERHEAD: nat := 88 + 64

  datatype Config = Config(
    maxDelayMs: nat,
    headroomMs: nat,
    ramCapBytes: nat,
    maskMarginMs: nat,
    muteUnderSlate: bool,
    keepHistory: bool,
    restoreAfterReconnect: bool)

  datatype Kind = Audio | Video | Data

  /** Message bytes: the engine only compares and measures them. */
  datatype Payload = Payload(content: nat, size: nat)

  /** One kind of decoder configuration. */
  datatype Track = Track(kind: Kind, class_: nat)

  /** HEVC type of a frame's first slice, as far as the engine tells them apart. */
  datatype Nal = NoNal | Cra | OtherIrap | Trailing | Leading | OtherNal

  /** What inspecting a message's first bytes says, and the encoder's measured
      keyframe interval and bitrate once it has come. */
  datatype Info = Info(
    known: bool,
    keyframe: bool,
    config: Option<nat>,
    cts: int,
    nal: Nal,
    interval: nat,
    bitrate: nat)

  /** What inspection can say: a keyframe is not configuration too, and keyframes are apart. */
  type Inspected = i: Info | 0 < i.interval && (i.keyframe ==> i.config.None?)
    witness Info(false, false, None, 0, NoNal, 1, 0)

  /** A buffered message. The last four are the model's own: the message's identity (sequence
      numbers are reused after a replay); the decoder configuration the encoder had last sent
      before it, per track; what inspection said of it; and the identity of the first message
      since its encoder connected. */
  datatype Entry = Entry(
    num: nat,
    arrival: Time,
    session: nat,
    kind: Kind,
    ts: nat,
    payload: Payload,
    sync: bool,
    config: Option<nat>,
    cts: int,
    nal: Nal,
    id: nat,
    cfg: map<Track, Payload>,
    info: Info,
    began: nat)

  datatype HeaderRec = HeaderRec(num: nat, track: Track, payload: Payload)

  datatype Session = Session(
    id: nat,
    headers: seq<HeaderRec>,
    metadata: Option<Payload>,
    hasVideo: bool,
    lastVideoTs: Option<nat>,
    frameMs: nat)

  datatype Headers = Headers(metadata: Option<Payload>, config: seq<HeaderRec>)

  /** A keyframe shown again and again during a hold (`id`: whose). */
  datatype HoldFrame = HoldFrame(
    payload: Payload,
    cts: int,
    frameMs: nat,
    headers: Headers,
    last: Time,
    next: Time,
    needsHeaders: bool,
    id: nat)

  datatype Pending =
    | Idle
    | GoLiveNow(afterSeq: nat)
    | AfterAir(markSeq: nat)
    | Reduce(delay: Time)
    | Mask(delay: Time, started: Time, anchor: Option<nat>, mute: bool, shown: Option<Time>, dump: bool)
    | Dump(delay: Time, started: Time, from: nat, shown: Option<Time>)
    | Hold(from: nat, delay: Time)
    | Replay(from: nat, delay: Time)
  {
    predicate AfterDump() { Replay? || Hold? || Dump? || (Mask? && dump) }
  }

  datatype DelayMode = RewindMode | MaskMode

  datatype GoLiveWhen = Now | AfterAiring

  datatype Command =
    | SetDelay(ms: nat, mode: DelayMode)
    | GoLive(when: GoLiveWhen)
    | Cancel
    | DumpNow(dumpMode: DelayMode, cover: bool)
    | SlateShown(change: nat)

  datatype DumpOutcome = Replayed | Covered | Held

  datatype Ack = Ack(targetMs: nat, effectiveMs: nat, pending: bool, historyShort: bool, dump: Option<DumpOutcome>)

  datatype EngineError =
    | TooLarge(requestedMs: nat, maxMs: nat)
    | NothingToDump
    | NotEnoughMemory(needed: nat, cap: nat)

  /** Where an outgoing message comes from (the model's own). */
  datatype Origin =
    | Buffered(entry: Entry, starts: bool)
    | Header(track: Track)
    | Metadata
    | Repeated(frame: HoldFrame)

  /** A message handed over for the destination. `generation`, `epoch`, `at` and
      `origin` are the model's own: the connection, the stretch of it since media
      was last thrown away unsent, when, and where it came from. */
  datatype OutMsg = OutMsg(
    kind: Kind,
    timestamp: nat,
    payload: Payload,
    num: Option<nat>,
    generation: nat,
    epoch: nat,
    at: Time,
    origin: Origin)
  {
    /** Audio, video or data of the stream, rather than configuration. */
    predicate IsFrame() {
      || (origin.Buffered? && origin.entry.config.None?)
      || origin.Repeated?
    }

    /** A keyframe the output was spliced to, or a held one. */
    predicate IsStart() {
      || (origin.Buffered? && origin.starts)
      || origin.Repeated?
    }

    function Cts(): int {
      match origin
      case Buffered(e, _) => e.cts
      case Repeated(h) => h.cts
      case _ => 0
    }

    /** When it is presented. */
    function Pts(): int { timestamp + Cts() }
  }

  /** A buffered message the cursor moved past. `starts`: the output was spliced to it; `slate`:
      sound was not to be heard, behind a slate; `offset`: what the output's timestamps were
      ahead of the encoder's; `out`: which of all messages handed over it is, if it is one. */
  datatype Consumed =
    Consumed(entry: Entry, generation: nat, starts: bool, slate: bool, offset: int, out: Option<nat>)

  function Max(a: int, b: int): int { if a < b then b else a }

  function Min(a: int, b: int): int { if a < b then a else b }

  /** `a - b`, or 0. */
  function Monus(a: nat, b: nat): nat { if a < b then 0 else a - b }
}
