/** The delay engine's state, and what every operation keeps of it. */
module EngineState {
  import opened Wrappers
  import opened EngineTypes
  import opened Ring
  import opened Trace

  /** What has arrived, from message `base` up to but not including `next`. `nextId`,
      the identity of the next message, is the model's own. */
  datatype Buffer = Buffer(ring: seq<Entry>, syncs: seq<nat>, base: nat, next: nat, bytes: nat, nextId: nat)
  {
    predicate Has(num: nat) { base <= num < base + |ring| }

    function At(num: nat): Entry
      requires Has(num)
    {
      ring[num - base]
    }

    ghost predicate Ok(clock: Time) {
      && next == base + |ring|
      && Contiguous(ring, base)
      && Indexes(syncs, ring, base)
      && bytes == RingCost(ring)
      && (ring != [] ==> ring[|ring| - 1].arrival <= clock && ring[|ring| - 1].id < nextId)
    }

    /** The newest keyframe at or before `num`. */
    function SyncAtOrBefore(num: nat): Option<nat>
    {
      FindLast(syncs, s => s <= num)
    }

    /** The newest keyframe before `num`. */
    function NewestBefore(num: nat): Option<nat>
    {
      FindLast(syncs, s => s < num)
    }

    /** The newest keyframe that arrived by `t`. */
    function NewestArrivedBy(t: int): Option<nat>
    {
      FindLast(syncs, (s: nat) => Has(s) && At(s).arrival <= t)
    }

    /** The oldest keyframe that arrived at `t` or later. */
    function FirstArrivedFrom(t: Time): (k: Option<nat>)
      ensures k.Some? ==> k.value in syncs
    {
      FindFirst(syncs, (s: nat) => Has(s) && t <= At(s).arrival)
    }

    /** The oldest keyframe at or after `num`. */
    function FirstFrom(num: nat): Option<nat>
    {
      FindFirst(syncs, s => num <= s)
    }
  }

  /** The encoder's sessions with buffered messages, and the current one. The model's own are
      `cfg`, what the encoder has last sent per track, and `began`, the identity of the first
      message since it connected. */
  datatype Encoder = Encoder(
    sessions: seq<Session>,
    bytes: nat,
    active: bool,
    nextSession: nat,
    interval: nat,
    bitrate: nat,
    cfg: map<Track, Payload>,
    began: nat)
  {
    ghost predicate Ok(ring: seq<Entry>) {
      && bytes == SessionsCost(sessions)
      && (forall i, j :: 0 <= i < j < |sessions| ==> sessions[i].id < sessions[j].id)
      && (forall i :: 0 <= i < |sessions| ==> sessions[i].id < nextSession)
      && (forall i :: 0 <= i < |ring| ==> HasSession(sessions, ring[i].session))
      && (active ==> sessions != [])
      && 0 < interval
    }

    function Last(): Session
      requires sessions != []
    {
      sessions[|sessions| - 1]
    }

    /** How long a frame of session `id` lasts, in ms (33 while unknown). */
    function FrameMs(id: nat): nat { FrameMsIn(sessions, id) }

    static function FrameMsIn(sessions: seq<Session>, id: nat): nat {
      if sessions == [] then 33
      else if sessions[0].id == id then sessions[0].frameMs
      else FrameMsIn(sessions[1..], id)
    }
  }

  /** The destination's connection and what it was given. `unused`: nothing yet.
      `epoch` (connections, and times media was thrown away unsent) is the model's own. */
  datatype Wire = Wire(
    connected: bool,
    generation: nat,
    epoch: nat,
    unused: bool,
    lastOutTs: nat,
    lastKindTs: map<Kind, nat>,
    lastPts: int,
    sentHeaders: map<Track, Payload>,
    sentMetadata: Option<Payload>,
    firstEmitted: Option<nat>)
  {
    /** The first timestamp a frame past all that was sent, in decoding order and, with
        composition time `cts`, in presentation order. */
    function AfterSent(frame: nat, cts: int): nat {
      var f := Max(frame, 1);
      Max(lastOutTs + f, Max(lastPts + f - cts, 0))
    }

    /** The timestamp a keyframe spliced to now gets. */
    function StartTs(frame: nat, cts: int): nat {
      if unused then 0 else AfterSent(frame, cts)
    }

    /** The output timestamp of a message, which its kind's never goes back from. */
    function OutTs(kind: Kind, ts: int): nat {
      var t := Max(ts, 0);
      if kind in lastKindTs then Max(t, lastKindTs[kind]) else t
    }

    function WithTs(kind: Kind, t: nat): Wire {
      this.(lastKindTs := lastKindTs[kind := t], lastOutTs := Max(lastOutTs, t))
    }
  }

  /** Where the output is in the buffer: message `num` airs next, with `tsOffset` added to
      its timestamp. `atSplice` (nothing consumed since the last splice) is the model's own. */
  datatype Cursor = Cursor(
    num: nat,
    tsOffset: int,
    needSync: bool,
    session: Option<nat>,
    skipLeadingAfter: Option<nat>,
    gate: Option<(nat, nat)>,
    pendingHeaders: bool,
    atSplice: bool)
  {
    /** After splicing to an open-GOP keyframe: `e` ends the pictures to leave out. */
    predicate EndsLeading(e: Entry) {
      && e.kind.Video? && skipLeadingAfter.Some?
      && skipLeadingAfter.value < e.num && (e.nal.Trailing? || e.nal.Cra? || e.nal.OtherIrap?)
    }

    /** `e` (not configuration) is not sent: a leading picture of a keyframe spliced to,
        or audio or data from before it. */
    predicate LeavesOut(e: Entry) {
      || (e.kind.Video? && skipLeadingAfter.Some? && !EndsLeading(e) && e.nal.Leading?)
      || (!e.kind.Video? && gate.Some? && gate.value.0 == e.session && e.ts < gate.value.1)
    }
  }

  /** A cursor at keyframe `e`, which gets the timestamp `start`. */
  function SplicedTo(e: Entry, start: nat): Cursor {
    Cursor(e.num, start - e.ts, false, Some(e.session), if e.nal.Cra? then Some(e.num) else None,
           Some((e.session, e.ts)), true, true)
  }

  /** The delay in effect, the one asked for, and the change under way. */
  datatype Plan = Plan(
    started: bool,
    delay: Time,
    target: Time,
    pending: Pending,
    hold: Option<HoldFrame>,
    historyShort: bool,
    slateChange: nat,
    endMark: Option<nat>)
  {
    function WithPending(p: Pending): Plan {
      this.(pending := p, hold := if p.Hold? then hold else None)
    }

    /** What a dump restores is now `d`. */
    function WithDumpDelay(d: Time): Plan
      requires pending.AfterDump()
    {
      var p := match pending
               case Replay(from, _) => Replay(from, d)
               case Hold(from, _) => Hold(from, d)
               case Dump(_, began, from, shown) => Dump(d, began, from, shown)
               case Mask(_, began, anchor, mute, shown, dump) => Mask(d, began, anchor, mute, shown, dump);
      this.(pending := p, target := d, historyShort := false)
    }

    /** The overlay confirmed the slate of change `change`. */
    function Shown(change: nat, now: Time): Plan {
      if change != slateChange then this
      else
        match pending
        case Mask(d, began, None, mute, None, dump) => this.(pending := Mask(d, began, None, mute, Some(now), dump))
        case Dump(d, began, from, None) => this.(pending := Dump(d, began, from, Some(now)))
        case _ => this
    }

    /** A delay over `max` by more than `interval`, with no change pending, is to be reduced. */
    function UnderMax(max: Time, interval: nat): Plan {
      if pending.Idle? && max + interval < delay
      then this.(target := Min(target, max), pending := Reduce(max), hold := None)
      else this
    }

    /** Once the buffer can hold only `held`: before the start the delay comes down to it,
        and later a reduction to it, unless another change or a smaller one is under way. */
    function Shortened(held: Option<Time>): Plan {
      if held.None? then this
      else if !started then this.(delay := Min(delay, held.value))
      else if held.value < delay && (pending.Idle? || (pending.Reduce? && held.value < pending.delay))
      then WithPending(Reduce(held.value))
      else this
    }

    /** A delay half a second over the target is to be reduced to it, or with none to end live
        after message `next`, unless a change pending says otherwise. */
    function BackToTarget(next: nat): Plan {
      if delay < target + 500_000 || !(pending.Idle? || (pending.Reduce? && target < pending.delay)) then this
      else WithPending(if target == 0 then GoLiveNow(Monus(next, 1)) else Reduce(target))
    }

    ghost predicate Ok(needSync: bool, clock: Time) {
      && (!started ==> pending.Idle? && hold.None?)
      && (hold.Some? ==> (pending.Hold? || pending.Dump?) && hold.value.last <= clock)
      && (pending.Hold? || pending.Dump? ==> needSync)
    }

    /** While a promise holds: whatever the pending change may do keeps the delay. */
    ghost predicate Promises(floor: Time) {
      0 < floor ==>
        && started && floor <= target
        && (match pending
            case Idle => floor <= delay
            case Reduce(d) => floor <= delay && floor <= d
            case Replay(_, d) => floor <= delay && floor <= d && endMark.None?
            case Hold(_, d) => floor <= d && endMark.None?
            case _ => false)
    }
  }

  /** On air, what a reconnect needs: the newest keyframe up to the cursor `num`, or without one
      the cursor itself. */
  function RestartOf(buf: Buffer, num: nat, started: bool): Option<nat> {
    if !started then None
    else
      var k := buf.SyncAtOrBefore(num);
      Some(if k.Some? then k.value else num)
  }

  /** What must be held, in bytes: on air, what a reconnect would start again from and all
      after it, with what there is besides messages; otherwise everything. */
  function Needed(buf: Buffer, enc: Encoder, at: Cursor, plan: Plan): nat {
    (if plan.started then BytesFrom(buf, buf.SyncAtOrBefore(at.num)) else buf.bytes) + enc.bytes
  }

  /** What the messages take from number `k` on, or all of them. */
  function BytesFrom(buf: Buffer, k: Option<nat>): nat {
    if k.Some? && buf.Has(k.value) then RingCost(buf.ring[k.value - buf.base..]) else buf.bytes
  }

  /** A time the memory limit took messages still to be sent: when, how much had to be held, the
      limit, what a reconnect would have needed, and what the buffer starts with since. */
  datatype Shortfall = Shortfall(at: Time, needed: nat, cap: nat, restart: Option<nat>, base: nat)
  {
    /** More had to be held than the limit, and what a reconnect needed went. */
    predicate Real() { cap < needed && (restart.Some? ==> restart.value < base) }
  }

  /** What the model remembers of a run: the latest time; whether no decoder configuration
      has been refused or forgotten for being too much; the encoder's configuration where
      the cursor is; the buffered messages the cursor moved past; while positive, the age
      below which nothing buffered may be sent; the identities of what was thrown away; every
      time memory fell short; what the connection took before the stretch it is in; and all
      that ever arrived, by identity. */
  datatype Ledger = Ledger(
    clock: Time,
    limitsHeld: bool,
    cursorCfg: map<Track, Payload>,
    consumed: seq<Consumed>,
    floor: Time,
    erased: set<nat>,
    shortfalls: seq<Shortfall>,
    took: seq<OutMsg>,
    arrived: seq<Entry>)

  /** `frame` is the newest keyframe of `buf` before message `num`, to be shown from `now` on,
      with what was configured at it; there is no frame without such a keyframe, or if it is
      audio. */
  ghost predicate HoldsNewest(frame: Option<HoldFrame>, buf: Buffer, enc: Encoder, num: nat, now: Time, held: bool) {
    var k := buf.NewestBefore(num);
    if k.None? || !buf.Has(k.value) || !buf.At(k.value).kind.Video? then frame.None?
    else
      var e := buf.At(k.value);
      && frame.Some? && var h := frame.value;
      && h == HoldFrame(e.payload, e.cts, enc.FrameMs(e.session), h.headers, now, now, false, e.id)
      && (held ==> MapOf(h.headers.config) == e.cfg)
  }

  /** `b` is the same encoder state with no more kept for the current session. */
  ghost predicate Lighter(a: Encoder, b: Encoder) {
    && b.active == a.active && b.cfg == a.cfg && b.began == a.began
    && (a.active && a.sessions != [] ==>
          && b.sessions != [] && b.Last().hasVideo == a.Last().hasVideo
          && |b.Last().headers| <= |a.Last().headers|
          && HeadersCost(b.Last().headers) <= HeadersCost(a.Last().headers))
  }

  /** Only the oldest messages have gone from the buffer. */
  ghost predicate Shrunk(buf: Buffer, buf': Buffer) {
    && buf.base <= buf'.base <= buf.base + |buf.ring|
    && buf'.ring == buf.ring[buf'.base - buf.base..]
    && buf'.next == buf.next && buf'.nextId == buf.nextId
  }

  /** A pending change moved along: at most the cursor, the delay and the change differ. */
  predicate MovedAlong(wire: Wire, wire': Wire, plan: Plan, plan': Plan) {
    && wire' == wire.(unused := wire'.unused, lastOutTs := wire'.lastOutTs)
    && wire.lastOutTs <= wire'.lastOutTs
    && plan' == plan.(started := plan'.started, delay := plan'.delay, pending := plan'.pending, hold := plan'.hold)
    && (plan.started ==> plan'.started)
  }

  /** Nothing but what may be sent now has been; nothing was thrown away, and no
      connection was made or lost. */
  ghost predicate Polled(wire: Wire, wire': Wire, log: Ledger, log': Ledger, sent: seq<OutMsg>, sent': seq<OutMsg>,
                         now: Time, endMark: Option<nat>)
  {
    && sent <= sent' && AllMaySend(sent', |sent|, now, log'.floor, log'.erased, endMark)
    && log.consumed <= log'.consumed
    && log' == log.(cursorCfg := log'.cursorCfg, consumed := log'.consumed)
    && wire'.connected == wire.connected && wire'.generation == wire.generation && wire'.epoch == wire.epoch
  }

  /** The kept decoder configuration gives, for every buffered message, what the encoder
      had last sent before it. */
  ghost predicate HeadersOk(buf: Buffer, enc: Encoder) {
    && (forall i, j :: 0 <= i < |buf.ring| && 0 <= j < |enc.sessions| && enc.sessions[j].id == buf.ring[i].session ==>
          InEffect(enc.sessions[j].headers, buf.ring[i].num) == buf.ring[i].cfg)
    && (enc.active && enc.sessions != [] ==>
          && MapOf(enc.Last().headers) == enc.cfg
          && AllNumsBelow(enc.Last().headers, buf.next))
  }

  /** Within a session, each message's configuration is the one after the previous. */
  ghost predicate ChainOk(buf: Buffer, enc: Encoder) {
    && (forall i, j :: 0 <= i < |buf.ring| && j == i + 1 < |buf.ring| && buf.ring[i].session == buf.ring[j].session ==>
          buf.ring[j].cfg == After(buf.ring[i]))
    && ((enc.active && enc.sessions != [] && buf.ring != []
         && buf.ring[|buf.ring| - 1].session == enc.Last().id) ==>
          enc.cfg == After(buf.ring[|buf.ring| - 1]))
  }

  /** The cursor knows keyframe `e` as the one the output was just spliced to. */
  predicate Gated(at: Cursor, e: Entry) {
    at.gate == Some((e.session, e.ts)) && at.skipLeadingAfter == if e.nal.Cra? then Some(e.num) else None
  }

  /** The cursor is at a keyframe just spliced to, which goes after all sent so far. */
  ghost predicate AtStart(buf: Buffer, wire: Wire, at: Cursor, sent: seq<OutMsg>) {
    && buf.Has(at.num)
    && var e := buf.At(at.num);
       var t := e.ts + at.tsOffset;
       && e.sync && at.session == Some(e.session)
       && Gated(at, e)
       && 0 <= t
       && NoLaterThan(wire.lastKindTs, t)
       && AllBefore(sent, wire.generation, e.kind, t, t + e.cts)
  }

  /** The cursor is right after the last message consumed, and knows the keyframe the output was
      spliced to before it: its session and timestamp, how far ahead its own is, and whether
      leading pictures are still to be left out. */
  ghost predicate Continuing(generation: nat, at: Cursor, consumed: seq<Consumed>) {
    && consumed != []
    && var n := |consumed|;
       var last, s := consumed[n - 1], SpliceOf(consumed, n - 1);
       var k := consumed[s];
       && last.generation == generation
       && last.entry.num + 1 == at.num
       && at.session == Some(last.entry.session)
       && at.gate == Some((k.entry.session, k.entry.ts))
       && at.tsOffset == last.offset
       && at.skipLeadingAfter == (if StillLeading(consumed, s, n) then Some(k.entry.num) else None)
  }

  /** The connection has the configuration in effect at the cursor, `cfg`. */
  ghost predicate ConfigKnown(buf: Buffer, enc: Encoder, received: map<Track, Payload>, at: Cursor, held: bool,
                              cfg: map<Track, Payload>)
  {
    && (held ==> Includes(received, cfg))
    && (buf.Has(at.num) && at.session == Some(buf.At(at.num).session) ==> buf.At(at.num).cfg == cfg)
    && ((at.num == buf.next && enc.active && enc.sessions != [] && at.session == Some(enc.Last().id)) ==>
          enc.cfg == cfg)
  }

  /** What the next message from the cursor relies on. */
  ghost predicate Ready(buf: Buffer, enc: Encoder, wire: Wire, at: Cursor, sent: seq<OutMsg>, held: bool,
                        cfg: map<Track, Payload>, consumed: seq<Consumed>)
  {
    wire.connected && !at.needSync && buf.base <= at.num ==>
      && (if at.atSplice then AtStart(buf, wire, at, sent) else Continuing(wire.generation, at, consumed))
      && (!at.pendingHeaders ==> ConfigKnown(buf, enc, Received(sent, wire.epoch), at, held, cfg))
  }

  ghost predicate PositionOk(buf: Buffer, unused: bool, at: Cursor, plan: Plan, maxDelay: Time) {
    && at.num <= buf.next
    && (unused || !plan.started ==> at.needSync)
    && (plan.endMark.Some? ==> plan.endMark.value < buf.next)
    && plan.target <= maxDelay
  }

  /** What the cursor knows of the keyframe the output was spliced to last, be it at the cursor or
      before it. */
  ghost predicate Knows(buf: Buffer, generation: nat, at: Cursor, consumed: seq<Consumed>) {
    if at.atSplice then buf.Has(at.num) && buf.At(at.num).sync && Gated(at, buf.At(at.num))
    else Continuing(generation, at, consumed)
  }

  /** What has been sent keeps the rules, and the connection's bounds cover it. */
  ghost predicate WireOk(wire: Wire, sent: seq<OutMsg>, held: bool) {
    && Ordered(sent) && CleanStarts(sent)
    && (held ==> Configured(sent))
    && Within(sent, wire.generation, wire.lastKindTs, wire.lastOutTs, wire.lastPts)
    && Attained(sent, wire.generation, wire.lastKindTs)
    && (wire.unused ==> wire.lastKindTs == map[])
    && (forall i :: 0 <= i < |sent| ==> sent[i].epoch <= wire.epoch)
    && Includes(Received(sent, wire.epoch), wire.sentHeaders)
  }

  /** What the connection took before is configured as the encoder had it. */
  ghost predicate TookOk(took: seq<OutMsg>, held: bool) {
    held ==> AllFound(took)
  }

  /** Nothing thrown away is in the buffer, or held. */
  ghost predicate ErasedOk(buf: Buffer, erased: set<nat>) {
    && (forall i :: 0 <= i < |buf.ring| ==> buf.ring[i].id !in erased)
    && (forall x :: x in erased ==> x < buf.nextId)
  }

  /** What is held is a keyframe that arrived, and was not thrown away. */
  ghost predicate HoldOk(hold: Option<HoldFrame>, arrived: seq<Entry>, erased: set<nat>) {
    hold.Some? ==> hold.value.id !in erased && ShowsArrived(hold.value, arrived)
  }

  /** All that is buffered arrived as it is, every message was marked as its stream's pictures
      say, and all that was passed and sent went the right way. */
  ghost predicate HistoryOk(buf: Buffer, enc: Encoder, sent: seq<OutMsg>, arrived: seq<Entry>,
                            consumed: seq<Consumed>)
  {
    && Recorded(buf, enc, arrived)
    && AllMarked(arrived)
    && AllAsArrived(sent, arrived)
    && AllPassed(sent, consumed)
  }

  /** A message was taken in as it came. It is one the output may start from exactly if inspection
      says it is a keyframe, or it is sound and no picture has come since the encoder connected;
      and if it is still there, the index has it exactly then. */
  ghost predicate TookIn(buf: Buffer, buf': Buffer, enc: Encoder, enc': Encoder, was: seq<Entry>, arrived: seq<Entry>,
                         now: Time, kind: Kind, ts: nat, payload: Payload, info: Info)
    requires enc.sessions != []
  {
    && |arrived| == |was| + 1 && was <= arrived && enc'.began == enc.began <= |was|
    && var e := arrived[|was|];
    && e.num == buf.next && e.arrival == now && e.session == enc.Last().id
    && e.kind == kind && e.ts == ts && e.payload == payload && e.info == info && e.began == enc.began
    && var starts := info.known && ((kind.Video? && info.keyframe)
                                    || (kind.Audio? && info.config.None? && !HadVideo(was, enc.began, |was|)));
    && e.sync == starts
    && (buf'.Has(e.num) ==> buf'.At(e.num) == e && (e.num in buf'.syncs <==> starts))
  }

  /** Identities count what arrived, and the current session knows whether its stream has had a
      picture. */
  ghost predicate Recorded(buf: Buffer, enc: Encoder, arrived: seq<Entry>) {
    && |arrived| == buf.nextId && enc.began <= buf.nextId
    && (forall i :: 0 <= i < |buf.ring| ==>
          buf.ring[i].id < |arrived| && arrived[buf.ring[i].id] == buf.ring[i])
    && (enc.active && enc.sessions != [] ==> enc.Last().hasVideo == HadVideo(arrived, enc.began, |arrived|))
  }

  /** A mask's rewind point is a keyframe, unless it was evicted. */
  ghost predicate AnchorOk(buf: Buffer, p: Pending) {
    p.Mask? && p.anchor.Some? ==>
      p.anchor.value < buf.next && (p.anchor.value < buf.base || p.anchor.value in buf.syncs)
  }
}
