/** What a destination has when a held frame is shown to it: the exact condition for the frame to
    find its configuration after a dump, and two runs of the engine in which it does not. */
module HeldFrames {
  import opened Wrappers
  import opened EngineTypes
  import opened Ring
  import opened EngineState
  import opened Trace
  import opened DelayEngine

  // ----- a dump and its first held frame ----------------------------------------------

  predicate IsEntry(m: OutMsg, e: Entry) { m.origin.Buffered? && m.origin.entry == e }

  /** The last message out is a held frame made of `key`, the only one since `sent` to a
      destination that then has got `got`. It finds its configuration exactly if the
      destination has what the encoder had sent before `key`; and if `key` itself is among what
      it has got, exactly if nothing it got since configures otherwise. */
  ghost predicate ShowsKey(sent: seq<OutMsg>, sent': seq<OutMsg>, got: seq<OutMsg>, key: Entry) {
    && |sent'| == |sent| + 1 && sent <= sent'
    && var m := sent'[|sent|];
    && m.origin.Repeated? && m.payload == key.payload
    && (FindsConfig(got, m.origin.frame) <==> Includes(Configuration(got), key.cfg))
    && forall i :: 0 <= i < |got| && IsEntry(got[i], key) ==>
         (FindsConfig(got, m.origin.frame) <==> Unchanged(got, i, key.cfg))
  }

  /** The keyframe a dump holds, when the connection took what was emitted up to `taken`. */
  function KeyOf(e: Engine, taken: Option<nat>): Option<Entry>
    reads e
  {
    var k := e.buf.NewestBefore(e.Reached(taken));
    if k.Some? && e.buf.Has(k.value) && e.buf.At(k.value).kind.Video? then Some(e.buf.At(k.value)) else None
  }

  /** A dump while on air, and the poll after it. If it is answered with a hold, the connection
      has got what it took, and the poll sends just the held frame, if there is one. */
  method DumpAndPoll(e: Engine, now: Time, taken: Option<nat>, mode: DelayMode, maxBytes: nat, ghost took: nat)
      returns (r: Result<Ack, EngineError>)
    requires e.Valid() && e.log.clock <= now
    modifies e
    ensures e.Valid() && (r.Ok? <==> old(e.CanDump())) && e.log.limitsHeld == old(e.log.limitsHeld)
    ensures r.Ok? && mode.MaskMode? ==> r.value.dump == Some(Held)
    ensures r.Ok? && r.value.dump == Some(Held) && old(e.Airing() && e.wire.connected && e.log.limitsHeld) ==>
              && e.log.took == old(e.Took(took)) && e.wire.generation == old(e.wire.generation)
              && var key := old(KeyOf(e, taken));
              if key.None? then e.sent == old(e.sent)
              else
                && ShowsKey(old(e.sent), e.sent, old(e.Took(took)), key.value)
                && e.sent[|old(e.sent)|].generation == e.wire.generation
  {
    hide Engine.Core, Engine.Valid, MapOf, Configuration, Received, Stretch, Buffer.NewestBefore, Engine.Reached,
      Includes, AllFound, Engine.Still;
    ghost var key, airs := KeyOf(e, taken), e.Airing() && e.wire.connected && e.log.limitsHeld;
    e.NothingAhead();
    e.NewestIsFrame(e.Reached(taken));
    r := e.DumpAfter(now, taken, mode, false, took);
    ghost var holds := airs && r.Ok? && r.value.dump == Some(Held);
    ghost var before, hold, got := e.sent, e.plan.hold, e.log.took;
    if holds {
      e.NothingAhead();
      NothingInStretch(before, e.wire.epoch);
      HoldWaits(e, now);
    }
    var _ := e.PollBudget(now, maxBytes);
    if holds && key.Some? {
      assert got + [] == got;
      assert e.sent[..|before|] == before;
      KeyShown(before, e.sent, got, hold.value, key.value);
    }
  }

  /** With nothing recorded yet, a hold waits. */
  lemma HoldWaits(e: Engine, now: Time)
    requires e.plan.pending.Hold? && e.plan.endMark.None? && e.buf.syncs == []
    ensures e.Still(now)
  {
  }

  lemma KeyShown(sent: seq<OutMsg>, sent': seq<OutMsg>, got: seq<OutMsg>, h: HoldFrame, key: Entry)
    requires AllFound(got) && MapOf(h.headers.config) == key.cfg && h.payload == key.payload && key.config.None?
    requires |sent'| == |sent| + 1 && sent <= sent'
    requires sent'[|sent|].origin == Repeated(h) && sent'[|sent|].payload == h.payload
    ensures ShowsKey(sent, sent', got, key)
  {
    hide AllFound, Configuration, MapOf, Unchanged;
    forall i | 0 <= i < |got| && IsEntry(got[i], key)
      ensures FindsConfig(got, h) <==> Unchanged(got, i, key.cfg)
    {
      AiredHere(got, i, h);
    }
  }

  // ----- two runs in which it does not ------------------------------------------------

  const CONFIG := Config(60_000, 10_000, 1_000_000_000, 0, false, true, false)
  const HEADER := Payload(1, 50)
  const FRAME := Payload(2, 1000)

  /** Inspection of a video configuration message, and of a keyframe. */
  const CONFIGURES: Inspected := Info(true, false, Some(0), 0, NoNal, SEC, 0)
  const KEYFRAME: Inspected := Info(true, true, None, 0, OtherIrap, SEC, 0)

  /** The buffer has a configuration message and two keyframes, three seconds apart. */
  predicate TwoKeyframes(buf: Buffer) {
    && |buf.ring| == 3 && buf.base == 0 && buf.next == 3 && buf.syncs == [1, 2]
    && (forall i :: 0 <= i < 3 ==> buf.ring[i].num == i && buf.ring[i].session == buf.ring[0].session)
    && buf.ring[0].arrival == 0 && buf.ring[1].arrival == 0 && buf.ring[2].arrival == 3 * SEC
    && buf.ring[1].kind.Video? && buf.ring[1].config.None? && buf.ring[1].cfg == map[Track(Video, 0) := HEADER]
    && buf.ring[2].kind.Video? && buf.ring[2].config.None? && buf.ring[2].nal.OtherIrap?
  }

  lemma FirstIsNewest(buf: Buffer)
    requires TwoKeyframes(buf)
    ensures buf.NewestBefore(2) == Some(1) && buf.SyncAtOrBefore(2) == Some(2)
  {
    assert buf.syncs[0] in buf.syncs && buf.syncs[1] in buf.syncs;
  }

  /** The broadcast, not started yet, is to be five seconds late. */
  ghost predicate Waits(e: Engine)
    reads e
  {
    && e.Valid() && e.log.limitsHeld && e.config == CONFIG && e.enc.active && e.sent == []
    && !e.wire.connected && e.wire.generation == 0 && e.at.num == 0 && e.at.needSync
    && e.plan == Plan(false, 5 * SEC, 5 * SEC, Idle, None, false, e.plan.slateChange, None)
  }

  /** A delay of five seconds is set, and an encoder comes. */
  method Prepare() returns (e: Engine)
    ensures fresh(e) && Waits(e) && e.log.clock == 0 && e.HeldBytes() <= Cost(0)
    ensures e.buf.base == 0 && e.buf.next == 0 && e.buf.ring == [] && e.buf.syncs == []
    ensures e.enc.sessions != [] && e.enc.Last().headers == [] && e.enc.cfg == map[]
  {
    hide Engine.Core, Engine.Valid;
    e := new Engine(CONFIG);
    var _ := e.Command(0, SetDelay(5_000, RewindMode));
    var _ := e.IngestStart(0);
  }

  /** The encoder has sent its configuration. */
  method Configure() returns (e: Engine)
    ensures fresh(e) && Waits(e) && e.log.clock == 0 && e.HeldBytes() <= 10_000
    ensures e.buf.base == 0 && e.buf.next == 1 && |e.buf.ring| == 1 && e.buf.syncs == []
    ensures var c := e.buf.ring[0]; c.arrival == 0 && c.num == 0 && e.enc.sessions != [] && c.session == e.enc.Last().id
    ensures e.enc.cfg == map[Track(Video, 0) := HEADER]
  {
    hide Engine.Core, Engine.Valid, Shrunk;
    e := Prepare();
    e.Ingest(0, Video, 0, HEADER, CONFIGURES);
  }

  /** The first keyframe has come. */
  method RecordOne() returns (e: Engine)
    ensures fresh(e) && Waits(e) && e.log.clock == 0 && e.HeldBytes() <= 20_000
    ensures e.buf.base == 0 && e.buf.next == 2 && |e.buf.ring| == 2 && e.buf.syncs == [1]
    ensures var c, k := e.buf.ring[0], e.buf.ring[1];
            && c.arrival == 0 && c.num == 0 && e.enc.sessions != [] && c.session == k.session == e.enc.Last().id
            && k.num == 1 && k.arrival == 0 && k.kind.Video? && k.config.None?
            && k.cfg == map[Track(Video, 0) := HEADER]
  {
    hide Engine.Core, Engine.Valid, MapOf, HeadersCost, Shrunk;
    e := Configure();
    e.Ingest(0, Video, 0, FRAME, KEYFRAME);
  }

  /** Two keyframes have come. */
  method Record() returns (e: Engine)
    ensures fresh(e) && Waits(e) && e.log.clock == 3 * SEC && TwoKeyframes(e.buf)
  {
    hide Engine.Core, Engine.Valid, MapOf, HeadersCost, Shrunk;
    e := RecordOne();
    e.Ingest(3 * SEC, Video, 3_000, FRAME, KEYFRAME);
  }

  /** The output is at the first keyframe, five seconds after it came. */
  method Begin() returns (e: Engine)
    ensures fresh(e) && e.Valid() && e.log.clock == 5 * SEC && e.log.limitsHeld && e.config == CONFIG
    ensures TwoKeyframes(e.buf) && e.enc.active && e.Sending()
    ensures e.wire.generation == 1 && e.at.num == 1
    ensures e.plan == Plan(true, 5 * SEC, 5 * SEC, Idle, None, false, e.plan.slateChange, None)
  {
    hide Engine.Core, Engine.Valid, MapOf, Engine.Late, Contiguous;
    e := Record();
    var _ := e.OutputConnected(5 * SEC);
    var _, _ := e.Resync(5 * SEC);
  }

  /** The first keyframe airs, five seconds late. */
  method Air() returns (e: Engine)
    ensures fresh(e) && e.Valid() && e.log.clock == 5 * SEC && e.log.limitsHeld && e.config == CONFIG
    ensures TwoKeyframes(e.buf) && e.enc.active
    ensures e.wire.connected && e.wire.generation == 1 && e.at.num == 2
    ensures e.plan == Plan(true, 5 * SEC, 5 * SEC, Idle, None, false, e.plan.slateChange, None)
  {
    hide Engine.Core, Engine.Valid;
    e := Begin();
    e.Emit(5 * SEC);
  }

  /** The connection drops, and the next, `wait` later, is at the second keyframe. */
  method Reconnect(wait: Time) returns (e: Engine)
    requires wait <= 3 * SEC
    ensures fresh(e) && e.Valid() && e.log.clock == 5 * SEC + wait && e.log.limitsHeld && e.config == CONFIG
    ensures TwoKeyframes(e.buf) && e.enc.active
    ensures e.Sending() && e.wire.generation == 2 && e.wire.firstEmitted.None? && e.at.num == 2 && e.at.atSplice
    ensures forall i :: 0 <= i < |e.sent| ==> e.sent[i].generation < 2 && e.sent[i].epoch < e.wire.epoch
    ensures e.log.took == []
    ensures e.plan == Plan(true, 5 * SEC, 5 * SEC, Idle, None, false, e.plan.slateChange, None)
  {
    hide Engine.Core, Engine.Valid, Buffer.SyncAtOrBefore;
    e := Air();
    FirstIsNewest(e.buf);
    e.NothingAhead();
    e.OutputDisconnected(Some(1));
    var _ := e.OutputConnected(5 * SEC + wait);
  }

  /** A held frame is the last message of connection 2, and does not find its configuration. */
  ghost predicate Unconfigured(e: Engine)
    reads e
  {
    && e.Valid() && e.log.limitsHeld && e.sent != [] && e.wire.generation == 2
    && var m := e.sent[|e.sent| - 1];
       m.origin.Repeated? && m.generation == 2 && !FindsConfig(e.log.took, m.origin.frame)
  }

  /** Its configuration was never handed over on this connection: the second keyframe is not due
      yet, a dump holds the first, and its frame is all that goes out. */
  method ShowsUnconfigured() returns (e: Engine)
    ensures fresh(e) && Unconfigured(e)
    ensures forall i :: 0 <= i < |e.sent| - 1 ==> e.sent[i].generation < 2
  {
    hide Engine.Core, Engine.Valid, MapOf, Configuration, Buffer.NewestBefore;
    e := Reconnect(0);
    FirstIsNewest(e.buf);
    NothingInStretch(e.sent, e.wire.epoch);
    ghost var all := e.sent;
    assert all[..|all|] == all;
    var _ := DumpAndPoll(e, 5 * SEC, None, MaskMode, 0, |all|);
    NotIncluded();
  }

  /** The second keyframe goes out after its configuration, none of it taken by the connection. */
  method AirSecond() returns (e: Engine, ghost took: nat)
    ensures fresh(e) && e.Valid() && e.log.clock == 8 * SEC && e.log.limitsHeld && e.config == CONFIG
    ensures TwoKeyframes(e.buf) && e.enc.active && e.wire.connected && e.wire.generation == 2
    ensures e.at.num == 3 && e.wire.firstEmitted == Some(2)
    ensures e.plan == Plan(true, 5 * SEC, 5 * SEC, Idle, None, false, e.plan.slateChange, None)
    ensures took < |e.sent| && e.Took(took) == []
    ensures var m := e.sent[|e.sent| - 1]; m.generation == 2 && m.IsFrame() && m.origin.Buffered?
  {
    hide Engine.Core, Engine.Valid, MapOf, Configuration, Buffer.NewestBefore;
    e := Reconnect(3 * SEC);
    NothingInStretch(e.sent, e.wire.epoch);
    ghost var before, passed := e.sent, |e.log.consumed|;
    e.Emit(8 * SEC);
    e.RulesKept();
    StartsGoOut(e.sent, e.log.consumed, passed);
    took := |before|;
    assert e.sent[..|before|] == before;
  }

  /** It was handed over, with the second keyframe, and lost: the connection took nothing of it
      before the dump took it back. */
  method ShowsLost() returns (e: Engine)
    ensures fresh(e) && Unconfigured(e)
    ensures |e.sent| >= 2 && var m := e.sent[|e.sent| - 2]; m.generation == 2 && m.IsFrame() && m.origin.Buffered?
  {
    hide Engine.Core, Engine.Valid, MapOf, Configuration, Buffer.NewestBefore, Engine.Took;
    ghost var took;
    e, took := AirSecond();
    FirstIsNewest(e.buf);
    var _ := DumpAndPoll(e, 8 * SEC, None, MaskMode, 0, took);
    NotIncluded();
  }

  lemma NotIncluded()
    ensures !Includes(Configuration([]), map[Track(Video, 0) := HEADER])
  {
    assert Configuration([]) == map[];
    assert Track(Video, 0) in map[Track(Video, 0) := HEADER];
  }
}
