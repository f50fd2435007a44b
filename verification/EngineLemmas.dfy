/** Steps of the delay engine on its state as values: what each keeps. */
module EngineLemmas {
  import opened Wrappers
  import opened EngineTypes
  import opened Ring
  import opened Trace
  import opened EngineState

  /** A splice puts the output at a start that goes after everything sent. */
  lemma SpliceStarts(buf: Buffer, enc: Encoder, wire: Wire, sent: seq<OutMsg>, held: bool, k: nat, frame: nat,
                     cfg: map<Track, Payload>, consumed: seq<Consumed>)
    requires WireOk(wire, sent, held) && buf.Has(k) && buf.At(k).sync && buf.At(k).num == k
    ensures var at := SplicedTo(buf.At(k), wire.StartTs(frame, buf.At(k).cts));
            && AtStart(buf, wire.(unused := false), at, sent)
            && Ready(buf, enc, wire.(unused := false), at, sent, held, cfg, consumed)
    ensures WireOk(wire.(unused := false), sent, held)
  {
  }

  lemma NothingYetOk(buf: Buffer, enc: Encoder, wire: Wire, at: Cursor, log: Ledger)
    requires buf == Buffer([], [], 0, 0, 0, 0)
    requires enc.sessions == [] && enc.bytes == 0 && !enc.active && 0 < enc.interval
    requires wire == Wire(false, 0, 0, true, 0, map[], 0, map[], None, None) && at.needSync
    requires log == Ledger(0, true, map[], [], 0, {}, [], [], []) && enc.began == 0
    ensures HistoryOk(buf, enc, [], [], [])
    ensures buf.Ok(0) && enc.Ok([]) && HeadersOk(buf, enc) && ChainOk(buf, enc)
    ensures Ready(buf, enc, wire, at, [], true, map[], []) && Continuous([]) && WireOk(wire, [], true)
    ensures ErasedOk(buf, {}) && TookOk([], true)
  {
  }

  /** Nothing is relied on while the output waits for a keyframe. */
  lemma UnsyncedReady(buf: Buffer, enc: Encoder, wire: Wire, at: Cursor, sent: seq<OutMsg>, held: bool,
                      cfg: map<Track, Payload>, consumed: seq<Consumed>)
    requires at.needSync || !wire.connected
    ensures Ready(buf, enc, wire, at, sent, held, cfg, consumed)
  {
  }

  lemma SyncKnown(buf: Buffer, clock: Time, k: nat)
    requires buf.Ok(clock) && k in buf.syncs
    ensures buf.Has(k) && buf.At(k).sync && buf.At(k).num == k && buf.At(k).arrival <= clock && k < buf.next
    ensures buf.At(k) in buf.ring
  {
  }

  /** No keyframe is newer than the last message. */
  lemma NewestKnown(buf: Buffer, clock: Time)
    requires buf.Ok(clock)
    ensures buf.syncs != [] ==> buf.syncs[|buf.syncs| - 1] <= Monus(buf.next, 1)
  {
    if buf.syncs != [] {
      SyncKnown(buf, clock, buf.syncs[|buf.syncs| - 1]);
    }
  }

  /** No keyframe is as new as the next message. */
  lemma NothingNewer(buf: Buffer, clock: Time)
    requires buf.Ok(clock)
    ensures buf.FirstFrom(buf.next).None?
  {
    forall s | s in buf.syncs ensures s < buf.next {
      SyncKnown(buf, clock, s);
    }
  }

  lemma SessionPast(buf: Buffer, enc: Encoder, k: nat)
    requires enc.Ok(buf.ring) && buf.Has(k)
    ensures buf.At(k).session < enc.nextSession
  {
    assert HasSession(enc.sessions, buf.ring[k - buf.base].session);
  }

  lemma AtKnown(buf: Buffer, clock: Time, num: nat)
    requires buf.Ok(clock) && buf.Has(num)
    ensures buf.At(num).num == num && buf.At(num).arrival <= clock && num < buf.next
    ensures buf.At(num) in buf.ring
    ensures buf.At(num).sync ==> num in buf.syncs && buf.At(num).config.None?
  {
    assert buf.ring[num - buf.base].num == num;
  }

  lemma EntryKept(buf: Buffer, clock: Time, erased: set<nat>, num: nat)
    requires buf.Ok(clock) && ErasedOk(buf, erased) && buf.Has(num)
    ensures buf.At(num).id !in erased && buf.At(num).id < buf.nextId
  {
    var last := buf.ring[|buf.ring| - 1];
    assert buf.At(num) == last || buf.At(num).id < last.id;
  }

  lemma UsedOk(wire: Wire, sent: seq<OutMsg>, held: bool)
    requires WireOk(wire, sent, held)
    ensures WireOk(wire.(unused := false), sent, held)
  {
  }

  /** Which message was the first matters to neither. */
  lemma FirstNoted(buf: Buffer, enc: Encoder, wire: Wire, at: Cursor, sent: seq<OutMsg>, held: bool,
                   cfg: map<Track, Payload>, consumed: seq<Consumed>, first: Option<nat>)
    requires WireOk(wire, sent, held) && Ready(buf, enc, wire, at, sent, held, cfg, consumed)
    ensures WireOk(wire.(firstEmitted := first), sent, held)
    ensures Ready(buf, enc, wire.(firstEmitted := first), at, sent, held, cfg, consumed)
  {
  }

  lemma LaterClock(buf: Buffer, clock: Time, now: Time)
    requires buf.Ok(clock) && clock <= now
    ensures buf.Ok(now)
  {
  }

  /** A cursor that waits for nothing is in a session. */
  lemma SessionKnown(buf: Buffer, enc: Encoder, wire: Wire, at: Cursor, sent: seq<OutMsg>, held: bool,
                     cfg: map<Track, Payload>, consumed: seq<Consumed>)
    requires Ready(buf, enc, wire, at, sent, held, cfg, consumed)
    requires wire.connected && !at.needSync && buf.base <= at.num
    ensures at.session.Some?
  {
  }

  /** At a start, no kind's timestamp is past the start's. */
  lemma AtStartTs(buf: Buffer, enc: Encoder, wire: Wire, at: Cursor, sent: seq<OutMsg>, held: bool,
                  cfg: map<Track, Payload>, consumed: seq<Consumed>)
    requires Ready(buf, enc, wire, at, sent, held, cfg, consumed)
    requires wire.connected && !at.needSync && buf.Has(at.num) && at.atSplice
    ensures AtStart(buf, wire, at, sent)
  {
  }

  /** Timestamps may carry on from later than the last one sent. */
  lemma LaterOk(buf: Buffer, enc: Encoder, wire: Wire, at: Cursor, sent: seq<OutMsg>, held: bool,
                cfg: map<Track, Payload>, consumed: seq<Consumed>, t: nat)
    requires WireOk(wire, sent, held) && wire.lastOutTs <= t
    requires Ready(buf, enc, wire, at, sent, held, cfg, consumed)
    ensures WireOk(wire.(lastOutTs := t), sent, held)
    ensures Ready(buf, enc, wire.(lastOutTs := t), at, sent, held, cfg, consumed)
  {
  }

  /** One more message goes out on the connection. */
  lemma SentOk(wire: Wire, wire': Wire, sent: seq<OutMsg>, held: bool, m: OutMsg)
    requires WireOk(wire, sent, held)
    requires m.generation == wire.generation == wire'.generation && m.epoch == wire.epoch == wire'.epoch
    requires !wire'.unused && wire'.lastKindTs == wire.lastKindTs[m.kind := m.timestamp]
    requires Max(wire.lastOutTs, m.timestamp) <= wire'.lastOutTs && wire.lastPts <= wire'.lastPts
    requires m.kind in wire.lastKindTs ==> wire.lastKindTs[m.kind] <= m.timestamp
    requires m.kind.Video? && m.IsFrame() ==> m.Pts() <= wire'.lastPts
    requires m.IsStart() ==> AllBefore(sent, m.generation, m.kind, m.timestamp, m.Pts())
    requires held && m.origin.Buffered? && m.IsFrame() ==>
               Includes(Received(sent, wire.epoch), m.origin.entry.cfg)
    requires wire'.sentHeaders == match Configures(m)
                                  case Some(t) => wire.sentHeaders[t := m.payload]
                                  case None => wire.sentHeaders
    ensures WireOk(wire', sent + [m], held)
  {
    hide Ordered, CleanStarts, Configured, Within, AllBefore, Received, Attained;
    WithinLater(sent, wire, wire', m);
    AttainedExtends(sent, m, wire.lastKindTs);
    OrderedExtends(sent, m, wire'.lastKindTs, wire'.lastOutTs, wire'.lastPts);
    CleanStartsExtends(sent, m);
    if held {
      ConfiguredExtends(sent, m);
    }
    HeadersReceived(wire, wire', sent, m);
  }

  lemma WithinLater(sent: seq<OutMsg>, wire: Wire, wire': Wire, m: OutMsg)
    requires Within(sent, wire.generation, wire.lastKindTs, wire.lastOutTs, wire.lastPts)
    requires wire.lastOutTs <= wire'.lastOutTs && m.timestamp <= wire'.lastOutTs && wire.lastPts <= wire'.lastPts
    requires m.kind in wire.lastKindTs ==> wire.lastKindTs[m.kind] <= m.timestamp
    requires wire'.lastKindTs == wire.lastKindTs[m.kind := m.timestamp]
    ensures Within(sent, wire.generation, wire'.lastKindTs, wire'.lastOutTs, wire'.lastPts)
  {
  }

  lemma HeadersReceived(wire: Wire, wire': Wire, sent: seq<OutMsg>, m: OutMsg)
    requires m.epoch == wire.epoch && Includes(Received(sent, wire.epoch), wire.sentHeaders)
    requires wire'.sentHeaders == match Configures(m)
                                  case Some(t) => wire.sentHeaders[t := m.payload]
                                  case None => wire.sentHeaders
    ensures Includes(Received(sent + [m], wire.epoch), wire'.sentHeaders)
  {
    ReceivedExtends(sent, m, wire.epoch);
    hide Received, Configures;
  }

  /** After the message at the cursor, the cursor is right where the next one goes on. */
  lemma AdvancedReady(buf: Buffer, enc: Encoder, wire: Wire, at: Cursor, sent: seq<OutMsg>, held: bool,
                      consumed: seq<Consumed>, clock: Time, c: Consumed)
    requires buf.Ok(clock) && ChainOk(buf, enc) && buf.Has(at.num) && Passes(buf, wire.generation, at, c)
    requires at.session == Some(buf.At(at.num).session)
    requires Knows(buf, wire.generation, at, consumed) && AllPassed(sent, consumed)
    requires !at.pendingHeaders && held ==>
               Includes(Received(sent, wire.epoch), After(buf.At(at.num)))
    ensures Ready(buf, enc, wire, Past(at, c.entry), sent, held, After(c.entry), consumed + [c])
  {
    hide Continuing, Knows, AllPassed, Received, Includes, After;
    ContinuesPast(buf, wire.generation, at, sent, consumed, c, clock);
    if buf.Has(at.num + 1) {
      assert buf.At(at.num + 1) == buf.ring[at.num + 1 - buf.base];
    }
  }

  /** No track comes twice. */
  ghost predicate Apart(config: seq<HeaderRec>) {
    forall i, j :: 0 <= i < j < |config| ==> config[i].track != config[j].track
  }

  /** Of what was had before, only the tracks of the first `n` records of `config` may differ. */
  ghost predicate AlikeBut(had: map<Track, Payload>, has: map<Track, Payload>, config: seq<HeaderRec>, n: nat) {
    n <= |config| &&
    forall t: Track :: (t in had && t in has && had[t] == has[t]) || (t !in had && t !in has)
                       || exists i :: 0 <= i < n && config[i].track == t
  }

  /** With no track twice, the map has each record. */
  lemma {:induction false} InMapOf(config: seq<HeaderRec>, i: nat)
    requires i < |config|
    ensures Apart(config) ==> config[i].track in MapOf(config) && MapOf(config)[config[i].track] == config[i].payload
  {
    if i < |config| - 1 {
      InMapOf(config[..|config| - 1], i);
    }
  }

  lemma NoneApart()
    ensures Apart([])
  {
  }

  lemma ReplacedApart(config: seq<HeaderRec>, r: HeaderRec)
    requires Apart(config)
    ensures Apart(Without(config, r.track) + [r])
  {
    WithoutApart(config, r.track);
    var rest := Without(config, r.track);
    assert forall i :: 0 <= i < |rest| ==> rest[i] in rest;
  }

  /** What went out since `before` is decoder configuration of `cfg` the destination did not have,
      when it had `had`. */
  ghost predicate OnlyMissing(before: seq<OutMsg>, sent: seq<OutMsg>, had: map<Track, Payload>,
                              cfg: map<Track, Payload>)
  {
    forall i :: |before| <= i < |sent| && sent[i].origin.Header? ==>
      && sent[i].origin.track in cfg && cfg[sent[i].origin.track] == sent[i].payload
      && !(sent[i].origin.track in had && had[sent[i].origin.track] == sent[i].payload)
  }

  lemma NothingMissing(before: seq<OutMsg>, had: map<Track, Payload>, cfg: map<Track, Payload>,
                       config: seq<HeaderRec>)
    ensures OnlyMissing(before, before, had, cfg) && AlikeBut(had, had, config, 0)
  {
  }

  lemma MissingSince(before: seq<OutMsg>, mid: seq<OutMsg>, sent: seq<OutMsg>, had: map<Track, Payload>,
                     cfg: map<Track, Payload>)
    requires before <= mid <= sent && OnlyMissing(mid, sent, had, cfg)
    requires forall i :: |before| <= i < |mid| ==> !mid[i].origin.Header?
    ensures OnlyMissing(before, sent, had, cfg)
  {
  }

  /** Record `n` of `config` goes out, or the destination has it. */
  lemma MissingMore(before: seq<OutMsg>, sent: seq<OutMsg>, sent': seq<OutMsg>, had: map<Track, Payload>,
                    has: map<Track, Payload>, config: seq<HeaderRec>, n: nat)
    requires n < |config| && before <= sent && AlikeBut(had, has, config, n)
    requires Apart(config) ==> OnlyMissing(before, sent, had, MapOf(config))
    requires sent' == sent ||
             (&& |sent'| == |sent| + 1 && sent <= sent'
              && sent'[|sent|].origin == Header(config[n].track) && sent'[|sent|].payload == config[n].payload
              && !(config[n].track in has && has[config[n].track] == config[n].payload))
    ensures AlikeBut(had, has[config[n].track := config[n].payload], config, n + 1)
    ensures Apart(config) ==> OnlyMissing(before, sent', had, MapOf(config))
  {
    hide MapOf;
    InMapOf(config, n);
  }

  lemma {:induction false} WithoutApart(config: seq<HeaderRec>, track: Track)
    requires Apart(config)
    ensures Apart(Without(config, track))
    ensures forall r :: r in Without(config, track) ==> r.track != track && r in config
  {
    if config != [] {
      var rest, h := config[..|config| - 1], config[|config| - 1];
      WithoutApart(rest, track);
      if h.track != track {
        assert forall r :: r in rest ==> r.track != h.track;
      }
    }
  }

  /** The cursor after `e`, the message at it. */
  function Past(at: Cursor, e: Entry): Cursor {
    at.(num := at.num + 1, atSplice := false,
        skipLeadingAfter := if e.config.None? && at.EndsLeading(e) then None else at.skipLeadingAfter)
  }

  /** `c` is the message at the cursor, passed there. */
  predicate Passes(buf: Buffer, generation: nat, at: Cursor, c: Consumed)
    requires buf.Has(at.num)
  {
    c.entry == buf.At(at.num) && c.generation == generation && c.starts == at.atSplice && c.offset == at.tsOffset
  }

  lemma ContinuesPast(buf: Buffer, generation: nat, at: Cursor, sent: seq<OutMsg>, consumed: seq<Consumed>, c: Consumed,
                      clock: Time)
    requires buf.Ok(clock) && buf.Has(at.num) && Passes(buf, generation, at, c)
    requires at.session == Some(c.entry.session)
    requires Knows(buf, generation, at, consumed) && AllPassed(sent, consumed)
    ensures Continuing(generation, Past(at, c.entry), consumed + [c])
  {
    hide StillLeading, AllPassed, Indexes, RingCost;
    AtKnown(buf, clock, at.num);
    var n, more := |consumed|, consumed + [c];
    assert more[n] == c;
    if c.starts {
      assert StillLeading(more, n, n + 1) == c.entry.nal.Cra? by { OneIsLeading(more, n); }
    } else {
      var s := SpliceOf(consumed, n - 1);
      SpliceOfMore(consumed, c, n - 1);
      StillLeadingMore(consumed, c, s, n);
      NumbersFollow(sent, consumed, n - 1);
    }
  }

  lemma OneIsLeading(consumed: seq<Consumed>, n: nat)
    requires n < |consumed|
    ensures StillLeading(consumed, n, n + 1) == consumed[n].entry.nal.Cra?
  {
  }

  /** The message at the cursor is left out as its splice says. */
  lemma LeftOutRight(buf: Buffer, generation: nat, at: Cursor, sent: seq<OutMsg>, consumed: seq<Consumed>, c: Consumed,
                     clock: Time)
    requires buf.Ok(clock) && buf.Has(at.num) && Passes(buf, generation, at, c) && c.entry.config.None?
    requires at.session == Some(c.entry.session)
    requires Knows(buf, generation, at, consumed) && AllPassed(sent, consumed)
    ensures var n, more := |consumed|, consumed + [c];
      Airs(more, SpliceOf(more, n), n) == !at.LeavesOut(c.entry)
  {
    hide StillLeading, AllPassed, Indexes, RingCost;
    AtKnown(buf, clock, at.num);
    var n, more := |consumed|, consumed + [c];
    assert more[n] == c;
    if !c.starts {
      var s := SpliceOf(consumed, n - 1);
      SpliceOfMore(consumed, c, n - 1);
      StillLeadingMore(consumed, c, s, n);
      NumbersFollow(sent, consumed, n - 1);
    }
  }

  /** The message at the cursor, passed, and sent or not as is right. */
  lemma PassedOk(buf: Buffer, generation: nat, at: Cursor, sent: seq<OutMsg>, sent': seq<OutMsg>,
                 consumed: seq<Consumed>, c: Consumed, clock: Time)
    requires buf.Ok(clock) && buf.Has(at.num) && Passes(buf, generation, at, c)
    requires at.session == Some(c.entry.session)
    requires Knows(buf, generation, at, consumed) && AllPassed(sent, consumed) && sent <= sent'
    requires c.entry.config.None? ==>
               (c.out.Some? <==> !(c.slate && c.entry.kind.Audio?) && !at.LeavesOut(c.entry))
    requires c.out.Some? ==>
               && c.out.value < |sent'| && sent'[c.out.value].origin == Buffered(c.entry, c.starts)
               && sent'[c.out.value].generation == generation
               && TimedAt(sent', c.out.value, c.entry.ts + c.offset)
    ensures AllPassed(sent', consumed + [c])
  {
    var n, more := |consumed|, consumed + [c];
    if c.entry.config.None? {
      LeftOutRight(buf, generation, at, sent, consumed, c, clock);
    }
    hide Airs, TimedAt, AllPassed, Indexes, RingCost, Cursor.LeavesOut;
    AtKnown(buf, clock, at.num);
    assert more[n] == c;
    if !c.starts {
      SpliceOfMore(consumed, c, n - 1);
      assert more[n - 1] == consumed[n - 1];
      SplicePassed(sent, consumed, n - 1);
    }
    assert PassedAt(sent', more, n);
    PassedMore(sent, sent', consumed, c);
  }

  lemma SplicePassed(sent: seq<OutMsg>, consumed: seq<Consumed>, i: nat)
    requires AllPassed(sent, consumed) && i < |consumed|
    ensures var k := consumed[SpliceOf(consumed, i)];
      k.starts && k.entry.sync && consumed[i].offset == k.offset
  {
    assert PassedAt(sent, consumed, i);
  }

  /** A message with the timestamp its kind is to have goes out in time. */
  lemma TimedOk(wire: Wire, sent: seq<OutMsg>, held: bool, m: OutMsg, t: int)
    requires WireOk(wire, sent, held) && m.generation == wire.generation && m.timestamp == wire.OutTs(m.kind, t)
    ensures TimedAt(sent + [m], |sent|, t)
  {
    hide Ordered, CleanStarts, Configured, Within, Received;
    var s := sent + [m];
    assert s[|sent|] == m && s[..|sent|] == sent;
    if m.kind in wire.lastKindTs {
      assert WentOut(sent, wire.generation, m.kind, wire.lastKindTs[m.kind]);
    }
  }

  /** Since `before`, at most one message went out, after configuration and metadata. */
  ghost predicate OneSent(before: seq<OutMsg>, sent: seq<OutMsg>) {
    && before <= sent
    && forall i :: |before| <= i < |sent| - 1 ==> sent[i].origin.Metadata? || sent[i].origin.Header?
  }

  /** Since `before`, less than `maxBytes` went out ahead of the last message and the configuration
      it needs; but a held frame goes out whatever was. */
  ghost predicate WithinBudget(before: seq<OutMsg>, sent: seq<OutMsg>, maxBytes: nat) {
    sent == before
    || exists n :: |before| <= n < |sent| && OneSent(sent[..n], sent)
                   && (PayloadBytes(sent[|before|..n]) < maxBytes || sent[|sent| - 1].origin.Repeated?)
  }

  lemma NothingSpent(sent: seq<OutMsg>, maxBytes: nat)
    ensures WithinBudget(sent, sent, maxBytes)
  {
  }

  lemma BudgetKept(before: seq<OutMsg>, mid: seq<OutMsg>, sent: seq<OutMsg>, maxBytes: nat)
    requires before <= mid && WithinBudget(before, mid, maxBytes) && OneSent(mid, sent)
    requires sent == mid || PayloadBytes(mid[|before|..]) < maxBytes || sent[|sent| - 1].origin.Repeated?
    ensures WithinBudget(before, sent, maxBytes)
  {
    if sent != mid {
      assert sent[..|mid|] == mid && sent[|before|..|mid|] == mid[|before|..];
    }
  }

  // ----- what arrived, and what went out ----------------------------------------------

  /** Nothing new in the buffer, and a lighter encoder state. */
  lemma HistoryKept(buf: Buffer, buf': Buffer, enc: Encoder, enc': Encoder, sent: seq<OutMsg>, arrived: seq<Entry>,
                    consumed: seq<Consumed>)
    requires HistoryOk(buf, enc, sent, arrived, consumed) && Lighter(enc, enc')
    requires buf'.nextId == buf.nextId && forall e :: e in buf'.ring ==> e in buf.ring
    requires enc'.active && enc'.sessions != [] ==> enc.sessions != []
    ensures HistoryOk(buf', enc', sent, arrived, consumed)
  {
    hide AllMarked, AllAsArrived, AllPassed, HadVideo;
    forall i | 0 <= i < |buf'.ring|
      ensures buf'.ring[i].id < |arrived| && arrived[buf'.ring[i].id] == buf'.ring[i]
    {
      assert buf'.ring[i] in buf.ring;
    }
  }

  /** One more message was handed over, as it arrived. */
  lemma HistorySent(buf: Buffer, enc: Encoder, sent: seq<OutMsg>, arrived: seq<Entry>, consumed: seq<Consumed>,
                    m: OutMsg)
    requires HistoryOk(buf, enc, sent, arrived, consumed) && AsArrived(m, arrived)
    ensures HistoryOk(buf, enc, sent + [m], arrived, consumed)
  {
    hide AllMarked, Recorded, AsArrived, AllPassed;
    PassedSame(sent, sent + [m], consumed);
  }

  /** What is buffered arrived as it is. */
  lemma BufferedArrived(buf: Buffer, enc: Encoder, sent: seq<OutMsg>, arrived: seq<Entry>, consumed: seq<Consumed>,
                        num: nat)
    requires HistoryOk(buf, enc, sent, arrived, consumed) && buf.Has(num)
    ensures buf.At(num).id < |arrived| && arrived[buf.At(num).id] == buf.At(num)
  {
    assert buf.At(num) == buf.ring[num - buf.base];
  }

  /** A message that comes is marked as inspection and its stream say. */
  lemma HistoryAppended(buf: Buffer, enc: Encoder, enc': Encoder, sent: seq<OutMsg>, arrived: seq<Entry>,
                        consumed: seq<Consumed>, e: Entry)
    requires HistoryOk(buf, enc, sent, arrived, consumed) && enc.active && enc.sessions != []
    requires enc'.sessions != [] && enc'.began == enc.began == e.began && e.id == buf.nextId
    requires enc'.Last().hasVideo == (enc.Last().hasVideo || (e.kind.Video? && e.info.known))
    requires Marked(arrived + [e], |arrived|)
    ensures HistoryOk(Appended(buf, e), enc', sent, arrived + [e], consumed)
  {
    hide Marked, AsArrived, AllPassed, AllMarked, AllAsArrived;
    MarkedMore(arrived, e);
    AsArrivedMore(sent, arrived, e);
    hide HistoryOk;
    assert HistoryOk(buf, enc, sent, arrived, consumed);
    RecordedMore(buf, enc, enc', arrived, e);
  }

  /** What came is taken in, whatever went for it. */
  lemma WasTaken(buf: Buffer, enc: Encoder, enc': Encoder, sent: seq<OutMsg>, was: seq<Entry>,
                 consumed: seq<Consumed>, clock: Time, e: Entry)
    requires HistoryOk(Appended(buf, e), enc', sent, was + [e], consumed) && Appended(buf, e).Ok(clock)
    requires enc.sessions != [] && enc'.began == enc.began == e.began && e.num == buf.next && e.session == enc.Last().id
    ensures TookIn(buf, Appended(buf, e), enc, enc', was, was + [e], e.arrival, e.kind, e.ts, e.payload, e.info)
  {
    hide AllAsArrived, AllPassed, Contiguous, RingCost, HadVideo;
    assert (was + [e])[|was|] == e && Marked(was + [e], |was|);
    HadVideoBefore(was, was + [e], e.began, |was|);
  }

  lemma StillTaken(buf: Buffer, buf': Buffer, buf'': Buffer, enc: Encoder, enc': Encoder, enc'': Encoder,
                   was: seq<Entry>, arrived: seq<Entry>, now: Time, kind: Kind, ts: nat, payload: Payload, info: Info,
                   clock: Time)
    requires enc.sessions != [] && TookIn(buf, buf', enc, enc', was, arrived, now, kind, ts, payload, info)
    requires buf'.Ok(clock) && buf''.Ok(clock) && Shrunk(buf', buf'') && enc''.began == enc'.began
    ensures TookIn(buf, buf'', enc, enc'', was, arrived, now, kind, ts, payload, info)
  {
    hide Contiguous, RingCost, HadVideo;
  }

  lemma RecordedMore(buf: Buffer, enc: Encoder, enc': Encoder, arrived: seq<Entry>, e: Entry)
    requires Recorded(buf, enc, arrived) && enc.active && enc.sessions != []
    requires enc'.sessions != [] && enc'.began == enc.began && e.id == buf.nextId
    requires enc'.Last().hasVideo == (enc.Last().hasVideo || (e.kind.Video? && e.info.known))
    ensures Recorded(Appended(buf, e), enc', arrived + [e])
  {
    var more := arrived + [e];
    assert more[|arrived|] == e;
    assert HadVideo(more, enc.began, |more|) ==
      (HadVideo(arrived, enc.began, |arrived|) || (e.kind.Video? && e.info.known)) by {
      if HadVideo(arrived, enc.began, |arrived|) {
        var j :| enc.began <= j < |arrived| && arrived[j].kind.Video? && arrived[j].info.known;
        assert more[j] == arrived[j];
      }
    }
  }

  /** What arrives later changes nothing of what is held. */
  lemma HeldStays(hold: Option<HoldFrame>, arrived: seq<Entry>, erased: set<nat>, e: Entry)
    requires HoldOk(hold, arrived, erased)
    ensures HoldOk(hold, arrived + [e], erased)
  {
  }

  lemma HistoryStops(buf: Buffer, enc: Encoder, sent: seq<OutMsg>, arrived: seq<Entry>, consumed: seq<Consumed>)
    requires HistoryOk(buf, enc, sent, arrived, consumed)
    ensures HistoryOk(buf, enc.(active := false), sent, arrived, consumed)
  {
  }

  /** A new stream of an encoder has had nothing yet. */
  lemma HistoryBegins(buf: Buffer, enc: Encoder, enc': Encoder, sent: seq<OutMsg>, arrived: seq<Entry>,
                      consumed: seq<Consumed>)
    requires HistoryOk(buf, enc, sent, arrived, consumed)
    requires enc'.began == buf.nextId && enc'.sessions != [] && !enc'.Last().hasVideo
    ensures HistoryOk(buf, enc', sent, arrived, consumed) && buf.nextId == |arrived|
  {
    hide AllMarked, AllAsArrived, AllPassed;
  }

  /** The message at the cursor follows on from the last one, or is a start. */
  lemma ConsumedOk(buf: Buffer, enc: Encoder, wire: Wire, at: Cursor, sent: seq<OutMsg>, held: bool,
                   cfg: map<Track, Payload>, consumed: seq<Consumed>, clock: Time, c: Consumed)
    requires Ready(buf, enc, wire, at, sent, held, cfg, consumed) && Continuous(consumed) && buf.Ok(clock)
    requires wire.connected && !at.needSync && buf.Has(at.num)
    requires at.session == Some(buf.At(at.num).session)
    requires Passes(buf, wire.generation, at, c)
    ensures Continuous(consumed + [c])
  {
    ContinuousExtends(consumed, c);
  }

  /** Configuration sent ahead of a message leaves what that message relies on. */
  lemma HeaderReady(buf: Buffer, enc: Encoder, wire: Wire, wire': Wire, at: Cursor, sent: seq<OutMsg>, held: bool,
                    cfg: map<Track, Payload>, consumed: seq<Consumed>, m: OutMsg)
    requires Ready(buf, enc, wire, at, sent, held, cfg, consumed)
    requires at.needSync || at.pendingHeaders
    requires wire'.connected == wire.connected && wire'.generation == wire.generation
    requires wire'.lastKindTs == wire.lastKindTs[m.kind := m.timestamp]
    requires !m.IsFrame()
    requires !at.needSync && at.atSplice && buf.Has(at.num) ==> m.timestamp <= buf.At(at.num).ts + at.tsOffset
    ensures Ready(buf, enc, wire', at, sent + [m], held, cfg, consumed)
  {
  }

  /** With the configuration at the cursor sent, the cursor's message finds it. */
  lemma HeadersSentReady(buf: Buffer, enc: Encoder, wire: Wire, at: Cursor, sent: seq<OutMsg>, held: bool,
                         cfg: map<Track, Payload>, consumed: seq<Consumed>, config: seq<HeaderRec>)
    requires Ready(buf, enc, wire, at, sent, held, cfg, consumed) && WireOk(wire, sent, held)
    requires enc.Ok(buf.ring) && (held ==> HeadersOk(buf, enc))
    requires wire.connected && !at.needSync && buf.Has(at.num) && at.num < buf.next
    requires forall j :: 0 <= j < |enc.sessions| && enc.sessions[j].id == buf.At(at.num).session ==>
               MapOf(config) == InEffect(enc.sessions[j].headers, buf.At(at.num).num)
    requires Includes(wire.sentHeaders, MapOf(config))
    ensures Ready(buf, enc, wire, at.(pendingHeaders := false), sent, held, buf.At(at.num).cfg, consumed)
    ensures held ==> Includes(Received(sent, wire.epoch), buf.At(at.num).cfg)
  {
    var i := at.num - buf.base;
    assert HasSession(enc.sessions, buf.ring[i].session);
    if held {
      var j :| 0 <= j < |enc.sessions| && enc.sessions[j].id == buf.ring[i].session;
      assert MapOf(config) == buf.ring[i].cfg;
    }
  }

  /** The kept configuration is what the encoder had sent before message `num`. */
  lemma ConfigAt(buf: Buffer, enc: Encoder, num: nat, config: seq<HeaderRec>)
    requires HeadersOk(buf, enc) && enc.Ok(buf.ring) && buf.Has(num) && buf.At(num).num == num
    requires forall j :: 0 <= j < |enc.sessions| && enc.sessions[j].id == buf.At(num).session ==>
               MapOf(config) == InEffect(enc.sessions[j].headers, num)
    ensures MapOf(config) == buf.At(num).cfg
  {
    assert HasSession(enc.sessions, buf.ring[num - buf.base].session);
  }

  /** What a connection took of a stretch is configured with what it took before. */
  lemma TookKept(wire: Wire, sent: seq<OutMsg>, held: bool, took: seq<OutMsg>, n: nat)
    requires WireOk(wire, sent, held) && TookOk(took, held) && n <= |sent|
    ensures TookOk(Got(took, sent[..n], wire.epoch), held)
  {
    hide Ordered, CleanStarts, Configured, Within, AllFound, Got;
    if held {
      ConfiguredBefore(sent, n);
      GotFound(took, sent[..n], wire.epoch);
    }
  }

  /** With its configuration sent, a held frame finds it. */
  lemma HeldFindsConfig(wire: Wire, sent: seq<OutMsg>, held: bool, took: seq<OutMsg>, h: HoldFrame)
    requires WireOk(wire, sent, held) && Includes(wire.sentHeaders, MapOf(h.headers.config))
    ensures FindsConfig(Got(took, sent, wire.epoch), h)
  {
    hide Configuration, Received, MapOf, Got;
    GotIncludes(took, sent, wire.epoch);
  }

  /** A later message keeps what an earlier one established. */
  lemma StillIncludes(a: map<Track, Payload>, b: map<Track, Payload>, headers: seq<HeaderRec>, i: nat)
    requires i < |headers| && Includes(a, MapOf(headers[..i]))
    requires b == a[headers[i].track := headers[i].payload]
    ensures Includes(b, MapOf(headers[..i + 1]))
  {
    assert headers[..i + 1][..i] == headers[..i];
  }

  /** The message at the cursor finds its configuration; at a splice it is a keyframe. */
  lemma KnownAtCursor(buf: Buffer, enc: Encoder, wire: Wire, at: Cursor, sent: seq<OutMsg>, held: bool,
                      cfg: map<Track, Payload>, consumed: seq<Consumed>)
    requires Ready(buf, enc, wire, at, sent, held, cfg, consumed)
    requires wire.connected && !at.needSync && buf.Has(at.num) && at.session == Some(buf.At(at.num).session)
    ensures at.atSplice ==> buf.At(at.num).sync
    ensures Knows(buf, wire.generation, at, consumed)
    ensures !at.pendingHeaders && held ==> Includes(Received(sent, wire.epoch), buf.At(at.num).cfg)
  {
  }

  /** Left-out configuration is configuration the destination has. */
  lemma SkippedKnown(wire: Wire, sent: seq<OutMsg>, held: bool, e: Entry)
    requires WireOk(wire, sent, held)
    requires held ==> Includes(Received(sent, wire.epoch), e.cfg)
    requires e.config.Some? ==>
               var t := Track(e.kind, e.config.value);
               t in wire.sentHeaders && wire.sentHeaders[t] == e.payload
    ensures held ==> Includes(Received(sent, wire.epoch), After(e))
  {
  }

  /** A held frame a frame after everything sent comes strictly after it. */
  lemma HeldAfter(wire: Wire, sent: seq<OutMsg>, held: bool, frame: nat, cts: int, t: nat)
    requires WireOk(wire, sent, held) && wire.AfterSent(frame, cts) <= t
    ensures AllBefore(sent, wire.generation, Video, t, t + cts)
    ensures NoLaterThan(wire.lastKindTs, t)
  {
  }

  lemma HeadersAreNoFrames(sent: seq<OutMsg>, sent': seq<OutMsg>, generation: nat, kind: Kind, ts: nat, pts: int)
    requires AllBefore(sent, generation, kind, ts, pts) && sent <= sent'
    requires forall i :: |sent| <= i < |sent'| ==> sent'[i].origin.Metadata? || sent'[i].origin.Header?
    ensures AllBefore(sent', generation, kind, ts, pts)
  {
  }

  /** Dropping the oldest messages keeps what is relied on. */
  lemma SuffixOk(buf: Buffer, buf': Buffer, enc: Encoder, wire: Wire, at: Cursor, sent: seq<OutMsg>, held: bool,
                 cfg: map<Track, Payload>, consumed: seq<Consumed>, erased: set<nat>, p: Pending, n: nat)
    requires n <= |buf.ring| && buf'.ring == buf.ring[n..] && buf'.base == buf.base + n
    requires buf'.next == buf.next && buf'.nextId == buf.nextId
    requires forall s :: s in buf.syncs && buf'.base <= s ==> s in buf'.syncs
    requires enc.Ok(buf.ring) && ChainOk(buf, enc) && (held ==> HeadersOk(buf, enc))
    requires Ready(buf, enc, wire, at, sent, held, cfg, consumed) && ErasedOk(buf, erased) && AnchorOk(buf, p)
    ensures enc.Ok(buf'.ring) && ChainOk(buf', enc) && (held ==> HeadersOk(buf', enc))
    ensures Ready(buf', enc, wire, at, sent, held, cfg, consumed) && ErasedOk(buf', erased) && AnchorOk(buf', p)
  {
    hide Encoder.Ok, ChainOk, HeadersOk, SessionsCost, Received, Includes, AtStart;
    SuffixKept(buf, buf', enc, held, n);
    assert forall i :: 0 <= i < |buf'.ring| ==> buf'.ring[i] == buf.ring[i + n];
    assert forall num: nat :: buf'.Has(num) ==> buf.Has(num) && buf'.At(num) == buf.At(num);
    AtStartKept(buf, buf', wire, at, sent);
  }

  /** Without the oldest messages, the encoder's records are right for the rest. */
  lemma SuffixKept(buf: Buffer, buf': Buffer, enc: Encoder, held: bool, n: nat)
    requires n <= |buf.ring| && buf'.ring == buf.ring[n..] && buf'.next == buf.next
    requires enc.Ok(buf.ring) && ChainOk(buf, enc) && (held ==> HeadersOk(buf, enc))
    ensures enc.Ok(buf'.ring) && ChainOk(buf', enc) && (held ==> HeadersOk(buf', enc))
  {
    hide SessionsCost, InEffect, MapOf, AllNumsBelow, After;
    forall i | 0 <= i < |buf'.ring| ensures buf'.ring[i] == buf.ring[i + n] {
    }
    assert buf'.ring != [] ==> buf'.ring[|buf'.ring| - 1] == buf.ring[|buf.ring| - 1];
  }

  lemma AtStartKept(buf: Buffer, buf': Buffer, wire: Wire, at: Cursor, sent: seq<OutMsg>)
    requires buf.Has(at.num) && buf'.base <= at.num ==> buf'.Has(at.num) && buf'.At(at.num) == buf.At(at.num)
    ensures AtStart(buf, wire, at, sent) && buf'.base <= at.num ==> AtStart(buf', wire, at, sent)
  {
    hide AllBefore, NoLaterThan;
  }

  /** The index without its first entry, if the oldest message is it, indexes the rest. */
  lemma IndexesRest(syncs: seq<nat>, ring: seq<Entry>, base: nat, rest: seq<nat>)
    requires Indexes(syncs, ring, base) && ring != []
    requires rest == if syncs != [] && syncs[0] == base then syncs[1..] else syncs
    ensures Indexes(rest, ring[1..], base + 1)
    ensures forall s :: s in syncs && base + 1 <= s ==> s in rest
  {
    assert forall s :: s in syncs ==> s == base || s in rest;
    if base in syncs {
      assert syncs[0] in syncs;
    }
    forall i | 0 <= i < |ring[1..]| && ring[1..][i].sync ensures base + 1 + i in rest {
      assert ring[i + 1].sync && base + (i + 1) in syncs;
    }
    forall s | s in rest ensures base + 1 <= s < base + |ring| && ring[1..][s - base - 1].sync {
      assert s in syncs;
      if rest == syncs {
        assert s != base;
      } else {
        var j :| 0 <= j < |rest| && rest[j] == s;
        assert syncs[0] < syncs[j + 1];
      }
    }
  }

  lemma ContiguousRest(ring: seq<Entry>, base: nat)
    requires Contiguous(ring, base) && ring != []
    ensures Contiguous(ring[1..], base + 1)
  {
    forall i | 0 <= i < |ring[1..]| ensures ring[1..][i] == ring[i + 1] {
    }
  }

  /** Popping the oldest message keeps the buffer in order. */
  lemma PopOk(buf: Buffer, clock: Time, syncs: seq<nat>)
    requires buf.Ok(clock) && buf.ring != []
    requires syncs == if buf.syncs != [] && buf.syncs[0] == buf.base then buf.syncs[1..] else buf.syncs
    ensures Cost(buf.ring[0].payload.size) <= buf.bytes
    ensures var buf' := buf.(ring := buf.ring[1..], syncs := syncs, base := buf.base + 1,
                             bytes := buf.bytes - Cost(buf.ring[0].payload.size));
            buf'.Ok(clock)
    ensures forall s :: s in buf.syncs && buf.base + 1 <= s ==> s in syncs
  {
    hide Contiguous, Indexes;
    IndexesRest(buf.syncs, buf.ring, buf.base, syncs);
    ContiguousRest(buf.ring, buf.base);
  }

  ghost predicate NoneReplacedIn(headers: seq<HeaderRec>, base: nat) {
    forall i, j :: 0 <= i < j < |headers| && headers[i].track == headers[j].track ==> base <= headers[j].num
  }

  /** No configuration is kept that a later one replaces for all from message `base` on. */
  ghost predicate NoneReplaced(sessions: seq<Session>, base: nat) {
    forall i :: 0 <= i < |sessions| ==> NoneReplacedIn(sessions[i].headers, base)
  }

  /** No session but the last one is from before the oldest message. */
  ghost predicate NoneStale(sessions: seq<Session>, ring: seq<Entry>) {
    ring != [] ==> forall i :: 0 <= i < |sessions| - 1 ==> ring[0].session <= sessions[i].id
  }

  /** The sessions from the first that is not stale on. */
  lemma {:induction false} NoneStaleFrom(sessions: seq<Session>, oldest: nat, n: nat)
    requires n == Stale(sessions, oldest) && forall i, j :: 0 <= i < j < |sessions| ==> sessions[i].id < sessions[j].id
    ensures n <= |sessions| && forall i :: n <= i < |sessions| - 1 ==> oldest <= sessions[i].id
  {
    if 0 < n {
      NoneStaleFrom(sessions[1..], oldest, n - 1);
      forall i | n <= i < |sessions| - 1 ensures oldest <= sessions[i].id {
        assert sessions[i] == sessions[1..][i - 1];
      }
    }
  }

  /** Without those that are stale, only sessions that are needed are left. */
  lemma LeavesTidy(enc: Encoder, ring: seq<Entry>, base: nat, n: nat)
    requires enc.Ok(ring) && ring != [] && n == Stale(enc.sessions, ring[0].session) && n <= |enc.sessions|
    requires NoneReplaced(enc.sessions, base)
    ensures NoneStale(enc.sessions[n..], ring) && NoneReplaced(enc.sessions[n..], base)
  {
    hide NoneReplacedIn, SessionsCost;
    NoneStaleFrom(enc.sessions, ring[0].session, n);
  }

  ghost predicate PrunedSession(s: Session, s': Session, base: nat) {
    && s' == s.(headers := s'.headers)
    && SameFrom(s.headers, s'.headers, base)
    && |s'.headers| <= |s.headers|
    && HeadersCost(s'.headers) <= HeadersCost(s.headers)
  }

  /** Sessions with configuration forgotten that nothing buffered needs. */
  ghost predicate Pruned(enc: Encoder, enc': Encoder, base: nat) {
    && enc' == enc.(sessions := enc'.sessions, bytes := SessionsCost(enc'.sessions))
    && |enc'.sessions| == |enc.sessions|
    && forall j :: 0 <= j < |enc.sessions| ==> PrunedSession(enc.sessions[j], enc'.sessions[j], base)
  }

  /** How many sessions come before session `oldest`, not counting the current one. */
  function Stale(sessions: seq<Session>, oldest: nat): nat {
    if |sessions| < 2 || oldest <= sessions[0].id then 0 else 1 + Stale(sessions[1..], oldest)
  }

  /** `sessions'` are the sessions but for the first `n`, their configuration pruned. */
  ghost predicate PrunedFrom(sessions: seq<Session>, sessions': seq<Session>, base: nat, n: nat) {
    && |sessions'| + n == |sessions|
    && forall j :: 0 <= j < |sessions'| ==> PrunedSession(sessions[j + n], sessions'[j], base)
  }

  /** Pruned sessions cost no more. */
  lemma {:induction false} PrunedCheaper(a: seq<Session>, b: seq<Session>, base: nat)
    requires PrunedFrom(a, b, base, 0)
    ensures SessionsCost(b) <= SessionsCost(a)
    decreases |a|
  {
    if a != [] {
      assert PrunedSession(a[0], b[0], base);
      forall j | 0 <= j < |b[1..]| ensures PrunedSession(a[1..][j], b[1..][j], base) {
        assert PrunedSession(a[j + 1], b[j + 1], base);
      }
      PrunedCheaper(a[1..], b[1..], base);
    }
  }

  /** Forgetting configuration and old sessions leaves a lighter encoder state. */
  lemma PrunedLighter(enc: Encoder, enc': Encoder, base: nat, n: nat)
    requires PrunedFrom(enc.sessions, enc'.sessions, base, n) && (enc.sessions != [] ==> n < |enc.sessions|)
    requires enc'.active == enc.active && enc'.cfg == enc.cfg && enc'.began == enc.began
    requires enc.bytes == SessionsCost(enc.sessions) && enc'.bytes == SessionsCost(enc'.sessions)
    ensures Lighter(enc, enc') && enc'.bytes <= enc.bytes
  {
    hide SameFrom, HeadersCost;
    var kept := enc.sessions[n..];
    assert PrunedFrom(kept, enc'.sessions, base, 0);
    PrunedCheaper(kept, enc'.sessions, base);
    SessionsCostSuffix(enc.sessions, n);
    if enc.sessions != [] {
      assert PrunedSession(enc.Last(), enc'.Last(), base);
    }
  }

  lemma RingCostSuffix(ring: seq<Entry>, n: nat)
    requires n <= |ring|
    ensures RingCost(ring[n..]) <= RingCost(ring)
  {
    assert ring == ring[..n] + ring[n..];
    RingCostConcat(ring[..n], ring[n..]);
  }

  /** The newest keyframe arrived by `t` is at or after a keyframe exactly if that arrived by then. */
  lemma OldEnough(buf: Buffer, clock: Time, k: nat, t: int)
    requires buf.Ok(clock) && k in buf.syncs && buf.Has(k)
    ensures var newest := buf.NewestArrivedBy(t);
      (newest.Some? && k <= newest.value) <==> buf.At(k).arrival <= t
  {
    hide RingCost, Contiguous, Indexes;
    IndexIncreases(buf.syncs, buf.ring, buf.base) by { SyncsIndex(buf, clock); }
    var newest := buf.NewestArrivedBy(t);
    if newest.Some? && k <= newest.value {
      SyncKnown(buf, clock, newest.value);
      ArrivedInOrder(buf, clock, k, newest.value);
    }
  }

  lemma SyncsIndex(buf: Buffer, clock: Time)
    requires buf.Ok(clock)
    ensures Indexes(buf.syncs, buf.ring, buf.base)
  {
  }

  lemma ArrivedInOrder(buf: Buffer, clock: Time, n: nat, k: nat)
    requires buf.Ok(clock) && buf.Has(n) && buf.Has(k) && n <= k
    ensures buf.At(n).arrival <= buf.At(k).arrival
  {
  }

  lemma SyncStayed(buf: Buffer, buf': Buffer, k: nat, clock: Time)
    requires buf.Ok(clock) && buf'.Ok(clock) && Shrunk(buf, buf') && k in buf'.syncs
    ensures k in buf.syncs && buf'.Has(k) && buf.Has(k) && buf.At(k) == buf'.At(k)
  {
    hide Contiguous, RingCost;
    SyncKnown(buf', clock, k);
    assert buf.ring[k - buf.base] == buf'.ring[k - buf'.base];
  }

  /** Without keyframes in the index, no message is one. */
  lemma NoSyncs(buf: Buffer, clock: Time, n: nat)
    requires buf.Ok(clock) && buf.syncs == [] && buf.Has(n)
    ensures !buf.At(n).sync
  {
  }

  lemma StaysIndexed(buf: Buffer, buf': Buffer, k: nat, clock: Time)
    requires buf.Ok(clock) && buf'.Ok(clock) && Shrunk(buf, buf') && k in buf.syncs && buf'.base <= k
    ensures k in buf'.syncs && Increasing(buf'.syncs)
  {
    hide Contiguous, RingCost;
    SyncKnown(buf, clock, k);
    assert buf'.ring[k - buf'.base] == buf.ring[k - buf.base];
  }

  /** A group that goes although a reconnect needs it is the first of all that is needed. */
  lemma LostIsNeeded(buf: Buffer, buf': Buffer, enc: Encoder, enc': Encoder, at: Cursor, plan: Plan, clock: Time)
    requires buf.Ok(clock) && buf'.Ok(clock) && Shrunk(buf, buf') && buf'.ring != [] && enc'.bytes <= enc.bytes
    requires plan.started && buf.SyncAtOrBefore(at.num).Some? ==>
               var k := buf.SyncAtOrBefore(at.num).value;
               && buf'.base <= Max(buf.base, k)
               && (buf'.FirstFrom(buf'.base + 1).None? || k < buf'.FirstFrom(buf'.base + 1).value)
    ensures buf'.bytes + enc'.bytes <= Needed(buf, enc, at, plan)
  {
    hide Contiguous, Indexes, RingCost;
    RingCostSuffix(buf.ring, buf'.base - buf.base);
    var k := buf.SyncAtOrBefore(at.num);
    if plan.started && k.Some? {
      SyncKnown(buf, clock, k.value);
      StaysIndexed(buf, buf', k.value, clock);
    }
  }

  lemma LighterKnown(a: Encoder, b: Encoder)
    requires Lighter(a, b) && a.active && a.sessions != []
    ensures b.active && b.sessions != [] && |b.Last().headers| <= |a.Last().headers|
    ensures HeadersCost(b.Last().headers) <= HeadersCost(a.Last().headers)
  {
  }

  lemma LighterRefl(a: Encoder)
    ensures Lighter(a, a)
  {
  }

  lemma LighterTrans(a: Encoder, b: Encoder, c: Encoder)
    requires Lighter(a, b) && Lighter(b, c)
    ensures Lighter(a, c)
  {
  }

  lemma {:induction false} StaleSame(a: seq<Session>, b: seq<Session>, oldest: nat, base: nat)
    requires PrunedFrom(a, b, base, 0)
    ensures Stale(a, oldest) == Stale(b, oldest)
    decreases |a|
  {
    if 2 <= |a| {
      assert PrunedSession(a[0], b[0], base);
      forall j | 0 <= j < |b[1..]| ensures PrunedSession(a[1..][j], b[1..][j], base) {
        assert PrunedSession(a[j + 1], b[j + 1], base);
      }
      StaleSame(a[1..], b[1..], oldest, base);
    }
  }

  lemma {:induction false} StaleKnown(sessions: seq<Session>, oldest: nat)
    ensures Stale(sessions, oldest) == 0 || Stale(sessions, oldest) < |sessions|
    ensures forall j :: 0 <= j < Stale(sessions, oldest) ==> sessions[j].id < oldest
  {
    if 2 <= |sessions| && sessions[0].id < oldest {
      StaleKnown(sessions[1..], oldest);
      forall j | 0 < j < Stale(sessions, oldest) ensures sessions[j].id < oldest {
        assert sessions[j] == sessions[1..][j - 1];
      }
    }
  }

  lemma SameFromRefl(a: seq<HeaderRec>, base: nat)
    ensures SameFrom(a, a, base)
  {
  }

  lemma SameFromTrans(a: seq<HeaderRec>, b: seq<HeaderRec>, c: seq<HeaderRec>, base: nat)
    requires SameFrom(a, b, base) && SameFrom(b, c, base)
    ensures SameFrom(a, c, base)
  {
  }

  lemma PrunedHeadersOk(buf: Buffer, enc: Encoder, enc': Encoder, clock: Time)
    requires Pruned(enc, enc', buf.base) && buf.Ok(clock) && HeadersOk(buf, enc)
    ensures HeadersOk(buf, enc')
  {
    hide MapOf, InEffect, AllNumsBelow, Indexes, RingCost;
    forall i, j | 0 <= i < |buf.ring| && 0 <= j < |enc'.sessions| && enc'.sessions[j].id == buf.ring[i].session
      ensures InEffect(enc'.sessions[j].headers, buf.ring[i].num) == buf.ring[i].cfg
    {
      assert PrunedSession(enc.sessions[j], enc'.sessions[j], buf.base);
    }
    if enc.active && enc.sessions != [] {
      assert PrunedSession(enc.Last(), enc'.Last(), buf.base);
    }
  }

  lemma PrunedOk(buf: Buffer, enc: Encoder, enc': Encoder, wire: Wire, at: Cursor, sent: seq<OutMsg>, held: bool,
                 cfg: map<Track, Payload>, consumed: seq<Consumed>, clock: Time)
    requires Pruned(enc, enc', buf.base) && buf.Ok(clock)
    requires enc.Ok(buf.ring) && ChainOk(buf, enc) && (held ==> HeadersOk(buf, enc))
    requires Ready(buf, enc, wire, at, sent, held, cfg, consumed)
    ensures enc'.Ok(buf.ring) && ChainOk(buf, enc') && (held ==> HeadersOk(buf, enc'))
    ensures Ready(buf, enc', wire, at, sent, held, cfg, consumed)
  {
    hide SameFrom, HeadersOk, Buffer.Ok, HeadersCost, SessionsCost, AtStart, Continuing, Includes, Received;
    if held {
      PrunedHeadersOk(buf, enc, enc', clock);
    }
    assert forall j :: 0 <= j < |enc.sessions| ==> PrunedSession(enc.sessions[j], enc'.sessions[j], buf.base);
    forall i | 0 <= i < |buf.ring| ensures HasSession(enc'.sessions, buf.ring[i].session) {
      assert HasSession(enc.sessions, buf.ring[i].session);
      var j :| 0 <= j < |enc.sessions| && enc.sessions[j].id == buf.ring[i].session;
      assert enc'.sessions[j].id == buf.ring[i].session;
    }
  }

  /** Dropping the oldest sessions, none of them buffered or the current one. */
  lemma FewerSessionsOk(buf: Buffer, enc: Encoder, enc': Encoder, wire: Wire, at: Cursor, sent: seq<OutMsg>, held: bool,
                        cfg: map<Track, Payload>, consumed: seq<Consumed>, clock: Time, n: nat)
    requires n < |enc.sessions|
    requires enc' == enc.(sessions := enc.sessions[n..], bytes := SessionsCost(enc.sessions[n..]))
    requires buf.Ok(clock) && buf.ring != []
    requires forall j :: 0 <= j < n ==> enc.sessions[j].id < buf.ring[0].session
    requires enc.Ok(buf.ring) && ChainOk(buf, enc) && (held ==> HeadersOk(buf, enc))
    requires Ready(buf, enc, wire, at, sent, held, cfg, consumed)
    ensures enc'.Ok(buf.ring) && ChainOk(buf, enc') && (held ==> HeadersOk(buf, enc'))
    ensures Ready(buf, enc', wire, at, sent, held, cfg, consumed)
  {
    FewerSessionsCost(buf, enc, enc', clock, n);
    assert enc'.Last() == enc.Last();
    hide Encoder.Ok, Contiguous, Indexes, RingCost, SessionsCost, InEffect, MapOf, AllNumsBelow;
    forall i, j | held && 0 <= i < |buf.ring| && 0 <= j < |enc'.sessions| && enc'.sessions[j].id == buf.ring[i].session
      ensures InEffect(enc'.sessions[j].headers, buf.ring[i].num) == buf.ring[i].cfg
    {
      assert enc'.sessions[j] == enc.sessions[j + n];
    }
  }

  lemma FewerLighter(enc: Encoder, enc': Encoder, n: nat)
    requires n < |enc.sessions| && enc'.bytes == SessionsCost(enc.sessions[n..])
    requires enc' == enc.(sessions := enc.sessions[n..], bytes := enc'.bytes)
    ensures Lighter(enc, enc')
  {
  }

  lemma FewerSessionsCost(buf: Buffer, enc: Encoder, enc': Encoder, clock: Time, n: nat)
    requires n < |enc.sessions|
    requires enc' == enc.(sessions := enc.sessions[n..], bytes := SessionsCost(enc.sessions[n..]))
    requires buf.Ok(clock) && buf.ring != []
    requires forall j :: 0 <= j < n ==> enc.sessions[j].id < buf.ring[0].session
    requires enc.Ok(buf.ring)
    ensures enc'.Ok(buf.ring)
  {
    hide Indexes, RingCost, SessionsCost;
    forall i | 0 <= i < |buf.ring| ensures HasSession(enc'.sessions, buf.ring[i].session) {
      assert HasSession(enc.sessions, buf.ring[i].session);
      var j :| 0 <= j < |enc.sessions| && enc.sessions[j].id == buf.ring[i].session;
      assert enc'.sessions[j - n].id == buf.ring[i].session;
    }
  }

  /** The oldest message popped: the buffer's order and everything relied on stay. */
  lemma FrontPopped(buf: Buffer, buf': Buffer, enc: Encoder, wire: Wire, at: Cursor, sent: seq<OutMsg>, held: bool,
                    cfg: map<Track, Payload>, consumed: seq<Consumed>, erased: set<nat>, p: Pending, clock: Time)
    requires buf.Ok(clock) && buf.ring != []
    requires buf' == buf.(ring := buf.ring[1..], base := buf.base + 1, bytes := buf'.bytes,
                          syncs := if buf.syncs != [] && buf.syncs[0] == buf.base then buf.syncs[1..] else buf.syncs)
    requires buf'.bytes == buf.bytes - Cost(buf.ring[0].payload.size)
    requires enc.Ok(buf.ring) && ChainOk(buf, enc) && (held ==> HeadersOk(buf, enc))
    requires Ready(buf, enc, wire, at, sent, held, cfg, consumed) && ErasedOk(buf, erased) && AnchorOk(buf, p)
    ensures buf'.Ok(clock)
    ensures enc.Ok(buf'.ring) && ChainOk(buf', enc) && (held ==> HeadersOk(buf', enc))
    ensures Ready(buf', enc, wire, at, sent, held, cfg, consumed) && ErasedOk(buf', erased) && AnchorOk(buf', p)
  {
    hide HeadersOk, ChainOk, Ready, ErasedOk, Buffer.Ok, Encoder.Ok;
    PopOk(buf, clock, buf'.syncs);
    SuffixOk(buf, buf', enc, wire, at, sent, held, cfg, consumed, erased, p, 1);
  }

  lemma BytesKnown(buf: Buffer, enc: Encoder)
    requires enc.Ok(buf.ring)
    ensures enc.bytes == SessionsCost(enc.sessions) && (enc.active ==> enc.sessions != [])
  {
  }

  lemma FrontKnown(buf: Buffer, clock: Time)
    requires buf.Ok(clock) && buf.ring != []
    ensures buf.ring[0].num == buf.base && buf.base < buf.next && buf.next == buf.base + |buf.ring|
    ensures Cost(buf.ring[0].payload.size) <= buf.bytes
    ensures buf.ring[0].arrival <= clock
    ensures forall n: nat :: buf.Has(n) ==> buf.ring[0].arrival <= buf.At(n).arrival
  {
  }

  lemma EmptyKnown(buf: Buffer, clock: Time)
    requires buf.Ok(clock)
    ensures buf.next == buf.base + |buf.ring|
    ensures buf.ring == [] ==> buf.syncs == [] && buf.bytes == 0
  {
    assert buf.syncs != [] ==> buf.syncs[0] in buf.syncs;
  }

  lemma ShrunkRefl(a: Buffer, clock: Time)
    requires a.Ok(clock)
    ensures Shrunk(a, a)
  {
  }

  lemma ShrunkTrans(a: Buffer, b: Buffer, c: Buffer)
    requires Shrunk(a, b) && Shrunk(b, c)
    ensures Shrunk(a, c)
  {
  }

  lemma CursorSession(buf: Buffer, enc: Encoder, clock: Time, num: nat)
    requires buf.Ok(clock) && enc.Ok(buf.ring) && buf.Has(num)
    ensures enc.sessions != []
    ensures forall n: nat :: num <= n && buf.Has(n) ==> buf.At(num).session <= buf.At(n).session
    ensures forall n: nat :: n <= num && buf.Has(n) ==> buf.At(n).session <= buf.At(num).session
  {
    assert HasSession(enc.sessions, buf.ring[num - buf.base].session);
  }

  lemma PolledTrans(w0: Wire, w1: Wire, w2: Wire, l0: Ledger, l1: Ledger, l2: Ledger,
                    s0: seq<OutMsg>, s1: seq<OutMsg>, s2: seq<OutMsg>, now: Time, endMark: Option<nat>)
    requires Polled(w0, w1, l0, l1, s0, s1, now, endMark) && Polled(w1, w2, l1, l2, s1, s2, now, endMark)
    ensures Polled(w0, w2, l0, l2, s0, s2, now, endMark)
  {
  }

  lemma NothingPolled(wire: Wire, log: Ledger, sent: seq<OutMsg>, now: Time, endMark: Option<nat>)
    ensures Polled(wire, wire, log, log, sent, sent, now, endMark)
  {
  }

  lemma PolledKeeps(wire: Wire, wire': Wire, log: Ledger, log': Ledger, sent: seq<OutMsg>, sent': seq<OutMsg>,
                    now: Time, endMark: Option<nat>)
    requires Polled(wire, wire', log, log', sent, sent', now, endMark)
    ensures sent <= sent' && |sent| <= |sent'| && AllMaySend(sent', |sent|, now, log'.floor, log'.erased, endMark)
    ensures log.consumed <= log'.consumed
    ensures log' == log.(cursorCfg := log'.cursorCfg, consumed := log'.consumed)
    ensures wire'.connected == wire.connected && wire'.generation == wire.generation && wire'.epoch == wire.epoch
  {
  }

  // ----- what arrives ---------------------------------------------------------------

  /** The buffer with one more message at its end. */
  function Appended(buf: Buffer, e: Entry): Buffer {
    Buffer(buf.ring + [e], if e.sync then buf.syncs + [e.num] else buf.syncs, buf.base, buf.next + 1,
           buf.bytes + Cost(e.payload.size), buf.nextId + 1)
  }

  lemma AppendedFirst(buf: Buffer, buf': Buffer, e: Entry)
    requires buf' == Appended(buf, e)
    ensures buf'.ring != [] && buf'.ring[0] == if buf.ring == [] then e else buf.ring[0]
  {
  }

  /** A keyframe that arrives moves the point to restart from no further back. */
  lemma RestartsLater(buf: Buffer, e: Entry, num: nat, clock: Time)
    requires buf.Ok(clock) && e.num == buf.next && num <= buf.next
    ensures var before, after := buf.SyncAtOrBefore(num), Appended(buf, e).SyncAtOrBefore(num);
      (if before.Some? then before.value else num) <= (if after.Some? then after.value else num)
  {
    hide Contiguous, RingCost;
    if e.sync {
      assert forall s :: s in buf.syncs ==> s in buf.syncs + [e.num];
      IndexesMore(buf.syncs, buf.ring, buf.base, e);
    }
  }

  /** A message that comes adds at most what it takes. */
  lemma NeededAppended(buf: Buffer, e: Entry, enc: Encoder, enc': Encoder, at: Cursor, plan: Plan, clock: Time)
    requires buf.Ok(clock) && e.num == buf.next
    ensures Needed(Appended(buf, e), enc', at, plan) + enc.bytes
         <= Needed(buf, enc, at, plan) + enc'.bytes + Cost(e.payload.size)
  {
    hide Buffer.Ok, Buffer.SyncAtOrBefore, BytesFrom;
    SyncAppended(buf, e, at.num, clock);
    EmptyKnown(buf, clock);
    BytesAppended(buf, e, buf.SyncAtOrBefore(at.num));
  }

  lemma BytesAppended(buf: Buffer, e: Entry, k: Option<nat>)
    requires e.num == buf.next == buf.base + |buf.ring|
    ensures k != Some(e.num) ==> BytesFrom(Appended(buf, e), k) <= BytesFrom(buf, k) + Cost(e.payload.size)
    ensures BytesFrom(Appended(buf, e), Some(e.num)) == Cost(e.payload.size)
    ensures Appended(buf, e).bytes == buf.bytes + Cost(e.payload.size)
  {
    hide RingCost;
    var buf' := Appended(buf, e);
    if k.Some? && buf.Has(k.value) {
      var n := k.value - buf.base;
      assert buf'.ring[n..] == buf.ring[n..] + [e];
      RingCostMore(buf.ring[n..], e);
    }
    assert buf'.ring[|buf.ring|..] == [e];
    RingCostOne(e);
  }

  lemma RingCostOne(e: Entry)
    ensures RingCost([e]) == Cost(e.payload.size)
  {
    assert [e][1..] == [] && RingCost([]) == 0;
  }

  /** The newest keyframe up to a number is the one before, or the message that came. */
  lemma SyncAppended(buf: Buffer, e: Entry, num: nat, clock: Time)
    requires buf.Ok(clock) && e.num == buf.next
    ensures var k, k' := buf.SyncAtOrBefore(num), Appended(buf, e).SyncAtOrBefore(num);
      k' == k || k' == Some(e.num)
  {
    hide Contiguous, RingCost;
    if e.sync {
      assert forall s :: s in buf.syncs ==> s in buf.syncs + [e.num];
      IndexesMore(buf.syncs, buf.ring, buf.base, e);
    }
  }

  lemma AppendedOk(buf: Buffer, e: Entry, clock: Time)
    requires buf.Ok(clock) && e.num == buf.next && e.id == buf.nextId && e.arrival == clock
    requires e.sync ==> e.config.None?
    requires forall i :: 0 <= i < |buf.ring| ==> buf.ring[i].session <= e.session
    ensures Appended(buf, e).Ok(clock)
  {
    hide Contiguous, Indexes, RingCost;
    LastIsLatest(buf, clock);
    RingCostMore(buf.ring, e);
    IndexesMore(buf.syncs, buf.ring, buf.base, e);
    ContiguousMore(buf.ring, buf.base, e);
  }

  lemma RingCostMore(ring: seq<Entry>, e: Entry)
    ensures RingCost(ring + [e]) == RingCost(ring) + Cost(e.payload.size)
  {
    RingCostConcat(ring, [e]);
    assert RingCost([e]) == Cost(e.payload.size) + RingCost([]);
  }

  lemma ContiguousMore(ring: seq<Entry>, base: nat, e: Entry)
    requires Contiguous(ring, base) && e.num == base + |ring| && (e.sync ==> e.config.None?)
    requires forall i :: 0 <= i < |ring| ==>
               ring[i].arrival <= e.arrival && ring[i].session <= e.session && ring[i].id < e.id
    ensures Contiguous(ring + [e], base)
  {
  }

  lemma LastIsLatest(buf: Buffer, clock: Time)
    requires buf.Ok(clock)
    ensures forall i :: 0 <= i < |buf.ring| ==> buf.ring[i].arrival <= clock && buf.ring[i].id < buf.nextId
  {
    forall i | 0 <= i < |buf.ring| ensures buf.ring[i].arrival <= clock && buf.ring[i].id < buf.nextId {
      var last := buf.ring[|buf.ring| - 1];
      assert buf.ring[i].arrival <= last.arrival && (buf.ring[i] == last || buf.ring[i].id < last.id);
    }
  }

  lemma IndexesMore(syncs: seq<nat>, ring: seq<Entry>, base: nat, e: Entry)
    requires Indexes(syncs, ring, base)
    ensures Indexes(if e.sync then syncs + [base + |ring|] else syncs, ring + [e], base)
  {
    if e.sync {
      IndexesAdded(syncs, ring, base, e);
    } else {
      assert forall i :: 0 <= i < |ring| ==> (ring + [e])[i] == ring[i];
    }
  }

  lemma IndexesAdded(syncs: seq<nat>, ring: seq<Entry>, base: nat, e: Entry)
    requires Indexes(syncs, ring, base) && e.sync
    ensures Indexes(syncs + [base + |ring|], ring + [e], base)
  {
    var r, ring' := syncs + [base + |ring|], ring + [e];
    IncreasingMore(syncs, base + |ring|);
    hide Increasing;
    forall s | s in r ensures base <= s < base + |ring'| && ring'[s - base].sync {
      assert s in syncs || s == base + |ring|;
    }
    forall i | 0 <= i < |ring'| && ring'[i].sync ensures base + i in r {
      if i < |ring| {
        IsMember(syncs, [base + |ring|], base + i);
      } else {
        assert r[|syncs|] == base + i;
      }
    }
  }

  lemma IsMember(a: seq<nat>, b: seq<nat>, x: nat)
    requires x in a
    ensures x in a + b
  {
    var k :| 0 <= k < |a| && a[k] == x;
    assert (a + b)[k] == x;
  }

  /** A message appended with the encoder's configuration, and what follows it. */
  lemma AppendedKept(buf: Buffer, e: Entry, enc: Encoder, enc': Encoder, wire: Wire, at: Cursor, sent: seq<OutMsg>,
                     held: bool, held': bool, cfg: map<Track, Payload>, consumed: seq<Consumed>, erased: set<nat>,
                     p: Pending, clock: Time)
    requires buf.Ok(clock) && e.num == buf.next && e.id == buf.nextId
    requires enc.Ok(buf.ring) && ChainOk(buf, enc) && enc.active
    requires e.session == enc.Last().id && e.cfg == enc.cfg
    requires enc'.active && |enc'.sessions| == |enc.sessions| && enc'.Last().id == enc.Last().id
    requires enc'.cfg == After(e)
    requires held' ==> held
    requires Ready(buf, enc, wire, at, sent, held, cfg, consumed) && ErasedOk(buf, erased) && AnchorOk(buf, p)
    requires at.num <= buf.next
    ensures ChainOk(Appended(buf, e), enc')
    ensures Ready(Appended(buf, e), enc', wire, at, sent, held', cfg, consumed)
    ensures ErasedOk(Appended(buf, e), erased) && AnchorOk(Appended(buf, e), p)
  {
    hide Contiguous, Indexes, RingCost;
    var buf' := Appended(buf, e);
    assert forall n: nat :: buf.Has(n) ==> buf'.Has(n) && buf'.At(n) == buf.At(n);
    assert forall n: nat :: buf'.Has(n) && !buf.Has(n) ==> buf'.At(n) == e;
  }

  /** What a session keeps once `e` has come: a changed configuration is added, an
      unchanged one is not. */
  predicate Noted(h: seq<HeaderRec>, h': seq<HeaderRec>, e: Entry) {
    var track := Track(e.kind, if e.config.Some? then e.config.value else 0);
    || (e.config.Some? && h' == h + [HeaderRec(e.num, track, e.payload)])
    || (e.config.None? && h' == h)
    || (h' == h && track in e.cfg && e.cfg[track] == e.payload)
  }

  lemma NotedOk(h: seq<HeaderRec>, h': seq<HeaderRec>, e: Entry)
    requires Noted(h, h', e) && MapOf(h) == e.cfg && AllNumsBelow(h, e.num)
    ensures MapOf(h') == After(e) && AllNumsBelow(h', e.num + 1)
    ensures forall num: nat :: num <= e.num ==> InEffect(h', num) == InEffect(h, num)
    ensures InEffect(h', e.num) == e.cfg
  {
    hide MapOf, Before, InEffect;
    InEffectAfterAll(h, e.num);
    if h' != h {
      var r := h'[|h|];
      MapOfMore(h, r);
      forall num: nat | num <= e.num ensures InEffect(h', num) == InEffect(h, num) {
        LaterNotBefore(h, r, num);
      }
    }
  }

  lemma InEffectAfterAll(h: seq<HeaderRec>, num: nat)
    requires AllNumsBelow(h, num)
    ensures InEffect(h, num) == MapOf(h)
  {
    BeforeAll(h, num);
  }

  lemma MapOfMore(h: seq<HeaderRec>, r: HeaderRec)
    ensures MapOf(h + [r]) == MapOf(h)[r.track := r.payload]
  {
    assert (h + [r])[..|h|] == h;
  }

  /** The last session after a message: what it keeps of decoder configuration. */
  lemma HeadersAppended(buf: Buffer, e: Entry, enc: Encoder, enc': Encoder, s: Session, clock: Time)
    requires buf.Ok(clock) && enc.Ok(buf.ring) && HeadersOk(buf, enc) && enc.active
    requires e.num == buf.next && e.session == enc.Last().id && e.cfg == enc.cfg
    requires s.id == enc.Last().id && enc'.active
    requires enc'.sessions == enc.sessions[|enc.sessions| - 1 := s] && enc'.cfg == After(e)
    requires Noted(enc.Last().headers, s.headers, e)
    ensures HeadersOk(Appended(buf, e), enc')
  {
    hide Indexes, RingCost, SessionsCost, Noted, MapOf, InEffect, AllNumsBelow;
    NotedOk(enc.Last().headers, s.headers, e);
    var ring' := Appended(buf, e).ring;
    forall i, j | 0 <= i < |ring'| && 0 <= j < |enc'.sessions| && enc'.sessions[j].id == ring'[i].session
      ensures InEffect(enc'.sessions[j].headers, ring'[i].num) == ring'[i].cfg
    {
      if i < |buf.ring| {
        assert InEffect(enc.sessions[j].headers, buf.ring[i].num) == buf.ring[i].cfg;
      }
    }
  }

  lemma LaterNotBefore(headers: seq<HeaderRec>, r: HeaderRec, num: nat)
    requires num <= r.num
    ensures InEffect(headers + [r], num) == InEffect(headers, num)
  {
    assert (headers + [r])[..|headers|] == headers;
  }

  lemma AppendedGrows(buf: Buffer, e: Entry)
    ensures Appended(buf, e).next == buf.next + 1 && Appended(buf, e).nextId == buf.nextId + 1
    ensures Appended(buf, e).bytes == buf.bytes + Cost(e.payload.size)
  {
  }

  lemma AppendedSessions(buf: Buffer, enc: Encoder, enc': Encoder, e: Entry)
    requires enc.Ok(buf.ring) && enc.active && e.session == enc.Last().id
    requires |enc'.sessions| == |enc.sessions|
    requires forall j :: 0 <= j < |enc.sessions| ==> enc'.sessions[j].id == enc.sessions[j].id
    requires enc'.bytes == SessionsCost(enc'.sessions) && enc'.nextSession == enc.nextSession && 0 < enc'.interval
    ensures enc'.Ok(Appended(buf, e).ring)
  {
    var ring' := Appended(buf, e).ring;
    forall i | 0 <= i < |ring'| ensures HasSession(enc'.sessions, ring'[i].session) {
      if i < |buf.ring| {
        assert HasSession(enc.sessions, buf.ring[i].session);
        var j :| 0 <= j < |enc.sessions| && enc.sessions[j].id == buf.ring[i].session;
        assert enc'.sessions[j].id == ring'[i].session;
      } else {
        assert enc'.sessions[|enc.sessions| - 1].id == ring'[i].session;
      }
    }
  }

  /** Nothing buffered is of a later session than the last. */
  lemma LastSession(buf: Buffer, enc: Encoder, clock: Time)
    requires buf.Ok(clock) && enc.Ok(buf.ring)
    ensures buf.ring != [] || enc.active ==> enc.sessions != []
    ensures forall i :: 0 <= i < |buf.ring| ==> enc.sessions != [] && buf.ring[i].session <= enc.Last().id
    ensures HeadersOk(buf, enc) && enc.active ==> MapOf(enc.Last().headers) == enc.cfg
  {
    forall i | 0 <= i < |buf.ring| ensures enc.sessions != [] && buf.ring[i].session <= enc.Last().id {
      assert HasSession(enc.sessions, buf.ring[i].session);
    }
  }

  lemma HeldLess(wire: Wire, sent: seq<OutMsg>, took: seq<OutMsg>, held: bool, held': bool)
    requires WireOk(wire, sent, held) && TookOk(took, held) && (held' ==> held)
    ensures WireOk(wire, sent, held') && TookOk(took, held')
  {
  }

  // ----- encoder sessions -----------------------------------------------------------

  /** The sessions once a publisher connects: the last one goes if it has no messages. */
  function NewSession(buf: Buffer, enc: Encoder): Encoder {
    var sessions :=
      if enc.sessions != [] && (buf.ring == [] || buf.ring[|buf.ring| - 1].session != enc.Last().id)
      then enc.sessions[..|enc.sessions| - 1]
      else enc.sessions;
    var sessions' := sessions + [Session(enc.nextSession, [], None, false, None, 33)];
    Encoder(sessions', SessionsCost(sessions'), true, enc.nextSession + 1, 2 * SEC, 0, map[], buf.nextId)
  }

  /** An empty session more, and possibly one less. */
  lemma NewSessionCost(buf: Buffer, enc: Encoder)
    requires enc.bytes == SessionsCost(enc.sessions)
    ensures NewSession(buf, enc).bytes <= enc.bytes + Cost(0)
  {
    var enc' := NewSession(buf, enc);
    SessionsCostSplit(enc'.sessions);
    assert enc'.sessions[..|enc'.sessions| - 1] <= enc.sessions;
    if enc.sessions != [] {
      SessionsCostSplit(enc.sessions);
    }
  }

  lemma SessionsRise(ring: seq<Entry>, base: nat)
    requires Contiguous(ring, base)
    ensures forall i :: 0 <= i < |ring| ==> ring[i].session <= ring[|ring| - 1].session
  {
  }

  lemma NewSessionOk(buf: Buffer, enc: Encoder, clock: Time)
    requires buf.Ok(clock) && enc.Ok(buf.ring)
    ensures NewSession(buf, enc).Ok(buf.ring)
  {
    hide Indexes, RingCost, SessionsCost, HeadersOk, Contiguous, InEffect, MapOf, HasSession;
    SessionsRise(buf.ring, buf.base);
    LastSession(buf, enc, clock);
    var enc' := NewSession(buf, enc);
    forall i | 0 <= i < |buf.ring| ensures HasSession(enc'.sessions, buf.ring[i].session) {
      StillHasSession(enc.sessions, enc'.sessions, buf.ring[i].session);
    }
  }

  /** A session found before is found again, unless it was the last. */
  lemma StillHasSession(sessions: seq<Session>, sessions': seq<Session>, id: nat)
    requires HasSession(sessions, id)
    requires forall j :: 0 <= j < |sessions| - 1 ==> j < |sessions'| && sessions'[j] == sessions[j]
    requires sessions[|sessions| - 1].id != id || sessions <= sessions'
    ensures HasSession(sessions', id)
  {
    var j :| 0 <= j < |sessions| && sessions[j].id == id;
    assert sessions'[j].id == id;
  }

  lemma NewSessionKept(buf: Buffer, enc: Encoder, wire: Wire, at: Cursor, sent: seq<OutMsg>, held: bool,
                       cfg: map<Track, Payload>, consumed: seq<Consumed>, clock: Time)
    requires buf.Ok(clock) && enc.Ok(buf.ring) && ChainOk(buf, enc) && (held ==> HeadersOk(buf, enc))
    requires Ready(buf, enc, wire, at, sent, held, cfg, consumed)
    requires at.session.Some? ==> at.session.value < enc.nextSession
    ensures var enc' := NewSession(buf, enc);
            && ChainOk(buf, enc') && (held ==> HeadersOk(buf, enc'))
            && Ready(buf, enc', wire, at, sent, held, cfg, consumed)
  {
    hide Contiguous, Indexes, RingCost, SessionsCost;
    LastSession(buf, enc, clock);
    var enc' := NewSession(buf, enc);
    assert enc'.Last().id == enc.nextSession;
    forall i | 0 <= i < |buf.ring| ensures buf.ring[i].session < enc.nextSession {
      assert HasSession(enc.sessions, buf.ring[i].session);
    }
  }

  /** The publisher's metadata is kept with the current session. */
  lemma MetadataKept(buf: Buffer, enc: Encoder, enc': Encoder, wire: Wire, at: Cursor, sent: seq<OutMsg>, held: bool,
                     cfg: map<Track, Payload>, consumed: seq<Consumed>)
    requires enc.sessions != [] && enc.Ok(buf.ring) && ChainOk(buf, enc) && (held ==> HeadersOk(buf, enc))
    requires Ready(buf, enc, wire, at, sent, held, cfg, consumed)
    requires enc' == enc.(sessions := enc'.sessions, bytes := SessionsCost(enc'.sessions))
    requires |enc'.sessions| == |enc.sessions|
    requires forall j :: 0 <= j < |enc.sessions| ==>
               enc'.sessions[j].id == enc.sessions[j].id && enc'.sessions[j].headers == enc.sessions[j].headers
    ensures enc'.Ok(buf.ring) && ChainOk(buf, enc') && (held ==> HeadersOk(buf, enc'))
    ensures Ready(buf, enc', wire, at, sent, held, cfg, consumed)
  {
    forall i | 0 <= i < |buf.ring| ensures HasSession(enc'.sessions, buf.ring[i].session) {
      assert HasSession(enc.sessions, buf.ring[i].session);
      var j :| 0 <= j < |enc.sessions| && enc.sessions[j].id == buf.ring[i].session;
      assert enc'.sessions[j].id == buf.ring[i].session;
    }
  }

  lemma MetadataCost(enc: Encoder, enc': Encoder, metadata: Payload)
    requires enc.sessions != [] && enc.bytes == SessionsCost(enc.sessions)
    requires enc'.sessions == enc.sessions[|enc.sessions| - 1 := enc.Last().(metadata := Some(metadata))]
    requires enc' == enc.(sessions := enc'.sessions, bytes := SessionsCost(enc'.sessions))
    ensures Lighter(enc, enc') && enc'.bytes <= enc.bytes + metadata.size
  {
    SessionsCostSplit(enc.sessions);
    SessionsCostSplit(enc'.sessions);
    assert enc'.sessions[..|enc.sessions| - 1] == enc.sessions[..|enc.sessions| - 1];
  }

  lemma StoppedKept(buf: Buffer, enc: Encoder, wire: Wire, at: Cursor, sent: seq<OutMsg>, held: bool,
                    cfg: map<Track, Payload>, consumed: seq<Consumed>)
    requires enc.Ok(buf.ring) && ChainOk(buf, enc) && (held ==> HeadersOk(buf, enc))
    requires Ready(buf, enc, wire, at, sent, held, cfg, consumed)
    ensures var enc' := enc.(active := false);
            && enc'.Ok(buf.ring) && ChainOk(buf, enc') && (held ==> HeadersOk(buf, enc'))
            && Ready(buf, enc', wire, at, sent, held, cfg, consumed)
  {
  }

  // ----- throwing away --------------------------------------------------------------

  /** The buffer with nothing in it; numbering goes on. */
  function Emptied(buf: Buffer): Buffer { Buffer([], [], buf.next, buf.next, 0, buf.nextId) }

  /** The sessions once nothing is buffered: only the running one. */
  function OnlyRunning(enc: Encoder): Encoder {
    var sessions := if enc.active && enc.sessions != [] then [enc.Last()] else [];
    enc.(sessions := sessions, bytes := SessionsCost(sessions))
  }

  lemma OnlyRunningLighter(enc: Encoder)
    requires enc.bytes == SessionsCost(enc.sessions)
    ensures Lighter(enc, OnlyRunning(enc)) && OnlyRunning(enc).bytes <= enc.bytes
  {
    if enc.sessions != [] {
      assert enc.sessions[|enc.sessions| - 1..] == [enc.Last()];
      SessionsCostSuffix(enc.sessions, |enc.sessions| - 1);
    }
  }

  /** What is waiting from message `num` on. */
  function IdsFrom(buf: Buffer, num: nat): set<nat> {
    set i | 0 <= i < |buf.ring| && num <= buf.ring[i].num :: buf.ring[i].id
  }

  lemma EmptiedKnown(buf: Buffer)
    ensures Emptied(buf).ring == [] && Emptied(buf).syncs == [] && Emptied(buf).next == buf.next == Emptied(buf).base
    ensures Emptied(buf).nextId == buf.nextId && Emptied(buf).bytes == 0
  {
  }

  lemma EmptiedOk(buf: Buffer, enc: Encoder, held: bool, clock: Time, erased: set<nat>, num: nat, p: Pending)
    requires buf.Ok(clock) && enc.Ok(buf.ring) && (held ==> HeadersOk(buf, enc)) && ErasedOk(buf, erased)
    requires AnchorOk(buf, p)
    ensures Emptied(buf).Ok(clock) && OnlyRunning(enc).Ok([]) && ChainOk(Emptied(buf), OnlyRunning(enc))
    ensures held ==> HeadersOk(Emptied(buf), OnlyRunning(enc))
    ensures ErasedOk(Emptied(buf), erased + IdsFrom(buf, num)) && AnchorOk(Emptied(buf), p)
  {
    hide Encoder.Ok, HeadersOk, ChainOk, OnlyRunning;
    OnlyRunningOk(buf, enc, held);
    LastIsLatest(buf, clock);
  }

  lemma OnlyRunningOk(buf: Buffer, enc: Encoder, held: bool)
    requires enc.Ok(buf.ring) && (held ==> HeadersOk(buf, enc))
    ensures OnlyRunning(enc).Ok([]) && ChainOk(Emptied(buf), OnlyRunning(enc))
    ensures held ==> HeadersOk(Emptied(buf), OnlyRunning(enc))
  {
    hide SessionsCost, InEffect, AllNumsBelow, MapOf;
  }

  // ----- connections ----------------------------------------------------------------

  /** A new connection: nothing was sent on it. */
  function NewWire(wire: Wire): Wire {
    Wire(true, wire.generation + 1, wire.epoch + 1, true, 0, map[], 0, map[], None, None)
  }

  lemma NewWireOk(wire: Wire, sent: seq<OutMsg>, held: bool)
    requires WireOk(wire, sent, held)
    ensures WireOk(NewWire(wire), sent, held) && TookOk([], held)
  {
    NothingReceived(sent, wire.epoch + 1);
  }

  /** What the connection was sent may be lost: its configuration counts for nothing. */
  function Unsure(wire: Wire): Wire {
    wire.(sentHeaders := map[], sentMetadata := None, epoch := wire.epoch + 1)
  }

  lemma UnsureOk(wire: Wire, sent: seq<OutMsg>, held: bool)
    requires WireOk(wire, sent, held)
    ensures WireOk(Unsure(wire), sent, held)
    ensures WireOk(wire.(sentHeaders := map[], sentMetadata := None), sent, held)
  {
  }

  /** Losing what was sent matters only to a cursor that relied on it. */
  lemma UnsureReady(buf: Buffer, enc: Encoder, wire: Wire, wire': Wire, at: Cursor, sent: seq<OutMsg>, held: bool,
                    cfg: map<Track, Payload>, consumed: seq<Consumed>)
    requires Ready(buf, enc, wire, at, sent, held, cfg, consumed)
    requires wire' == Unsure(wire) || wire' == wire.(sentHeaders := map[], sentMetadata := None)
    requires at.needSync || at.pendingHeaders || wire'.epoch == wire.epoch
    ensures Ready(buf, enc, wire', at, sent, held, cfg, consumed)
  {
  }

  lemma DroppedOk(wire: Wire, sent: seq<OutMsg>, held: bool)
    requires WireOk(wire, sent, held)
    ensures WireOk(wire.(connected := false), sent, held)
  {
  }

  function IdsBelow(n: nat): (r: set<nat>)
    ensures forall x: nat :: x in r <==> x < n
  {
    if n == 0 then {} else IdsBelow(n - 1) + {n - 1}
  }

  lemma EmptiedErased(buf: Buffer, clock: Time, erased: set<nat>)
    requires ErasedOk(Emptied(buf), erased)
    ensures ErasedOk(Emptied(buf), IdsBelow(buf.nextId))
    ensures erased <= IdsBelow(buf.nextId)
  {
  }

  lemma EarlierErased(buf: Buffer, buf': Buffer, clock: Time, erased: set<nat>, bound: nat)
    requires buf.Ok(clock) && buf'.Ok(clock) && Shrunk(buf, buf') && ErasedOk(buf', erased)
    requires bound == if buf'.ring == [] then buf'.nextId else buf'.ring[0].id
    ensures ErasedOk(buf', erased + IdsBelow(bound))
    ensures forall i :: 0 <= i < |buf.ring| && buf.ring[i].num < buf'.base ==> buf.ring[i].id < bound
  {
    LastIsLatest(buf, clock);
    LastIsLatest(buf', clock);
    forall i | 0 <= i < |buf.ring| && buf.ring[i].num < buf'.base ensures buf.ring[i].id < bound {
      assert buf'.ring != [] ==> buf'.ring[0] == buf.ring[buf'.base - buf.base];
    }
  }

  // ----- a replay's cut -------------------------------------------------------------

  /** The numbers in `syncs` before `num`. */
  function SyncsBefore(syncs: seq<nat>, num: nat): (r: seq<nat>)
    ensures forall s :: s in r <==> s in syncs && s < num
    ensures Increasing(syncs) ==> Increasing(r)
  {
    if syncs == [] then []
    else
      var last := syncs[|syncs| - 1];
      var earlier := syncs[..|syncs| - 1];
      var rest := SyncsBefore(earlier, num);
      assert syncs == earlier + [last];
      IncreasingEnds(earlier, last);
      IncreasingMore(rest, last);
      if last < num then rest + [last] else rest
  }

  lemma IncreasingEnds(xs: seq<nat>, last: nat)
    ensures Increasing(xs + [last]) ==> Increasing(xs) && forall x :: x in xs ==> x < last
  {
    assert forall i :: 0 <= i < |xs| ==> (xs + [last])[i] == xs[i];
    assert (xs + [last])[|xs|] == last;
  }

  lemma IncreasingMore(xs: seq<nat>, last: nat)
    ensures Increasing(xs) && (forall x :: x in xs ==> x < last) ==> Increasing(xs + [last])
  {
    assert forall i :: 0 <= i < |xs| ==> xs[i] in xs;
  }

  /** The buffer with everything from message `cut` on taken off; numbering goes back. */
  function CutAt(buf: Buffer, cut: nat): Buffer
    requires buf.base <= cut <= buf.base + |buf.ring|
  {
    Buffer(buf.ring[..cut - buf.base], SyncsBefore(buf.syncs, cut), buf.base, cut,
           Monus(buf.bytes, RingCost(buf.ring[cut - buf.base..])), buf.nextId)
  }

  lemma CutContiguous(ring: seq<Entry>, base: nat, cut: nat)
    requires Contiguous(ring, base) && base <= cut <= base + |ring|
    ensures Contiguous(ring[..cut - base], base)
  {
  }

  lemma CutIndexes(syncs: seq<nat>, ring: seq<Entry>, base: nat, cut: nat)
    requires Indexes(syncs, ring, base) && base <= cut <= base + |ring|
    ensures Indexes(SyncsBefore(syncs, cut), ring[..cut - base], base)
  {
  }

  lemma CutOk(buf: Buffer, cut: nat, clock: Time)
    requires buf.Ok(clock) && buf.base <= cut <= buf.next
    ensures CutAt(buf, cut).Ok(clock)
  {
    hide Contiguous, Indexes, RingCost, SyncsBefore;
    LastIsLatest(buf, clock);
    CutContiguous(buf.ring, buf.base, cut);
    var keep := cut - buf.base;
    RingCostConcat(buf.ring[..keep], buf.ring[keep..]);
    assert buf.ring == buf.ring[..keep] + buf.ring[keep..];
    CutIndexes(buf.syncs, buf.ring, buf.base, cut);
  }

  lemma CutCost(buf: Buffer, cut: nat, clock: Time)
    requires buf.Ok(clock) && buf.base <= cut <= buf.next
    ensures CutAt(buf, cut).bytes <= buf.bytes
  {
    var n := cut - buf.base;
    assert buf.ring == buf.ring[..n] + buf.ring[n..];
    RingCostConcat(buf.ring[..n], buf.ring[n..]);
  }

  lemma CutErased(buf: Buffer, cut: nat, clock: Time, erased: set<nat>)
    requires buf.Ok(clock) && buf.base <= cut <= buf.next && ErasedOk(buf, erased)
    ensures ErasedOk(CutAt(buf, cut), erased + IdsFrom(buf, cut))
    ensures CutAt(buf, cut).next == cut && CutAt(buf, cut).base == buf.base && CutAt(buf, cut).nextId == buf.nextId
  {
    LastIsLatest(buf, clock);
    hide Indexes;
  }

  /** The sessions once what arrives from `num` on counts as a new one of the same encoder. */
  function Split(enc: Encoder, num: nat): Encoder {
    if enc.sessions == [] then enc
    else
      var last := enc.Last();
      var sessions := enc.sessions + [last.(id := enc.nextSession, headers := NumberedBefore(last.headers, num))];
      enc.(sessions := sessions, bytes := SessionsCost(sessions), nextSession := enc.nextSession + 1)
  }

  /** `headers` numbered as from before message `num`. */
  function NumberedBefore(headers: seq<HeaderRec>, num: nat): (r: seq<HeaderRec>)
    ensures MapOf(r) == MapOf(headers)
    ensures 0 < num ==> AllNumsBelow(r, num)
  {
    if headers == [] then []
    else
      var h := headers[|headers| - 1];
      var rest := NumberedBefore(headers[..|headers| - 1], num);
      var r := rest + [h.(num := Min(h.num, Monus(num, 1)))];
      assert r[..|rest|] == rest;
      r
  }

  lemma {:induction false} NumberedCost(headers: seq<HeaderRec>, num: nat)
    ensures |NumberedBefore(headers, num)| == |headers|
    ensures HeadersCost(NumberedBefore(headers, num)) == HeadersCost(headers)
  {
    hide HeadersCost, MapOf, AllNumsBelow;
    if headers != [] {
      var h := headers[|headers| - 1];
      var rest := headers[..|headers| - 1];
      assert headers == rest + [h];
      HeadersCostMore(rest, h);
      HeadersCostMore(NumberedBefore(rest, num), h.(num := Min(h.num, Monus(num, 1))));
      NumberedCost(rest, num);
    }
  }

  /** A session more, as large as the last. */
  lemma SplitLighter(enc: Encoder, num: nat)
    requires enc.bytes == SessionsCost(enc.sessions)
    ensures Lighter(enc, Split(enc, num)) && Split(enc, num).bytes <= 2 * enc.bytes
  {
    hide NumberedBefore, HeadersCost;
    if enc.sessions != [] {
      NumberedCost(enc.Last().headers, num);
      SessionsCostSplit(enc.sessions);
      SessionsCostSplit(Split(enc, num).sessions);
      assert Split(enc, num).sessions[..|enc.sessions|] == enc.sessions;
    }
  }

  lemma SplitOk(buf: Buffer, enc: Encoder, cut: nat, clock: Time, held: bool)
    requires buf.Ok(clock) && buf.base <= cut <= buf.next && 0 < cut
    requires enc.Ok(buf.ring) && ChainOk(buf, enc) && (held ==> HeadersOk(buf, enc))
    ensures Split(enc, cut).Ok(CutAt(buf, cut).ring) && ChainOk(CutAt(buf, cut), Split(enc, cut))
    ensures held ==> HeadersOk(CutAt(buf, cut), Split(enc, cut))
  {
    hide Indexes, RingCost, SessionsCost, MapOf, InEffect, AllNumsBelow, Contiguous, Encoder.Ok, SyncsBefore,
      NumberedBefore;
    SplitSessionsOk(buf, enc, cut, clock);
    hide HeadersOk, ChainOk, Buffer.Ok, CutAt, Split;
    SplitChainOk(buf, enc, cut, clock);
    if held {
      SplitHeadersOk(buf, enc, cut, clock);
    }
  }

  /** The messages kept are none of the new session's. */
  lemma SplitChainOk(buf: Buffer, enc: Encoder, cut: nat, clock: Time)
    requires buf.Ok(clock) && buf.base <= cut <= buf.next && enc.Ok(buf.ring) && ChainOk(buf, enc)
    ensures ChainOk(CutAt(buf, cut), Split(enc, cut))
  {
    hide Indexes, RingCost, SessionsCost, MapOf, InEffect, AllNumsBelow, Contiguous, Encoder.Ok, SyncsBefore,
      NumberedBefore;
    SplitSessionsOk(buf, enc, cut, clock);
    var buf', enc' := CutAt(buf, cut), Split(enc, cut);
    forall i, j | 0 <= i < |buf'.ring| && j == i + 1 < |buf'.ring| && buf'.ring[i].session == buf'.ring[j].session
      ensures buf'.ring[j].cfg == After(buf'.ring[i])
    {
      assert buf'.ring[i] == buf.ring[i] && buf'.ring[j] == buf.ring[j];
    }
    if enc.sessions != [] && buf'.ring != [] {
      assert enc'.Last().id == enc.nextSession;
      assert buf'.ring[|buf'.ring| - 1].session < enc.nextSession;
    }
  }

  lemma SplitHeadersOk(buf: Buffer, enc: Encoder, cut: nat, clock: Time)
    requires buf.Ok(clock) && buf.base <= cut <= buf.next && 0 < cut && enc.Ok(buf.ring) && HeadersOk(buf, enc)
    ensures HeadersOk(CutAt(buf, cut), Split(enc, cut))
  {
    hide Indexes, RingCost, SessionsCost, MapOf, InEffect, AllNumsBelow, Contiguous, Encoder.Ok, SyncsBefore,
      NumberedBefore;
    SplitSessionsOk(buf, enc, cut, clock);
    var buf', enc' := CutAt(buf, cut), Split(enc, cut);
    if enc.sessions != [] {
      forall i, j | 0 <= i < |buf'.ring| && 0 <= j < |enc'.sessions| && enc'.sessions[j].id == buf'.ring[i].session
        ensures InEffect(enc'.sessions[j].headers, buf'.ring[i].num) == buf'.ring[i].cfg
      {
        assert buf'.ring[i] == buf.ring[i] && j < |enc.sessions| && enc'.sessions[j] == enc.sessions[j];
      }
    }
  }

  lemma SplitSessionsOk(buf: Buffer, enc: Encoder, cut: nat, clock: Time)
    requires buf.Ok(clock) && buf.base <= cut <= buf.next && enc.Ok(buf.ring)
    ensures Split(enc, cut).Ok(CutAt(buf, cut).ring)
    ensures forall i :: 0 <= i < |CutAt(buf, cut).ring| ==> CutAt(buf, cut).ring[i].session < enc.nextSession
    ensures enc.sessions != [] || buf.ring == []
    ensures enc.active ==> enc.sessions != []
  {
    hide Indexes, RingCost, SessionsCost, MapOf, AllNumsBelow;
    var buf', enc' := CutAt(buf, cut), Split(enc, cut);
    assert buf.ring != [] ==> HasSession(enc.sessions, buf.ring[0].session);
    forall i | 0 <= i < |buf'.ring|
      ensures HasSession(enc'.sessions, buf'.ring[i].session) && buf'.ring[i].session < enc.nextSession
    {
      assert HasSession(enc.sessions, buf.ring[i].session);
      var j :| 0 <= j < |enc.sessions| && enc.sessions[j].id == buf.ring[i].session;
      assert enc'.sessions[j].id == buf'.ring[i].session;
    }
  }

  /** A keyframe from well before the first message not aired yet is before the cut. */
  lemma BeforeCut(buf: Buffer, clock: Time, k: nat, cut: nat)
    requires buf.Ok(clock) && k in buf.syncs && buf.base <= cut <= buf.next
    requires buf.Has(k) && (buf.Has(cut) ==> buf.At(k).arrival < buf.At(cut).arrival)
    ensures k < cut && k in CutAt(buf, cut).syncs && CutAt(buf, cut).Has(k)
    ensures CutAt(buf, cut).At(k) == buf.At(k)
    ensures buf.Has(cut) ==> buf.At(cut).arrival <= clock
  {
    LastIsLatest(buf, clock);
  }

  /** A frame from before the cursor is none of what waits from there on. */
  lemma AiredNotWaiting(buf: Buffer, clock: Time, num: nat, id: nat)
    requires buf.Ok(clock)
    requires exists k :: k in buf.syncs && k < num && buf.Has(k) && buf.At(k).id == id
    ensures id !in IdsFrom(buf, num)
  {
    var k :| k in buf.syncs && k < num && buf.Has(k) && buf.At(k).id == id;
    forall i | 0 <= i < |buf.ring| && num <= buf.ring[i].num ensures buf.ring[i].id != id {
      assert buf.ring[k - buf.base].id < buf.ring[i].id;
    }
  }

  lemma WaitingFromBase(buf: Buffer, clock: Time, num: nat)
    requires buf.Ok(clock)
    ensures IdsFrom(buf, num) <= IdsFrom(buf, Max(num, buf.base))
    ensures forall n: nat :: num <= n ==> IdsFrom(buf, n) <= IdsFrom(buf, num)
  {
  }
}
