/** What a destination gets over a run, and the rules it keeps. */
module Trace {
  import opened Wrappers
  import opened EngineTypes
  import opened Ring

  /** The track a message configures, if it is decoder configuration. */
  function Configures(m: OutMsg): Option<Track> {
    match m.origin
    case Header(t) => Some(t)
    case Buffered(e, _) => if e.config.Some? then Some(Track(e.kind, e.config.value)) else None
    case _ => None
  }

  /** The last configuration received per track, in the stretch `epoch`. */
  function Received(sent: seq<OutMsg>, epoch: nat): map<Track, Payload> {
    if sent == [] then map[]
    else
      var m := sent[|sent| - 1];
      var before := Received(sent[..|sent| - 1], epoch);
      if m.epoch == epoch && Configures(m).Some?
      then before[Configures(m).value := m.payload]
      else before
  }

  /** The messages of the stretch `epoch`. */
  function Stretch(sent: seq<OutMsg>, epoch: nat): seq<OutMsg> {
    if sent == [] then []
    else
      var m := sent[|sent| - 1];
      Stretch(sent[..|sent| - 1], epoch) + if m.epoch == epoch then [m] else []
  }

  /** What a connection gets that took `took` before the stretch `epoch`, and all of that. */
  function Got(took: seq<OutMsg>, sent: seq<OutMsg>, epoch: nat): seq<OutMsg> {
    took + Stretch(sent, epoch)
  }

  /** The decoder configuration `msgs` leave a destination with: the last one per track. */
  function Configuration(msgs: seq<OutMsg>): map<Track, Payload> {
    if msgs == [] then map[]
    else
      var m := msgs[|msgs| - 1];
      var before := Configuration(msgs[..|msgs| - 1]);
      if Configures(m).Some? then before[Configures(m).value := m.payload] else before
  }

  /** A held frame finds its configuration with a destination that has got `got`. */
  ghost predicate FindsConfig(got: seq<OutMsg>, h: HoldFrame) {
    Includes(Configuration(got), MapOf(h.headers.config))
  }

  /** Message `i` of those a destination got finds every track configured as the encoder had it. */
  ghost predicate FoundAt(got: seq<OutMsg>, i: nat)
    requires i < |got|
  {
    got[i].origin.Buffered? && got[i].IsFrame() ==> Includes(Configuration(got[..i]), got[i].origin.entry.cfg)
  }

  ghost predicate AllFound(got: seq<OutMsg>) {
    forall i :: 0 <= i < |got| ==> FoundAt(got, i)
  }

  /** What a destination has got from message `i` on configures nothing otherwise than `cfg`. */
  ghost predicate Unchanged(got: seq<OutMsg>, i: nat, cfg: map<Track, Payload>)
    requires i <= |got|
  {
    var later := Configuration(got[i..]);
    forall track :: track in cfg && track in later ==> later[track] == cfg[track]
  }

  /** On each connection, timestamps of each kind never go back. */
  ghost predicate Ordered(sent: seq<OutMsg>) {
    forall i, j :: 0 <= i < j < |sent|
      && sent[i].generation == sent[j].generation && sent[i].kind == sent[j].kind
      ==> sent[i].timestamp <= sent[j].timestamp
  }

  /** `b` comes strictly after `a`, as decoded and (for video) as presented. */
  predicate StrictlyAfter(a: OutMsg, b: OutMsg) {
    && a.timestamp < b.timestamp
    && (a.kind.Video? && b.kind.Video? ==> a.Pts() < b.Pts())
  }

  /** Keyframes spliced to or held come strictly after every frame before them. */
  ghost predicate CleanStarts(sent: seq<OutMsg>) {
    forall i, j :: 0 <= i < j < |sent|
      && sent[i].generation == sent[j].generation && sent[i].IsFrame() && sent[j].IsStart()
      ==> StrictlyAfter(sent[i], sent[j])
  }

  /** Message `i` finds every track configured as the encoder had it. */
  ghost predicate ConfiguredAt(sent: seq<OutMsg>, i: nat)
    requires i < |sent|
  {
    sent[i].origin.Buffered? && sent[i].IsFrame() ==>
      Includes(Received(sent[..i], sent[i].epoch), sent[i].origin.entry.cfg)
  }

  /** Every buffered frame finds every track configured as the encoder had it. */
  ghost predicate Configured(sent: seq<OutMsg>) {
    forall i :: 0 <= i < |sent| ==> ConfiguredAt(sent, i)
  }

  /** The bounds the engine keeps about what it sent on connection `generation`. */
  ghost predicate Within(sent: seq<OutMsg>, generation: nat, kindTs: map<Kind, nat>, outTs: nat, pts: int) {
    && (forall i :: 0 <= i < |sent| ==> sent[i].generation <= generation)
    && (forall i :: 0 <= i < |sent| && sent[i].generation == generation ==>
          && sent[i].kind in kindTs && sent[i].timestamp <= kindTs[sent[i].kind]
          && (sent[i].kind.Video? && sent[i].IsFrame() ==> sent[i].Pts() <= pts))
    && (forall k :: k in kindTs ==> kindTs[k] <= outTs)
  }

  /** The last timestamps of connection `generation` are those of messages that went out. */
  ghost predicate Attained(sent: seq<OutMsg>, generation: nat, kindTs: map<Kind, nat>) {
    forall k :: k in kindTs ==> WentOut(sent, generation, k, kindTs[k])
  }

  ghost predicate WentOut(sent: seq<OutMsg>, generation: nat, kind: Kind, ts: nat) {
    exists i :: 0 <= i < |sent| && sent[i].generation == generation && sent[i].kind == kind && sent[i].timestamp == ts
  }

  ghost predicate NoLaterThan(kindTs: map<Kind, nat>, t: int) {
    forall k :: k in kindTs ==> kindTs[k] <= t
  }

  /** Everything sent on connection `generation` comes strictly before a frame of
      kind `kind` at `ts`, presented at `pts`. */
  ghost predicate AllBefore(sent: seq<OutMsg>, generation: nat, kind: Kind, ts: nat, pts: int) {
    forall i :: 0 <= i < |sent| && sent[i].generation == generation && sent[i].IsFrame() ==>
      && sent[i].timestamp < ts
      && (sent[i].kind.Video? && kind.Video? ==> sent[i].Pts() < pts)
  }

  lemma ReceivedExtends(sent: seq<OutMsg>, m: OutMsg, epoch: nat)
    ensures Received(sent + [m], epoch) ==
      if m.epoch == epoch && Configures(m).Some?
      then Received(sent, epoch)[Configures(m).value := m.payload]
      else Received(sent, epoch)
  {
    assert (sent + [m])[..|sent|] == sent;
  }

  lemma {:induction false} NothingReceived(sent: seq<OutMsg>, epoch: nat)
    requires forall i :: 0 <= i < |sent| ==> sent[i].epoch < epoch
    ensures Received(sent, epoch) == map[]
  {
    if sent != [] {
      NothingReceived(sent[..|sent| - 1], epoch);
    }
  }

  lemma {:induction false} ReceivedIsStretch(sent: seq<OutMsg>, epoch: nat)
    ensures Received(sent, epoch) == Configuration(Stretch(sent, epoch))
  {
    if sent != [] {
      var before, m := sent[..|sent| - 1], sent[|sent| - 1];
      ReceivedIsStretch(before, epoch);
      if m.epoch == epoch {
        assert Stretch(sent, epoch)[..|Stretch(before, epoch)|] == Stretch(before, epoch);
      } else {
        assert Stretch(sent, epoch) == Stretch(before, epoch);
      }
    }
  }

  lemma {:induction false} ConfigurationConcat(a: seq<OutMsg>, b: seq<OutMsg>)
    ensures Configuration(a + b) == Configuration(a) + Configuration(b)
  {
    if b == [] {
      assert a + b == a;
    } else {
      assert (a + b)[..|a + b| - 1] == a + b[..|b| - 1];
      ConfigurationConcat(a, b[..|b| - 1]);
    }
  }

  /** What the destination has includes what it received in the stretch. */
  lemma GotIncludes(took: seq<OutMsg>, sent: seq<OutMsg>, epoch: nat)
    ensures Configuration(Got(took, sent, epoch)) == Configuration(took) + Received(sent, epoch)
    ensures Includes(Configuration(Got(took, sent, epoch)), Received(sent, epoch))
  {
    ReceivedIsStretch(sent, epoch);
    ConfigurationConcat(took, Stretch(sent, epoch));
  }

  lemma {:induction false} NothingInStretch(sent: seq<OutMsg>, epoch: nat)
    requires forall i :: 0 <= i < |sent| ==> sent[i].epoch < epoch
    ensures Stretch(sent, epoch) == []
  {
    if sent != [] {
      NothingInStretch(sent[..|sent| - 1], epoch);
    }
  }

  lemma FoundExtends(got: seq<OutMsg>, m: OutMsg)
    requires AllFound(got)
    requires m.origin.Buffered? && m.IsFrame() ==> Includes(Configuration(got), m.origin.entry.cfg)
    ensures AllFound(got + [m])
  {
    var g := got + [m];
    forall i | 0 <= i < |g| ensures FoundAt(g, i) {
      if i < |got| {
        assert g[..i] == got[..i] && FoundAt(got, i);
      } else {
        assert g[..i] == got;
      }
    }
  }

  /** Everything a connection gets of what was handed over is configured with what it got. */
  lemma {:induction false} GotFound(took: seq<OutMsg>, sent: seq<OutMsg>, epoch: nat)
    requires AllFound(took) && Configured(sent)
    ensures AllFound(Got(took, sent, epoch))
  {
    hide Configuration, Includes, AllFound;
    if sent == [] {
      assert took + [] == took;
    } else {
      var before, m := sent[..|sent| - 1], sent[|sent| - 1];
      ConfiguredBefore(sent, |sent| - 1);
      GotFound(took, before, epoch);
      if m.epoch == epoch {
        assert Got(took, sent, epoch) == Got(took, before, epoch) + [m];
        GotIncludes(took, before, epoch);
        assert ConfiguredAt(sent, |sent| - 1);
        StillIncluded(Configuration(took), Received(before, epoch), m);
        FoundExtends(Got(took, before, epoch), m);
      } else {
        assert Got(took, sent, epoch) == Got(took, before, epoch);
      }
    }
  }

  lemma StillIncluded(a: map<Track, Payload>, b: map<Track, Payload>, m: OutMsg)
    ensures m.origin.Buffered? && Includes(b, m.origin.entry.cfg) ==> Includes(a + b, m.origin.entry.cfg)
  {
  }

  lemma ConfiguredBefore(sent: seq<OutMsg>, n: nat)
    requires Configured(sent) && n <= |sent|
    ensures Configured(sent[..n])
  {
    forall i | 0 <= i < n ensures ConfiguredAt(sent[..n], i) {
      assert ConfiguredAt(sent, i) && sent[..n][..i] == sent[..i];
    }
  }

  /** The keyframe a hold repeats is message `i` of those the destination got: a held frame finds
      its configuration exactly if nothing it got since configures otherwise. */
  lemma AiredHere(got: seq<OutMsg>, i: nat, h: HoldFrame)
    requires AllFound(got) && i < |got| && got[i].IsFrame() && got[i].origin.Buffered?
    requires got[i].origin.entry.cfg == MapOf(h.headers.config)
    ensures FindsConfig(got, h) <==> Unchanged(got, i, MapOf(h.headers.config))
  {
    hide Configuration, MapOf;
    assert FoundAt(got, i);
    ConfigurationConcat(got[..i], got[i..]);
    assert got == got[..i] + got[i..];
  }

  lemma OrderedExtends(sent: seq<OutMsg>, m: OutMsg, kindTs: map<Kind, nat>, outTs: nat, pts: int)
    requires Ordered(sent) && Within(sent, m.generation, kindTs, outTs, pts)
    requires m.kind in kindTs && kindTs[m.kind] == m.timestamp
    requires m.kind.Video? && m.IsFrame() ==> m.Pts() <= pts
    ensures Ordered(sent + [m]) && Within(sent + [m], m.generation, kindTs, outTs, pts)
  {
  }

  lemma AttainedExtends(sent: seq<OutMsg>, m: OutMsg, kindTs: map<Kind, nat>)
    requires Attained(sent, m.generation, kindTs)
    ensures Attained(sent + [m], m.generation, kindTs[m.kind := m.timestamp])
  {
    var s, kindTs' := sent + [m], kindTs[m.kind := m.timestamp];
    assert s[|sent|] == m;
    forall k | k in kindTs' ensures WentOut(s, m.generation, k, kindTs'[k]) {
      if k != m.kind {
        assert WentOut(sent, m.generation, k, kindTs[k]);
        var i :| 0 <= i < |sent| && sent[i].generation == m.generation && sent[i].kind == k
              && sent[i].timestamp == kindTs[k];
        assert s[i] == sent[i];
      }
    }
  }

  lemma CleanStartsExtends(sent: seq<OutMsg>, m: OutMsg)
    requires CleanStarts(sent)
    requires m.IsStart() ==> AllBefore(sent, m.generation, m.kind, m.timestamp, m.Pts())
    ensures CleanStarts(sent + [m])
  {
  }

  lemma ConfiguredExtends(sent: seq<OutMsg>, m: OutMsg)
    requires Configured(sent)
    requires m.origin.Buffered? && m.IsFrame() ==> Includes(Received(sent, m.epoch), m.origin.entry.cfg)
    ensures Configured(sent + [m])
  {
    var s := sent + [m];
    forall i | 0 <= i < |s| ensures ConfiguredAt(s, i) {
      if i < |sent| {
        assert s[..i] == sent[..i] && ConfiguredAt(sent, i);
      } else {
        assert s[..i] == sent;
      }
    }
  }

  // ----- what arrived -----------------------------------------------------------------

  /** Of what arrived, a message from `from` on and before `to` is a picture (or its
      configuration), as far as inspection could tell. */
  ghost predicate HadVideo(arrived: seq<Entry>, from: nat, to: nat)
    requires to <= |arrived|
  {
    exists j :: from <= j < to && arrived[j].kind.Video? && arrived[j].info.known
  }

  /** Message `i` of all that arrived is one the output may start from exactly if inspection says
      it is a keyframe, or it is sound of a stream without a picture before it; and what else is
      known of it is what inspection said. */
  ghost predicate Marked(arrived: seq<Entry>, i: nat)
    requires i < |arrived|
  {
    var e, info := arrived[i], arrived[i].info;
    && e.id == i && e.began <= i
    && (e.sync <==>
          info.known && match e.kind
                        case Video => info.keyframe
                        case Audio => info.config.None? && !HadVideo(arrived, e.began, i)
                        case Data => false)
    && e.config == (if info.known && !e.kind.Data? then info.config else None)
    && e.cts == (if info.known && e.kind.Video? then info.cts else 0)
    && e.nal == (if info.known && e.kind.Video? then info.nal else NoNal)
  }

  ghost predicate AllMarked(arrived: seq<Entry>) {
    forall i :: 0 <= i < |arrived| ==> Marked(arrived, i)
  }

  /** `h` shows the picture of a keyframe that arrived. */
  ghost predicate ShowsArrived(h: HoldFrame, arrived: seq<Entry>) {
    && h.id < |arrived|
    && var e := arrived[h.id]; e.kind.Video? && e.sync && h.payload == e.payload && h.cts == e.cts
  }

  predicate Carries(m: OutMsg, e: Entry) { m.kind == e.kind && m.payload == e.payload && m.num == Some(e.num) }

  /** A message goes out as it arrived. */
  ghost predicate AsArrived(m: OutMsg, arrived: seq<Entry>) {
    match m.origin
    case Buffered(e, starts) =>
      && e.id < |arrived| && arrived[e.id] == e
      && Carries(m, e) && (starts ==> e.sync)
    case Repeated(h) => ShowsArrived(h, arrived) && m.kind.Video? && m.payload == h.payload && m.num.None?
    case _ => m.num.None?
  }

  ghost predicate AllAsArrived(sent: seq<OutMsg>, arrived: seq<Entry>) {
    forall i :: 0 <= i < |sent| ==> AsArrived(sent[i], arrived)
  }

  /** A picture the output starts from, or shows during a hold, was a keyframe to inspection. */
  ghost predicate StartsAtKeyframe(m: OutMsg, arrived: seq<Entry>) {
    match m.origin
    case Buffered(e, starts) => starts && m.kind.Video? ==> e.info.known && e.info.keyframe
    case Repeated(h) =>
      && h.id < |arrived| && var info := arrived[h.id].info;
      && info.known && info.keyframe && m.payload == arrived[h.id].payload
    case _ => true
  }

  ghost predicate AllStartAtKeyframes(sent: seq<OutMsg>, arrived: seq<Entry>) {
    forall i :: 0 <= i < |sent| ==> StartsAtKeyframe(sent[i], arrived)
  }

  lemma StartsAreKeyframes(sent: seq<OutMsg>, arrived: seq<Entry>)
    requires AllAsArrived(sent, arrived) && AllMarked(arrived)
    ensures AllStartAtKeyframes(sent, arrived)
  {
    forall i | 0 <= i < |sent| ensures StartsAtKeyframe(sent[i], arrived) {
      assert AsArrived(sent[i], arrived);
      if sent[i].origin.Buffered? {
        assert Marked(arrived, sent[i].origin.entry.id);
      } else if sent[i].origin.Repeated? {
        assert Marked(arrived, sent[i].origin.frame.id);
      }
    }
  }

  lemma MarkedMore(arrived: seq<Entry>, e: Entry)
    requires AllMarked(arrived) && Marked(arrived + [e], |arrived|)
    ensures AllMarked(arrived + [e])
  {
    var more := arrived + [e];
    forall i | 0 <= i < |more| ensures Marked(more, i) {
      if i < |arrived| {
        assert Marked(arrived, i);
        HadVideoBefore(arrived, more, arrived[i].began, i);
      }
    }
  }

  lemma HadVideoBefore(a: seq<Entry>, b: seq<Entry>, from: nat, to: nat)
    requires a <= b && to <= |a|
    ensures HadVideo(a, from, to) == HadVideo(b, from, to)
  {
  }

  lemma AsArrivedMore(sent: seq<OutMsg>, arrived: seq<Entry>, e: Entry)
    requires AllAsArrived(sent, arrived)
    ensures AllAsArrived(sent, arrived + [e])
  {
  }

  // ----- what was passed --------------------------------------------------------------

  /** The message the output was spliced to last, up to message `i` of those passed. */
  ghost function SpliceOf(consumed: seq<Consumed>, i: nat): (s: nat)
    requires i < |consumed|
    ensures s <= i
  {
    if consumed[i].starts || i == 0 then i else SpliceOf(consumed, i - 1)
  }

  /** A picture after which a decoder that started at a keyframe before it has all it needs. */
  predicate EndsLeading(e: Entry) {
    e.kind.Video? && e.config.None? && (e.nal.Trailing? || e.nal.Cra? || e.nal.OtherIrap?)
  }

  /** After a splice to message `s`, an open-GOP keyframe, none up to message `n` has been a
      picture that ends those leading it. */
  ghost predicate StillLeading(consumed: seq<Consumed>, s: nat, n: nat)
    requires s < n <= |consumed|
  {
    consumed[s].entry.nal.Cra? && forall j :: s < j < n ==> !EndsLeading(consumed[j].entry)
  }

  /** Message `i`, no configuration, is one to send after the splice to message `s`: not sound or
      data from before that keyframe, nor a picture that leads it and cannot be decoded. */
  ghost predicate Airs(consumed: seq<Consumed>, s: nat, i: nat)
    requires s <= i < |consumed|
  {
    var k, e := consumed[s].entry, consumed[i].entry;
    if e.kind.Video? then !(e.nal.Leading? && s < i && StillLeading(consumed, s, i))
    else e.session != k.session || k.ts <= e.ts
  }

  /** Message `n` of those handed over has the timestamp `t` (0 if that is negative), or, with
      one of its kind later than that already out on its connection, the latest of those. */
  ghost predicate TimedAt(sent: seq<OutMsg>, n: nat, t: int)
    requires n < |sent|
  {
    && t <= sent[n].timestamp
    && (sent[n].timestamp == Max(t, 0) ||
        WentOut(sent[..n], sent[n].generation, sent[n].kind, sent[n].timestamp))
  }

  /** Message `i` of those passed: it goes on from the one before, or is one the output was
      spliced to; its timestamp is as far ahead of the encoder's as at that splice; and, no
      configuration and not to be silent behind a slate, it went out exactly if it airs after
      that splice. */
  ghost predicate PassedAt(sent: seq<OutMsg>, consumed: seq<Consumed>, i: nat)
    requires i < |consumed|
  {
    var c, s := consumed[i], SpliceOf(consumed, i);
    var k := consumed[s];
    && k.starts && k.entry.sync
    && (c.starts || (0 < i && FollowsOn(consumed[i - 1], c)))
    && c.offset == k.offset
    && (c.out.Some? ==>
          && c.out.value < |sent| && var m := sent[c.out.value];
          && m.origin == Buffered(c.entry, c.starts) && m.generation == c.generation
          && TimedAt(sent, c.out.value, c.entry.ts + c.offset))
    && (c.entry.config.None? ==> (c.out.Some? <==> !(c.slate && c.entry.kind.Audio?) && Airs(consumed, s, i)))
  }

  ghost predicate AllPassed(sent: seq<OutMsg>, consumed: seq<Consumed>) {
    forall i :: 0 <= i < |consumed| ==> PassedAt(sent, consumed, i)
  }

  /** A picture the output was spliced to went out. */
  lemma StartsGoOut(sent: seq<OutMsg>, consumed: seq<Consumed>, i: nat)
    requires AllPassed(sent, consumed) && i < |consumed| && consumed[i].starts
    requires consumed[i].entry.kind.Video? && consumed[i].entry.config.None?
    ensures var c := consumed[i];
      c.out.Some? && c.out.value < |sent| && sent[c.out.value].origin == Buffered(c.entry, true)
      && sent[c.out.value].generation == c.generation
  {
    assert PassedAt(sent, consumed, i);
  }

  lemma {:induction false} SpliceOfMore(consumed: seq<Consumed>, c: Consumed, i: nat)
    requires i < |consumed|
    ensures SpliceOf(consumed + [c], i) == SpliceOf(consumed, i)
  {
    if !consumed[i].starts && 0 < i {
      SpliceOfMore(consumed, c, i - 1);
    }
  }

  lemma StillLeadingMore(consumed: seq<Consumed>, c: Consumed, s: nat, n: nat)
    requires s < n <= |consumed|
    ensures StillLeading(consumed + [c], s, n) == StillLeading(consumed, s, n)
    ensures n == |consumed| ==>
      (StillLeading(consumed + [c], s, n + 1) <==> StillLeading(consumed, s, n) && !EndsLeading(c.entry))
  {
    hide EndsLeading;
    var more := consumed + [c];
    assert forall j :: 0 <= j < |consumed| ==> more[j] == consumed[j];
    assert more[|consumed|] == c;
  }

  /** What was passed before stays right. */
  lemma PassedStays(sent: seq<OutMsg>, sent': seq<OutMsg>, consumed: seq<Consumed>, c: Consumed, i: nat)
    requires i < |consumed| && PassedAt(sent, consumed, i) && sent <= sent'
    ensures PassedAt(sent', consumed + [c], i)
  {
    hide StillLeading, EndsLeading;
    SpliceOfMore(consumed, c, i);
    var s := SpliceOf(consumed, i);
    if s < i {
      StillLeadingMore(consumed, c, s, i);
    }
    if consumed[i].out.Some? {
      var n := consumed[i].out.value;
      assert sent'[n] == sent[n];
      TimedStays(sent, sent', n, consumed[i].entry.ts + consumed[i].offset);
    }
  }

  lemma TimedStays(sent: seq<OutMsg>, sent': seq<OutMsg>, n: nat, t: int)
    requires n < |sent| && sent <= sent' && TimedAt(sent, n, t)
    ensures TimedAt(sent', n, t)
  {
    assert sent'[..n] == sent[..n] && sent'[n] == sent[n];
  }

  lemma PassedMore(sent: seq<OutMsg>, sent': seq<OutMsg>, consumed: seq<Consumed>, c: Consumed)
    requires AllPassed(sent, consumed) && sent <= sent' && PassedAt(sent', consumed + [c], |consumed|)
    ensures AllPassed(sent', consumed + [c])
  {
    hide PassedAt;
    forall i | 0 <= i < |consumed + [c]| ensures PassedAt(sent', consumed + [c], i) {
      if i < |consumed| {
        PassedStays(sent, sent', consumed, c, i);
      }
    }
  }

  lemma PassedSame(sent: seq<OutMsg>, sent': seq<OutMsg>, consumed: seq<Consumed>)
    requires AllPassed(sent, consumed) && sent <= sent'
    ensures AllPassed(sent', consumed)
  {
    hide StillLeading, EndsLeading, Airs, SpliceOf;
    forall i | 0 <= i < |consumed| ensures PassedAt(sent', consumed, i) {
      assert PassedAt(sent, consumed, i);
      if consumed[i].out.Some? {
        TimedStays(sent, sent', consumed[i].out.value, consumed[i].entry.ts + consumed[i].offset);
      }
    }
  }

  /** Since a splice, numbers follow on. */
  lemma {:induction false} NumbersFollow(sent: seq<OutMsg>, consumed: seq<Consumed>, i: nat)
    requires AllPassed(sent, consumed) && i < |consumed|
    ensures var k := consumed[SpliceOf(consumed, i)];
      consumed[i].entry.num == k.entry.num + (i - SpliceOf(consumed, i)) && consumed[i].entry.session == k.entry.session
  {
    assert PassedAt(sent, consumed, i);
    if !consumed[i].starts {
      NumbersFollow(sent, consumed, i - 1);
    }
  }

  /** Message `i` follows on from the last, or is one to start with. */
  predicate ContinuousAt(consumed: seq<Consumed>, i: nat)
    requires i < |consumed|
  {
    consumed[i].entry.sync || (i > 0 && FollowsOn(consumed[i - 1], consumed[i]))
  }

  /** Each buffered message passed is the next one of the same session after the previous, on
      the same connection, or is one to start with. */
  ghost predicate Continuous(consumed: seq<Consumed>) {
    forall i :: 0 <= i < |consumed| ==> ContinuousAt(consumed, i)
  }

  predicate FollowsOn(a: Consumed, b: Consumed) {
    && a.generation == b.generation
    && a.entry.session == b.entry.session
    && a.entry.num + 1 == b.entry.num
  }

  lemma ContinuousExtends(consumed: seq<Consumed>, c: Consumed)
    requires Continuous(consumed)
    requires c.entry.sync || (consumed != [] && FollowsOn(consumed[|consumed| - 1], c))
    ensures Continuous(consumed + [c])
  {
    var s := consumed + [c];
    forall i | 0 <= i < |s| ensures ContinuousAt(s, i) {
      assert i < |consumed| ==> ContinuousAt(consumed, i);
    }
  }

  /** What one poll may send: nothing buffered younger than `floor`, thrown away, or
      recorded after the end mark; and no held frame that was thrown away. */
  predicate MaySend(m: OutMsg, now: Time, floor: Time, erased: set<nat>, endMark: Option<nat>) {
    && m.at == now
    && (m.origin.Buffered? ==>
          && m.origin.entry.arrival + floor <= now
          && m.origin.entry.id !in erased
          && (endMark.Some? ==> m.origin.entry.num <= endMark.value))
    && (m.origin.Repeated? ==> m.origin.frame.id !in erased)
  }

  ghost predicate AllMaySend(sent: seq<OutMsg>, from: nat, now: Time, floor: Time, erased: set<nat>,
                             endMark: Option<nat>)
  {
    forall i :: from <= i < |sent| ==> MaySend(sent[i], now, floor, erased, endMark)
  }

  function PayloadBytes(msgs: seq<OutMsg>): nat {
    if msgs == [] then 0 else msgs[0].payload.size + PayloadBytes(msgs[1..])
  }

  lemma {:induction false} PayloadBytesConcat(a: seq<OutMsg>, b: seq<OutMsg>)
    ensures PayloadBytes(a + b) == PayloadBytes(a) + PayloadBytes(b)
  {
    if a == [] {
      assert a + b == b;
    } else {
      assert (a + b)[1..] == a[1..] + b;
      PayloadBytesConcat(a[1..], b);
    }
  }

  lemma NothingBytes(sent: seq<OutMsg>)
    ensures PayloadBytes(sent[|sent|..]) == 0
  {
  }

  lemma PayloadBytesGrow(sent: seq<OutMsg>, sent': seq<OutMsg>, from: nat)
    requires from <= |sent| && sent <= sent'
    ensures PayloadBytes(sent'[from..]) == PayloadBytes(sent[from..]) + PayloadBytes(sent'[|sent|..])
  {
    assert sent'[from..] == sent[from..] + sent'[|sent|..];
    PayloadBytesConcat(sent[from..], sent'[|sent|..]);
  }
}
