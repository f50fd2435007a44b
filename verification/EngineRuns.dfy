/** Whole runs of the delay engine: any sequence of messages, polls, commands, outages and
    encoder restarts. */
module EngineRuns {
  import opened Wrappers
  import opened EngineTypes
  import opened Ring
  import opened EngineState
  import opened Trace
  import opened DelayEngine
  import EngineLemmas

  /** One thing that happens, `wait` after the one before. */
  datatype Event = Event(wait: Time, op: Op)

  datatype Op =
    | Arrive(kind: Kind, ts: nat, payload: Payload, info: Inspected)
    | EncoderStarts
    | EncoderStops
    | Metadata(payload: Payload)
    | Poll(maxBytes: nat)
    | Connect
    | Disconnect(lastWritten: Option<nat>)
    | Order(cmd: Command)
    | OrderDump(taken: Option<nat>, mode: DelayMode, cover: bool, took: nat)
    | MarkEnd
    | ForgetEnd
    | RestartAfterEnd
    | Discard
    | KeepHistory(keep: bool)
    | RestoreAfterReconnect(restore: bool)

  /** Nothing that may lower a delay, or end the broadcast. */
  predicate Quiet(op: Op) {
    (op.Order? ==> op.cmd.SlateShown?) && !op.OrderDump? && !op.MarkEnd? && !op.RestartAfterEnd? && !op.Discard?
  }

  /** Nothing that sets or clears the end mark. */
  predicate KeepsEnd(op: Op) {
    !op.MarkEnd? && !op.ForgetEnd? && !op.RestartAfterEnd? && !op.Discard?
  }

  predicate AllQuiet(events: seq<Event>) {
    forall i :: 0 <= i < |events| ==> Quiet(events[i].op)
  }

  predicate AllKeepEnd(events: seq<Event>) {
    forall i :: 0 <= i < |events| ==> KeepsEnd(events[i].op)
  }

  /** From `from` on, no buffered message went out younger than `floor`. */
  ghost predicate NoneYounger(sent: seq<OutMsg>, from: nat, floor: Time) {
    forall i :: from <= i < |sent| && sent[i].origin.Buffered? ==>
      sent[i].origin.entry.arrival + floor <= sent[i].at
  }

  /** From `from` on, nothing in `erased` went out. */
  ghost predicate NoneErased(sent: seq<OutMsg>, from: nat, erased: set<nat>) {
    forall i :: from <= i < |sent| ==>
      && (sent[i].origin.Buffered? ==> sent[i].origin.entry.id !in erased)
      && (sent[i].origin.Repeated? ==> sent[i].origin.frame.id !in erased)
  }

  /** From `from` on, nothing numbered after `mark` went out. */
  ghost predicate NonePast(sent: seq<OutMsg>, from: nat, mark: nat) {
    forall i :: from <= i < |sent| && sent[i].origin.Buffered? ==> sent[i].origin.entry.num <= mark
  }

  // ----- what a run asks of memory ----------------------------------------------------

  /** How much more than before an operation makes the engine hold, at most. */
  function Grows(op: Op): nat {
    match op
    case Arrive(_, _, payload, _) => 2 * Cost(payload.size)
    case EncoderStarts => Cost(0)
    case Metadata(payload) => payload.size
    case _ => 0
  }

  function GrowsBy(events: seq<Event>): nat {
    if events == [] then 0
    else GrowsBy(events[..|events| - 1]) + Grows(events[|events| - 1].op)
  }

  /** The decoder configuration of an encoder's session: what it has sent last per track, and
      how many changes of what size that took. */
  datatype Tally = Tally(active: bool, cfg: map<Track, Payload>, count: nat, cost: nat)
  {
    /** `op` is a configuration message that changes something. */
    predicate Changes(op: Op) {
      && op.Arrive? && active && 0 < op.payload.size && Engine.ConfigOf(op.kind, op.info).Some?
      && var track := Track(op.kind, Engine.ConfigOf(op.kind, op.info).value);
         !(track in cfg && cfg[track] == op.payload)
    }

    /** `op` is within the limits on decoder configuration, whatever came before it. */
    predicate Fits(op: Op, budget: nat) {
      Changes(op) ==>
        op.payload.size <= 1_048_576 && count < 64 && cost + Cost(op.payload.size) <= budget
    }

    function Counted(op: Op): Tally {
      match op
      case EncoderStarts => Tally(true, map[], 0, 0)
      case EncoderStops => this.(active := false)
      case Arrive(kind, _, payload, info) =>
        if !Changes(op) then this
        else
          var track := Track(kind, Engine.ConfigOf(kind, info).value);
          Tally(true, cfg[track := payload], count + 1, cost + Cost(payload.size))
      case _ => this
    }

    function After(events: seq<Event>): Tally {
      if events == [] then this
      else After(events[..|events| - 1]).Counted(events[|events| - 1].op)
    }

    /** No message of the run is past the limits on decoder configuration. */
    predicate AllFit(events: seq<Event>, budget: nat) {
      forall i :: 0 <= i < |events| ==> After(events[..i]).Fits(events[i].op, budget)
    }
  }

  /** What is kept of the current session's configuration. */
  function TallyOf(enc: Encoder): Tally {
    var headers := if enc.sessions != [] then enc.Last().headers else [];
    Tally(enc.active, enc.cfg, |headers|, HeadersCost(headers))
  }

  /** While no limit has taken any (`held`), no more configuration is kept than `t` says. */
  predicate Under(enc: Encoder, held: bool, t: Tally) {
    && enc.active == t.active && enc.cfg == t.cfg
    && (held && t.active ==> TallyOf(enc).count <= t.count && TallyOf(enc).cost <= t.cost)
  }

  lemma StillUnder(enc: Encoder, enc': Encoder, held: bool, t: Tally)
    requires Under(enc, held, t) && Lighter(enc, enc') && (enc.active ==> enc.sessions != [])
    ensures Under(enc', held, t) && enc'.began == enc.began
  {
  }

  // ----- one operation ----------------------------------------------------------------

  /** What of the engine the rules of a run are about. */
  datatype State = State(cap: nat, buf: Buffer, enc: Encoder, at: Cursor, plan: Plan, sent: seq<OutMsg>, log: Ledger)
  {
    function Held(): nat { buf.bytes + enc.bytes }

    function NeededNow(): nat { Needed(buf, enc, at, plan) }
  }

  ghost function StateOf(e: Engine): State
    reads e
  {
    State(e.config.ramCapBytes, e.buf, e.enc, e.at, e.plan, e.sent, e.log)
  }

  /** From `a` to `b`, memory fell short only if more than the limit, and at most `needed`, had
      to be held, and at most once. */
  ghost predicate ShortOnce(a: State, b: State, now: Time, needed: nat) {
    || b.log.shortfalls == a.log.shortfalls
    || (|b.log.shortfalls| == |a.log.shortfalls| + 1
        && var f := b.log.shortfalls[|a.log.shortfalls|];
           && b.log.shortfalls == a.log.shortfalls + [f]
           && f.Real() && f.at == now && f.cap == b.cap && f.needed <= needed && f.base == b.buf.base
           && var restart := RestartOf(a.buf, a.at.num, a.plan.started);
              restart.Some? ==> f.restart.Some? && restart.value <= f.restart.value)
  }

  /** Takes an incoming message. */
  method Receive(e: Engine, now: Time, kind: Kind, ts: nat, payload: Payload, info: Inspected, ghost t: Tally)
    requires e.Valid() && e.log.clock <= now && Under(e.enc, e.log.limitsHeld, t)
    modifies e`buf, e`enc, e`plan, e`log
    ensures e.Valid() && e.log.clock == now
    ensures var op := Arrive(kind, ts, payload, info);
            && Under(e.enc, e.log.limitsHeld, t.Counted(op))
            && (old(e.log.limitsHeld) && t.Fits(op, e.HeaderBudget()) ==> e.log.limitsHeld)
            && ShortOnce(old(StateOf(e)), StateOf(e), now, old(StateOf(e)).NeededNow() + Grows(op))
            && e.HeldBytes() <= old(e.HeldBytes()) + Grows(op)
    ensures e.log.shortfalls == old(e.log.shortfalls) ==> e.log.floor == old(e.log.floor)
    ensures e.log.erased == old(e.log.erased) && e.plan.endMark == old(e.plan.endMark)
    ensures e.log.consumed == old(e.log.consumed)
    ensures Records(old(StateOf(e)), StateOf(e), now, Arrive(kind, ts, payload, info))
  {
    hide Engine.Core, HeadersCost, Buffer.SyncAtOrBefore, Needed, MapOf, EngineLemmas.Appended, Shrunk,
      Engine.InHistory, HoldOk, AnchorOk, Plan.Ok, Plan.Promises, TookIn, Records;
    if e.enc.active {
      e.ConfigKept();
    }
    e.Ingest(now, kind, ts, payload, info);
    RecordsTaken(old(StateOf(e)), StateOf(e), now, kind, ts, payload, info);
  }

  /** Taking a message in records it as it came. */
  lemma RecordsTaken(a: State, b: State, now: Time, kind: Kind, ts: nat, payload: Payload, info: Inspected)
    requires a.enc.active && 0 < payload.size ==>
               && a.enc.sessions != []
               && TookIn(a.buf, b.buf, a.enc, b.enc, a.log.arrived, b.log.arrived, now, kind, ts, payload, info)
    requires !a.enc.active || payload.size == 0 ==> b.enc == a.enc && b.log.arrived == a.log.arrived
    ensures Records(a, b, now, Arrive(kind, ts, payload, info))
  {
    hide HadVideo;
  }

  /** What comes is recorded as it came, and nothing else is. */
  ghost predicate Records(a: State, b: State, now: Time, op: Op) {
    && b.enc.began == (if op.EncoderStarts? then |a.log.arrived| else a.enc.began)
    && if op.Arrive? && a.enc.active && 0 < op.payload.size then
         && |b.log.arrived| == |a.log.arrived| + 1 && a.log.arrived <= b.log.arrived
         && var e := b.log.arrived[|a.log.arrived|];
         && e.num == a.buf.next && e.arrival == now && e.began == a.enc.began
         && e.kind == op.kind && e.ts == op.ts && e.payload == op.payload && e.info == op.info
       else b.log.arrived == a.log.arrived
  }

  /** What one operation, `op` at `now`, keeps and does from `a` to `b`; `t`: the configuration
      kept before it, at most. */
  ghost predicate Stepped(a: State, b: State, now: Time, op: Op, t: Tally) {
    && b.log.clock <= now && b.cap == a.cap
    && Under(b.enc, b.log.limitsHeld, t.Counted(op))
    && (a.log.limitsHeld && t.Fits(op, b.cap / 8) ==> b.log.limitsHeld)
    && a.sent <= b.sent && a.log.erased <= b.log.erased
    && Records(a, b, now, op)
    && a.log.consumed <= b.log.consumed && (!op.Poll? ==> b.log.consumed == a.log.consumed)
    && NoneErased(b.sent, |a.sent|, a.log.erased)
    && NoneYounger(b.sent, |a.sent|, b.log.floor)
    && (Quiet(op) && b.log.shortfalls == a.log.shortfalls ==> b.log.floor == a.log.floor)
    && ShortOnce(a, b, now, a.NeededNow() + Grows(op))
    && (Quiet(op) ==> b.Held() <= a.Held() + Grows(op))
    && (KeepsEnd(op) ==> b.plan.endMark == a.plan.endMark)
    && (a.plan.endMark.Some? && KeepsEnd(op) ==> NonePast(b.sent, |a.sent|, a.plan.endMark.value))
  }

  /** Does one operation. */
  method Apply(e: Engine, now: Time, op: Op, ghost t: Tally)
    requires e.Valid() && e.log.clock <= now && Under(e.enc, e.log.limitsHeld, t)
    modifies e
    ensures e.Valid() && Stepped(old(StateOf(e)), StateOf(e), now, op, t)
  {
    hide Engine.Core, HoldOk, AnchorOk, Plan.Ok, Plan.Promises;
    if op.Arrive? {
      Take(e, now, op, t);
    } else if op.EncoderStarts? || op.EncoderStops? || op.Metadata? {
      FromEncoder(e, now, op, t);
    } else if op.Poll? {
      FromClock(e, now, op.maxBytes, t);
    } else if op.Connect? || op.Disconnect? {
      AtOutput(e, now, op, t);
    } else if op.Order? || op.OrderDump? {
      FromUser(e, now, op, t);
    } else if op.RestartAfterEnd? || op.Discard? {
      ThrowAway(e, now, op, t);
    } else {
      FromControl(e, now, op, t);
    }
  }

  method Take(e: Engine, now: Time, op: Op, ghost t: Tally)
    requires e.Valid() && e.log.clock <= now && Under(e.enc, e.log.limitsHeld, t) && op.Arrive?
    modifies e
    ensures e.Valid() && Stepped(old(StateOf(e)), StateOf(e), now, op, t)
  {
    hide Engine.Core, HoldOk, AnchorOk, Plan.Ok, Plan.Promises, Records, Under, ShortOnce, Tally.Counted, Tally.Fits;
    Receive(e, now, op.kind, op.ts, op.payload, op.info, t);
  }

  method FromEncoder(e: Engine, now: Time, op: Op, ghost t: Tally)
    requires e.Valid() && e.log.clock <= now && Under(e.enc, e.log.limitsHeld, t)
    requires op.EncoderStarts? || op.EncoderStops? || op.Metadata?
    modifies e
    ensures e.Valid() && Stepped(old(StateOf(e)), StateOf(e), now, op, t)
  {
    hide Engine.Core, Lighter, RestartOf, Needed, HoldOk, AnchorOk, Plan.Ok, Plan.Promises, Shrunk,
      EngineLemmas.Emptied;
    if e.enc.active {
      e.ConfigKept();
    }
    match op {
      case EncoderStarts =>
        var _ := e.IngestStart(now);
      case EncoderStops => e.IngestEnd();
      case Metadata(payload) =>
        e.IngestMetadata(payload);
        StillUnder(old(e.enc), e.enc, e.log.limitsHeld, t);
    }
  }

  method AtOutput(e: Engine, now: Time, op: Op, ghost t: Tally)
    requires e.Valid() && e.log.clock <= now && Under(e.enc, e.log.limitsHeld, t)
    requires op.Connect? || op.Disconnect?
    modifies e
    ensures e.Valid() && Stepped(old(StateOf(e)), StateOf(e), now, op, t)
  {
    hide Engine.Core, HeadersCost, Lighter, HoldOk, AnchorOk, Plan.Ok, Plan.Promises, Engine.Late, Engine.ReconnectsAt;
    match op {
      case Connect =>
        var _ := e.OutputConnected(now);
      case Disconnect(lastWritten) => e.OutputDisconnected(lastWritten);
    }
  }

  method FromClock(e: Engine, now: Time, maxBytes: nat, ghost t: Tally)
    requires e.Valid() && e.log.clock <= now && Under(e.enc, e.log.limitsHeld, t)
    modifies e
    ensures e.Valid() && Stepped(old(StateOf(e)), StateOf(e), now, Poll(maxBytes), t)
  {
    hide Engine.Core, HeadersCost, Lighter, HoldOk, AnchorOk, Plan.Ok, Plan.Promises, Shrunk, Engine.Waiting,
      PayloadBytes, Under;
    if e.enc.active {
      e.ConfigKept();
    }
    var _ := e.PollBudget(now, maxBytes);
    StillUnder(old(e.enc), e.enc, e.log.limitsHeld, t);
  }

  method FromUser(e: Engine, now: Time, op: Op, ghost t: Tally)
    requires e.Valid() && e.log.clock <= now && Under(e.enc, e.log.limitsHeld, t)
    requires op.Order? || op.OrderDump?
    modifies e
    ensures e.Valid() && Stepped(old(StateOf(e)), StateOf(e), now, op, t)
  {
    hide Engine.Core, HeadersCost, Lighter, HoldOk, AnchorOk, Plan.Ok, Plan.Promises, MovedAlong, HoldsNewest, Under,
      EngineLemmas.Emptied, EngineLemmas.IdsFrom, Shrunk, Engine.DelaySet, Engine.Dumped, Engine.WentLive,
      Engine.Stopped, Plan.Shown, Engine.Refusal;
    if e.enc.active {
      e.ConfigKept();
    }
    match op {
      case Order(cmd) =>
        var _ := e.Command(now, cmd);
      case OrderDump(taken, mode, cover, took) =>
        var _ := e.DumpAfter(now, taken, mode, cover, took);
    }
    StillUnder(old(e.enc), e.enc, e.log.limitsHeld, t);
  }

  /** Throws away what is waiting, or all there is. */
  method ThrowAway(e: Engine, now: Time, op: Op, ghost t: Tally)
    requires e.Valid() && e.log.clock <= now && Under(e.enc, e.log.limitsHeld, t)
    requires op.RestartAfterEnd? || op.Discard?
    modifies e
    ensures e.Valid() && Stepped(old(StateOf(e)), StateOf(e), now, op, t)
  {
    hide Engine.Core, HeadersCost, Lighter, HoldOk, AnchorOk, Plan.Ok, Plan.Promises, Under, Shrunk,
      EngineLemmas.Emptied;
    if e.enc.active {
      e.ConfigKept();
    }
    match op {
      case RestartAfterEnd => e.RestartAfterEnd();
      case Discard => e.Discard();
    }
    StillUnder(old(e.enc), e.enc, e.log.limitsHeld, t);
  }

  method FromControl(e: Engine, now: Time, op: Op, ghost t: Tally)
    requires e.Valid() && e.log.clock <= now && Under(e.enc, e.log.limitsHeld, t)
    requires op.MarkEnd? || op.ForgetEnd? || op.KeepHistory? || op.RestoreAfterReconnect?
    modifies e
    ensures e.Valid() && Stepped(old(StateOf(e)), StateOf(e), now, op, t)
  {
    hide Engine.Core, HoldOk, AnchorOk, Plan.Ok, Plan.Promises, Under;
    match op {
      case MarkEnd =>
        if 0 < e.buf.next {
          e.EndAfter(e.buf.next - 1);
        }
      case ForgetEnd => e.CancelEnd();
      case KeepHistory(keep) => e.SetKeepHistory(keep);
      case RestoreAfterReconnect(restore) => e.SetRestoreAfterReconnect(restore);
    }
  }

  // ----- whole runs -------------------------------------------------------------------

  /** The time after `events`, the first of them its wait after `start`. */
  function TimeAfter(start: Time, events: seq<Event>): Time {
    if events == [] then start
    else TimeAfter(start, events[..|events| - 1]) + events[|events| - 1].wait
  }

  /** `states` are those before, between and after the events, each a step from the one before;
      `t`: the configuration kept at first. */
  ghost predicate Steps(states: seq<State>, start: Time, events: seq<Event>, t: Tally) {
    && |states| == |events| + 1
    && forall k :: 0 <= k < |events| ==>
         Stepped(states[k], states[k + 1], TimeAfter(start, events[..k + 1]), events[k].op, t.After(events[..k]))
  }

  /** At every event, what must be held fits, with what the event adds. */
  ghost predicate AlwaysRoom(states: seq<State>, events: seq<Event>)
    requires |events| < |states|
  {
    forall k :: 0 <= k < |events| ==> states[k].NeededNow() + Grows(events[k].op) <= states[k].cap
  }

  /** Since before, memory only fell short when more had to be held than the limit. */
  twostate predicate ShortOnlyOverLimit(e: Engine)
    reads e
  {
    && old(e.log.shortfalls) <= e.log.shortfalls
    && forall i :: |old(e.log.shortfalls)| <= i < |e.log.shortfalls| ==>
         e.log.shortfalls[i].Real() && e.log.shortfalls[i].cap == e.config.ramCapBytes
  }

  lemma NothingYet(s: State, start: Time)
    ensures var t := TallyOf(s.enc);
      Under(s.enc, s.log.limitsHeld, t) && t.After([]) == t && Steps([s], start, [], t)
    ensures GrowsBy([]) == 0 && AllQuiet([]) && AllKeepEnd([]) && TimeAfter(start, []) == start
    ensures AlwaysRoom([s], [])
  {
  }

  /** One event more. */
  lemma OneMore(states: seq<State>, s: State, start: Time, events: seq<Event>, k: nat, t: Tally)
    requires k < |events| && Steps(states, start, events[..k], t)
    requires Stepped(states[k], s, TimeAfter(start, events[..k]) + events[k].wait, events[k].op, t.After(events[..k]))
    ensures Steps(states + [s], start, events[..k + 1], t)
    ensures TimeAfter(start, events[..k + 1]) == TimeAfter(start, events[..k]) + events[k].wait
    ensures t.After(events[..k + 1]) == t.After(events[..k]).Counted(events[k].op)
    ensures GrowsBy(events[..k + 1]) == GrowsBy(events[..k]) + Grows(events[k].op)
  {
    hide Stepped, Grows, Tally.Counted;
    var before, after, states' := events[..k], events[..k + 1], states + [s];
    assert after == before + [events[k]] && after[..k] == before;
    assert TimeAfter(start, after) == TimeAfter(start, before) + events[k].wait;
    assert t.After(after) == t.After(before).Counted(events[k].op);
    hide TimeAfter, Tally.After, GrowsBy;
    forall j | 0 <= j < k + 1
      ensures Stepped(states'[j], states'[j + 1], TimeAfter(start, after[..j + 1]), after[j].op, t.After(after[..j]))
    {
      assert after[..j] == events[..j] && after[..j + 1] == events[..j + 1];
      if j < k {
        assert before[..j] == events[..j] && before[..j + 1] == events[..j + 1];
        assert Stepped(states[j], states[j + 1], TimeAfter(start, before[..j + 1]), before[j].op, t.After(before[..j]));
      }
    }
  }

  /** What holds of every event, with one more. */
  lemma OneMoreOfAll(states: seq<State>, s: State, events: seq<Event>, k: nat)
    requires k < |events| && |states| == k + 1
    ensures AllQuiet(events[..k + 1]) <==> AllQuiet(events[..k]) && Quiet(events[k].op)
    ensures AllKeepEnd(events[..k + 1]) <==> AllKeepEnd(events[..k]) && KeepsEnd(events[k].op)
    ensures AlwaysRoom(states + [s], events[..k + 1]) <==>
      AlwaysRoom(states, events[..k]) && states[k].NeededNow() + Grows(events[k].op) <= states[k].cap
  {
    hide Grows, Quiet, KeepsEnd, Needed;
    assert events[..k + 1] == events[..k] + [events[k]];
    assert forall j :: 0 <= j < k + 1 ==> (states + [s])[j] == states[j];
  }

  /** Any run, with the states it goes through. Besides what every state keeps (the timestamps,
      clean starts and continuity of all that was sent): a run whose configuration messages are
      all within the limits leaves every frame configured; nothing thrown away before is sent in
      it; while nothing lowers the delay and memory does not fall short, nothing is sent younger
      than promised; memory falls short only at an event at which what must be held does not
      fit, so never while all that comes in fits; and while nothing sets or clears the end mark,
      nothing after it is sent. */
  method Run(e: Engine, start: Time, events: seq<Event>) returns (ghost states: seq<State>)
    requires e.Valid() && e.log.clock <= start
    modifies e
    ensures e.Valid() && old(e.sent) <= e.sent
    ensures Ordered(e.sent) && CleanStarts(e.sent) && Continuous(e.log.consumed)
    ensures AllPassed(e.sent, e.log.consumed) && AllAsArrived(e.sent, e.log.arrived)
    ensures AllMarked(e.log.arrived) && AllStartAtKeyframes(e.sent, e.log.arrived)
    ensures Steps(states, start, events, TallyOf(old(e.enc)))
    ensures states[0] == old(StateOf(e)) && states[|events|] == StateOf(e)
    ensures old(e.log.limitsHeld) && TallyOf(old(e.enc)).AllFit(events, old(e.HeaderBudget())) ==> Configured(e.sent)
    ensures NoneErased(e.sent, |old(e.sent)|, old(e.log.erased))
    ensures ShortOnlyOverLimit(e)
    ensures AllQuiet(events) && e.log.shortfalls == old(e.log.shortfalls) ==>
              NoneYounger(e.sent, |old(e.sent)|, old(e.log.floor))
    ensures AlwaysRoom(states, events) ==> e.log.shortfalls == old(e.log.shortfalls)
    ensures AllQuiet(events) && old(e.HeldBytes()) + GrowsBy(events) <= old(e.config.ramCapBytes) ==>
              e.log.shortfalls == old(e.log.shortfalls)
    ensures AllKeepEnd(events) && old(e.plan.endMark).Some? ==>
              NonePast(e.sent, |old(e.sent)|, old(e.plan.endMark).value)
  {
    hide Engine.Core, Engine.Valid, Tally.Fits, Tally.Counted, Tally.After, GrowsBy, TallyOf, AllQuiet, AllKeepEnd,
      Under, Quiet, KeepsEnd, Grows, Steps, AlwaysRoom, TimeAfter, Needed, RestartOf, AllPassed, AllAsArrived,
      AllMarked, Records;
    NothingYet(StateOf(e), start);
    states := [StateOf(e)];
    var now := start;
    ghost var tally, first := TallyOf(e.enc), TallyOf(e.enc);
    assert events[..0] == [];
    for k := 0 to |events|
      invariant e.Valid() && e.log.clock <= now && e.config.ramCapBytes == old(e.config.ramCapBytes)
      invariant Steps(states, start, events[..k], first) && now == TimeAfter(start, events[..k])
      invariant |states| == k + 1 && states[0] == old(StateOf(e)) && states[k] == StateOf(e)
      invariant tally == first.After(events[..k]) && Under(e.enc, e.log.limitsHeld, tally)
      invariant old(e.log.limitsHeld) && first.AllFit(events, old(e.HeaderBudget())) ==> e.log.limitsHeld
      invariant old(e.sent) <= e.sent && old(e.log.erased) <= e.log.erased
      invariant NoneErased(e.sent, |old(e.sent)|, old(e.log.erased))
      invariant ShortOnlyOverLimit(e)
      invariant AllQuiet(events[..k]) && e.log.shortfalls == old(e.log.shortfalls) ==>
                  e.log.floor == old(e.log.floor) && NoneYounger(e.sent, |old(e.sent)|, old(e.log.floor))
      invariant AlwaysRoom(states, events[..k]) ==> e.log.shortfalls == old(e.log.shortfalls)
      invariant AllQuiet(events[..k]) ==> e.HeldBytes() <= old(e.HeldBytes()) + GrowsBy(events[..k])
      invariant AllQuiet(events[..k]) && old(e.HeldBytes()) + GrowsBy(events[..k]) <= e.config.ramCapBytes ==>
                  e.log.shortfalls == old(e.log.shortfalls)
      invariant AllKeepEnd(events[..k]) ==> e.plan.endMark == old(e.plan.endMark)
      invariant AllKeepEnd(events[..k]) && old(e.plan.endMark).Some? ==>
                  NonePast(e.sent, |old(e.sent)|, old(e.plan.endMark).value)
    {
      now := now + events[k].wait;
      e.NeededIsHeld();
      Apply(e, now, events[k].op, tally);
      OneMore(states, StateOf(e), start, events, k, first);
      OneMoreOfAll(states, StateOf(e), events, k);
      states := states + [StateOf(e)];
      tally := tally.Counted(events[k].op);
    }
    assert events[..|events|] == events;
    e.RulesKept();
    StartsAreKeyframes(e.sent, e.log.arrived);
  }

  /** A run from the beginning: it takes nothing but configuration messages within the limits
      for everything sent to keep every rule. */
  method RunFromStart(config: Config, start: Time, events: seq<Event>) returns (e: Engine)
    ensures fresh(e) && e.Valid()
    ensures Ordered(e.sent) && CleanStarts(e.sent) && Continuous(e.log.consumed)
    ensures AllPassed(e.sent, e.log.consumed) && AllAsArrived(e.sent, e.log.arrived)
    ensures AllMarked(e.log.arrived) && AllStartAtKeyframes(e.sent, e.log.arrived)
    ensures Tally(false, map[], 0, 0).AllFit(events, config.ramCapBytes / 8) ==>
              Configured(e.sent)
  {
    hide Engine.Core, Tally.AllFit, Steps, AlwaysRoom;
    e := new Engine(config);
    var _ := Run(e, start, events);
  }

  /** Once a delay has been reached, no run of messages, polls, outages, reconnects and
      encoder restarts sends a buffered message younger than it, as long as what must be held
      fits the memory limit. */
  method DelayIsKept(e: Engine, start: Time, floor: Time, events: seq<Event>) returns (ghost states: seq<State>)
    requires e.Valid() && e.log.clock <= start && AllQuiet(events)
    requires e.plan.started && e.plan.pending.Idle? && floor <= e.plan.delay && floor <= e.plan.target
    modifies e
    ensures e.Valid() && old(e.sent) <= e.sent && ShortOnlyOverLimit(e)
    ensures Steps(states, start, events, TallyOf(old(e.enc)))
    ensures states[0] == old(StateOf(e)).(log := old(e.log).(floor := floor)) && states[|events|] == StateOf(e)
    ensures AlwaysRoom(states, events) || old(e.HeldBytes()) + GrowsBy(events) <= old(e.config.ramCapBytes) ==>
              e.log.shortfalls == old(e.log.shortfalls)
    ensures e.log.shortfalls == old(e.log.shortfalls) ==> NoneYounger(e.sent, |old(e.sent)|, floor)
  {
    hide Engine.Core, Steps, AlwaysRoom;
    e.Promise(floor);
    states := Run(e, start, events);
  }

  /** After a dump nothing that was waiting airs, whatever follows. After one answered with a
      replay or a hold, nothing buffered airs sooner than the delay the dump restored, through
      reconnects and a replay that turns into a hold, as long as nothing lowers the delay and
      what must be held fits the memory limit. */
  method DumpIsKept(e: Engine, start: Time, taken: Option<nat>, mode: DelayMode, cover: bool, events: seq<Event>,
                    ghost took: nat)
      returns (r: Result<Ack, EngineError>, ghost states: seq<State>)
    requires e.Valid() && e.log.clock <= start
    modifies e
    ensures e.Valid() && old(e.sent) <= e.sent && ShortOnlyOverLimit(e)
    ensures r.Ok? <==> old(e.CanDump())
    ensures r.Ok? ==> NoneErased(e.sent, |old(e.sent)|, old(e.WaitingFrom(taken)))
    ensures |states| == |events| + 1 && Steps(states, start, events, TallyOf(states[0].enc))
    ensures states[0].sent == old(e.sent) && states[0].Held() <= old(e.buf.bytes + 2 * e.enc.bytes)
    ensures states[|events|] == StateOf(e)
    ensures AlwaysRoom(states, events) ==> e.log.shortfalls == old(e.log.shortfalls)
    ensures AllQuiet(events) && old(e.buf.bytes + 2 * e.enc.bytes) + GrowsBy(events) <= old(e.config.ramCapBytes) ==>
              e.log.shortfalls == old(e.log.shortfalls)
    ensures r.Ok? && old(e.Airing()) && r.value.dump != Some(Covered) && AllQuiet(events)
              && e.log.shortfalls == old(e.log.shortfalls) ==>
              NoneYounger(e.sent, |old(e.sent)|, old(e.DumpDelay()))
  {
    hide Engine.Core, Stepped, AlwaysRoom;
    r := e.DumpAfter(start, taken, mode, cover, took);
    states := Run(e, start, events);
  }

  /** After the buffer is discarded, nothing received before is ever sent. */
  method DiscardIsKept(e: Engine, start: Time, events: seq<Event>)
    requires e.Valid() && e.log.clock <= start
    modifies e
    ensures e.Valid() && old(e.sent) <= e.sent
    ensures NoneErased(e.sent, |old(e.sent)|, EngineLemmas.IdsBelow(old(e.buf.nextId)))
  {
    hide Engine.Core;
    e.Discard();
    var _ := Run(e, start, events);
  }

  /** The identities of what `buf` has up to message `mark`. */
  ghost function IdsUpTo(buf: Buffer, mark: int): set<nat> {
    set i | 0 <= i < |buf.ring| && buf.ring[i].num <= mark :: buf.ring[i].id
  }

  /** After the broadcast is ended at the end mark, nothing recorded up to the mark (or,
      without one, before) is ever sent in what follows. */
  method RestartIsKept(e: Engine, start: Time, events: seq<Event>)
    requires e.Valid() && e.log.clock <= start
    modifies e
    ensures e.Valid() && old(e.sent) <= e.sent
    ensures var mark := if old(e.plan.endMark).Some? then old(e.plan.endMark).value else old(e.buf).next - 1;
      NoneErased(e.sent, |old(e.sent)|, IdsUpTo(old(e.buf), mark))
  {
    hide Engine.Core;
    e.RestartAfterEnd();
    var _ := Run(e, start, events);
  }
}
