/** The broadcast's life cycle as a function from state and event to state and effects, and the
    rules it keeps over every series of events, whatever the buffer and the destination report. */
module BroadcastRules {
  /** Times are in milliseconds. */
  const DRAIN_SLACK: nat := 30_000

  datatype Encoder =
    | Publishing
    | Left(since: nat, stopped: bool)
    | Idle(stopped: bool)

  datatype Plan =
    | Live
    | EndAtMark(deadline: nat)
    | RestartAtMark(deadline: nat)
    | Ended
  {
    predicate AtMark() { EndAtMark? || RestartAtMark? }
  }

  datatype Egress = Off | On(since: nat)

  datatype Reason = Unreachable | NotTakingData

  datatype Effect =
    | StopEgress
    | AbortEgress
    | Discard
    | MarkEnd
    | CancelEnd
    | RestartAfterEnd
    | Explain(why: Reason)

  datatype Facts = Facts(
    destination: bool,
    hasMark: bool,
    endReached: bool,
    backlogEmpty: bool,
    drained: bool,
    hasBuffered: bool,
    outputWanted: bool,
    connected: bool,
    delay: nat)

  datatype Life = Life(encoder: Encoder, plan: Plan, egress: Egress, grace: nat) {
    /** The grace period for an encoder to come back is over. */
    predicate Gone(now: nat) { encoder.Left? && grace <= Elapsed(now, encoder.since) }

    /** An encoder stream starting now would be one the streamer started on purpose. */
    predicate StoppedBefore() { !encoder.Publishing? && encoder.stopped }
  }

  /** A clock that went back gives zero. */
  function Elapsed(now: nat, since: nat): nat { if now < since then 0 else now - since }

  function Fresh(grace: nat): Life { Life(Idle(true), Live, Off, grace) }

  // ----- the machine ------------------------------------------------------------------

  /** `wanted`: the connection is to be started. */
  datatype Change = Change(life: Life, effects: seq<Effect>, wanted: bool)

  function Stopped(l: Life, how: Effect): Change {
    if l.egress.On? then Change(l.(egress := Off), [how], false) else Change(l, [], false)
  }

  function Then(first: seq<Effect>, c: Change): Change { c.(effects := first + c.effects) }

  function Finished(l: Life): Change {
    var s := Stopped(l, StopEgress);
    Change(
      s.life.(encoder := if l.encoder.Left? then Idle(l.encoder.stopped) else l.encoder,
              plan := if l.plan.AtMark() then Live else l.plan),
      s.effects + [Discard], false)
  }

  function Deadline(now: nat, f: Facts): nat { now + f.delay + DRAIN_SLACK }

  function EndedNow(l: Life): Change {
    Then([Discard], Stopped(l.(plan := Ended), AbortEgress))
  }

  predicate NothingToAir(l: Life, f: Facts) { !f.destination || (f.drained && l.egress.Off?) }

  function EndedAfterAir(l: Life, now: nat, f: Facts): Change {
    match l.plan
    case Ended => Change(l, [], false)
    case EndAtMark(_) => Change(l, [], false)
    case RestartAtMark(deadline) => Change(l.(plan := EndAtMark(deadline)), [], false)
    case Live =>
      if f.hasMark && !NothingToAir(l, f) then Change(l.(plan := EndAtMark(Deadline(now, f))), [MarkEnd], false)
      else
        var done := Finished(l);
        done.(life := done.life.(plan := Ended))
  }

  function Resumed(l: Life): Change {
    match l.plan
    case Ended => Change(l.(plan := Live), [Discard], false)
    case EndAtMark(_) => Change(l.(plan := Live), [CancelEnd], false)
    case _ => Change(l, [], false)
  }

  function Published(l: Life, now: nat, takeover: bool, f: Facts): Change {
    var l' := l.(encoder := Publishing);
    if l.encoder.Left? && l.encoder.stopped && l.egress.On? && l.plan.Live? && f.hasMark then
      Change(l'.(plan := RestartAtMark(Deadline(now, f))), [MarkEnd], false)
    else if l.encoder.Left? && l.encoder.stopped && l.egress.On? && l.plan.EndAtMark? then
      Change(l'.(plan := RestartAtMark(l.plan.deadline)), [], false)
    else if l.plan.Ended? && l.StoppedBefore() && !takeover then Change(l'.(plan := Live), [], false)
    else Change(l', [], false)
  }

  function Departed(l: Life, now: nat, stopped: bool): Change {
    Change(if l.encoder.Publishing? then l.(encoder := Left(now, stopped)) else l, [], false)
  }

  function StartFailed(l: Life, now: nat): Change {
    if l.Gone(now) then Finished(l) else Change(l, [], false)
  }

  /** The end mark has been reached, or its time is up. */
  predicate MarkDue(l: Life, now: nat, f: Facts) {
    l.plan.AtMark() && ((f.endReached && f.backlogEmpty) || l.plan.deadline <= now)
  }

  function AtMarkEnded(l: Life): Change {
    if l.plan.RestartAtMark? then
      var s := Stopped(l, StopEgress);
      Change(s.life.(plan := Live), s.effects + [RestartAfterEnd], false)
    else
      var done := Finished(l);
      done.(life := done.life.(plan := Ended))
  }

  function Ticked(l: Life, now: nat, f: Facts): Change {
    if !f.destination then Stopped(l, StopEgress)
    else if MarkDue(l, now, f) then AtMarkEnded(l)
    else if l.egress.Off? then
      if l.Gone(now) && (l.plan.Ended? || !f.hasBuffered) then Finished(l)
      else Change(l, [], !l.plan.Ended? && f.outputWanted)
    else Drained(l, now, f)
  }

  /** A connection is up, or on its way: the broadcast ends once the encoder is gone and all
      of its stream has aired, or can no longer. */
  function Drained(l: Life, now: nat, f: Facts): Change
    requires l.egress.On?
  {
    if !l.encoder.Left? || !(l.Gone(now) || l.encoder.stopped) then Change(l, [], false)
    else if f.connected && f.drained && f.backlogEmpty then Finished(l)
    else if !f.connected then
      if l.Gone(now) && l.grace <= Elapsed(now, l.egress.since) then Then([Explain(Unreachable)], Finished(l))
      else Change(l, [], false)
    else
      var due := if l.encoder.stopped then f.delay else if l.grace < f.delay then f.delay else l.grace;
      if due + DRAIN_SLACK <= Elapsed(now, l.encoder.since) then Then([Explain(NotTakingData)], Finished(l))
      else Change(l, [], false)
  }

  // ----- runs -------------------------------------------------------------------------

  /** What can happen; a tick that wants the connection started is followed by its start, or
      by its failure to start. */
  datatype Event =
    | DestinationChanged
    | EndNow
    | EndAfterAir(now: nat, f: Facts)
    | Resume
    | Publish(now: nat, takeover: bool, f: Facts)
    | Leave(now: nat, stopped: bool)
    | Tick(now: nat, f: Facts, starts: bool)

  function Step(l: Life, e: Event): Change {
    match e
    case DestinationChanged => Stopped(l, StopEgress)
    case EndNow => EndedNow(l)
    case EndAfterAir(now, f) => EndedAfterAir(l, now, f)
    case Resume => Resumed(l)
    case Publish(now, takeover, f) => Published(l, now, takeover, f)
    case Leave(now, stopped) => Departed(l, now, stopped)
    case Tick(now, f, starts) =>
      var c := Ticked(l, now, f);
      if !c.wanted then c
      else if starts then c.(life := c.life.(egress := On(now)))
      else Then(c.effects, StartFailed(c.life, now)).(wanted := true)
  }

  /** An observer who sees only the effects and the starts: whether a connection runs, and
      whether the engine has an end mark. */
  datatype Seen = Seen(running: bool, marked: bool)

  function Notice(s: Seen, e: Effect): Seen {
    match e
    case StopEgress => s.(running := false)
    case AbortEgress => s.(running := false)
    case MarkEnd => s.(marked := true)
    case CancelEnd => s.(marked := false)
    case RestartAfterEnd => s.(marked := false)
    case Discard => s.(marked := false)
    case Explain(_) => s
  }

  function Observe(s: Seen, fx: seq<Effect>): Seen
    decreases |fx|
  {
    if fx == [] then s else Observe(Notice(s, fx[0]), fx[1..])
  }

  predicate Starts(l: Life, e: Event) { e.Tick? && e.starts && Ticked(l, e.now, e.f).wanted }

  function Watch(l: Life, s: Seen, e: Event): Seen {
    var s' := Observe(s, Step(l, e).effects);
    if Starts(l, e) then s'.(running := true) else s'
  }

  /** How many of the effects stop a connection. */
  function Stops(fx: seq<Effect>): nat {
    if fx == [] then 0 else (if fx[0].StopEgress? || fx[0].AbortEgress? then 1 else 0) + Stops(fx[1..])
  }

  /** Effects come at most three at a time. */
  lemma FewEffects(s: Seen, fx: seq<Effect>)
    requires |fx| <= 3
    ensures Observe(s, fx) ==
      if |fx| == 0 then s
      else if |fx| == 1 then Notice(s, fx[0])
      else if |fx| == 2 then Notice(Notice(s, fx[0]), fx[1])
      else Notice(Notice(Notice(s, fx[0]), fx[1]), fx[2])
    ensures Stops(fx) == Stops1(fx, 0) + Stops1(fx, 1) + Stops1(fx, 2)
  {
    if 1 <= |fx| {
      var t, s1 := fx[1..], Notice(s, fx[0]);
      assert Observe(s, fx) == Observe(s1, t) && Stops(fx) == Stops1(fx, 0) + Stops(t);
      if 1 <= |t| {
        var u, s2 := t[1..], Notice(s1, t[0]);
        assert Observe(s1, t) == Observe(s2, u) && Stops(t) == Stops1(fx, 1) + Stops(u);
        if 1 <= |u| {
          assert u[1..] == [] && u[0] == fx[2];
          assert Observe(s2, u) == Observe(Notice(s2, u[0]), []) && Stops(u) == Stops1(fx, 2) + Stops([]);
        }
      }
    }
  }

  function Stops1(fx: seq<Effect>, i: nat): nat {
    if i < |fx| && (fx[i].StopEgress? || fx[i].AbortEgress?) then 1 else 0
  }

  /** What holds between events: no connection once ended, the observer is right about the
      connection, and there is an end mark exactly while the plan is to end at it. */
  ghost predicate Rules(l: Life, s: Seen) {
    && (l.plan.Ended? ==> l.egress.Off?)
    && s.running == l.egress.On?
    && (l.plan.AtMark() <==> s.marked)
  }

  lemma FinishedKeeps(l: Life, s: Seen, first: seq<Effect>)
    requires Rules(l, s) && (first == [] || (|first| == 1 && first[0].Explain?))
    ensures var c := Then(first, Finished(l));
      Rules(c.life, Observe(s, c.effects)) && Stops(c.effects) == (if s.running then 1 else 0) && c.life.egress.Off?
    ensures !Observe(s, Then(first, Finished(l)).effects).running
  {
    FewEffects(s, Then(first, Finished(l)).effects);
  }

  lemma TickKeeps(l: Life, s: Seen, now: nat, f: Facts)
    requires Rules(l, s)
    ensures var c := Ticked(l, now, f);
      && Rules(c.life, Observe(s, c.effects))
      && Stops(c.effects) <= (if s.running then 1 else 0)
      && (Stops(c.effects) == 1 ==> c.life.egress.Off?)
      && |c.effects| <= 3
      && (c.wanted ==> c.life == l && c.effects == [] && !s.running && !l.plan.Ended?)
      && (c.wanted ==> f.destination && f.outputWanted)
  {
    hide Observe, Stops;
    FewEffects(s, Ticked(l, now, f).effects);
    FinishedKeeps(l, s, []);
    FinishedKeeps(l, s, [Explain(Unreachable)]);
    FinishedKeeps(l, s, [Explain(NotTakingData)]);
    assert [] + Finished(l).effects == Finished(l).effects;
    hide Finished;
  }

  /** A step keeps the rules; it stops a connection at most once and only one that runs, and
      starts one only when none runs, the stream has not ended, and there is something due
      for a destination. */
  lemma StepKeeps(l: Life, s: Seen, e: Event)
    requires Rules(l, s)
    ensures Rules(Step(l, e).life, Watch(l, s, e))
    ensures Stops(Step(l, e).effects) <= if s.running then 1 else 0
    ensures Stops(Step(l, e).effects) == 1 ==> Step(l, e).life.egress.Off?
    ensures Step(l, e).wanted ==> !s.running && !l.plan.Ended? && e.Tick? && e.f.destination && e.f.outputWanted
  {
    hide Observe, Stops, Ticked;
    if e.Tick? {
      TickKeeps(l, s, e.now, e.f);
      FinishedKeeps(l, s, []);
    }
    FewEffects(s, Step(l, e).effects);
  }

  /** The rules hold after every series of events, whatever is reported, and the connections
      started and stopped take turns. */
  function Run(l: Life, s: Seen, events: seq<Event>): (Life, Seen)
    decreases |events|
  {
    if events == [] then (l, s) else Run(Step(l, events[0]).life, Watch(l, s, events[0]), events[1..])
  }

  lemma {:induction false} RulesHold(l: Life, s: Seen, events: seq<Event>)
    requires Rules(l, s)
    ensures Rules(Run(l, s, events).0, Run(l, s, events).1)
    decreases |events|
  {
    if events != [] {
      StepKeeps(l, s, events[0]);
      RulesHold(Step(l, events[0]).life, Watch(l, s, events[0]), events[1..]);
    }
  }

  lemma RulesHoldFromStart(grace: nat, events: seq<Event>)
    ensures var (l, s) := Run(Fresh(grace), Seen(false, false), events);
      && (l.plan.Ended? ==> l.egress.Off? && !s.running)
      && s.running == l.egress.On?
      && (l.plan.AtMark() <==> s.marked)
  {
    RulesHold(Fresh(grace), Seen(false, false), events);
  }

  // ----- ended by the streamer --------------------------------------------------------

  /** Resume, or a new stream of an encoder that was stopped on purpose (not one that
      reconnected, and not one taking over). */
  predicate GoesOn(l: Life, e: Event) {
    e.Resume? || (e.Publish? && !e.takeover && l.StoppedBefore())
  }

  /** An ended stream goes on exactly when the streamer says so. */
  lemma EndedStays(l: Life, s: Seen, e: Event)
    requires l.plan.Ended? && Rules(l, s)
    ensures Step(l, e).life.plan.Ended? <==> !GoesOn(l, e)
    ensures !Step(l, e).life.plan.Ended? ==> Step(l, e).life.plan.Live?
    ensures !Starts(l, e) && (e.Resume? ==> Step(l, e).effects == [Discard])
  {
  }

  predicate NeverGoesOn(l: Life, events: seq<Event>)
    decreases |events|
  {
    events == [] || (!GoesOn(l, events[0]) && NeverGoesOn(Step(l, events[0]).life, events[1..]))
  }

  predicate NeverStarts(l: Life, events: seq<Event>)
    decreases |events|
  {
    events == [] || (!Starts(l, events[0]) && NeverStarts(Step(l, events[0]).life, events[1..]))
  }

  /** Over any series of events without one of those, it stays ended and no connection is
      started. */
  lemma {:induction false} EndedStaysEnded(l: Life, s: Seen, events: seq<Event>)
    requires l.plan.Ended? && Rules(l, s) && NeverGoesOn(l, events)
    ensures Run(l, s, events).0.plan.Ended? && !Run(l, s, events).1.running
    ensures NeverStarts(l, events)
    decreases |events|
  {
    if events != [] {
      hide Step, GoesOn, Starts;
      EndedStays(l, s, events[0]);
      StepKeeps(l, s, events[0]);
      EndedStaysEnded(Step(l, events[0]).life, Watch(l, s, events[0]), events[1..]);
    }
  }

  /** Every way into Ended, and every end of a stream whose encoder has left, throws away what
      had not aired. */
  lemma EndingDiscards(l: Life, e: Event)
    requires (!l.plan.Ended? && Step(l, e).life.plan.Ended?)
      || (l.encoder.Left? && Step(l, e).life.encoder.Idle?)
    ensures Discard in Step(l, e).effects
  {
  }

  // ----- ending at the mark -----------------------------------------------------------

  /** `span` has passed since `since`. */
  predicate Past(span: nat, since: nat, now: nat) { span == 0 || since + span <= now }

  /** The stream is over at a tick: its encoder left, and all of it has aired or can no longer
      (nothing is buffered, the connection cannot be started or reached, or the destination
      has stopped taking data for too long). */
  predicate StreamOver(l: Life, e: Event) {
    && e.Tick? && e.f.destination && l.encoder.Left?
    && var gone, f := Past(l.grace, l.encoder.since, e.now), e.f;
       if l.egress.Off? then gone && (!f.hasBuffered || (f.outputWanted && !e.starts))
       else if f.connected then
         && (gone || l.encoder.stopped)
         && ((f.drained && f.backlogEmpty) ||
             (&& Past(f.delay + DRAIN_SLACK, l.encoder.since, e.now)
              && (l.encoder.stopped || Past(l.grace + DRAIN_SLACK, l.encoder.since, e.now))))
       else gone && Past(l.grace, l.egress.since, e.now)
  }

  /** What becomes of a stream that is to end at the mark: it is ended, on End stream now or
      when the mark is due at a tick with a destination; it goes on live, on a resume or when
      the stream is over before the mark is due; a new stream on purpose makes it a restart;
      and nothing else takes it off that course. */
  lemma EndAtMarkEnds(l: Life, s: Seen, e: Event)
    requires l.plan.EndAtMark? && Rules(l, s)
    ensures var plan, due := Step(l, e).life.plan, e.Tick? && e.f.destination && MarkDue(l, e.now, e.f);
      && (plan.Ended? <==> e.EndNow? || due)
      && (plan.Live? <==> e.Resume? || (!due && StreamOver(l, e)))
      && (plan.RestartAtMark? <==> e.Publish? && l.encoder.Left? && l.encoder.stopped && l.egress.On?)
      && (plan.RestartAtMark? ==> plan.deadline == l.plan.deadline)
      && (plan.EndAtMark? ==> plan == l.plan)
  {
  }

  /** With a destination, the mark's deadline always ends what was to end there: the streamer's
      stream is over, or the previous broadcast is and the new stream's may start. */
  lemma DeadlineEnds(l: Life, now: nat, f: Facts, starts: bool)
    requires l.plan.AtMark() && f.destination && l.plan.deadline <= now
    ensures var c := Step(l, Tick(now, f, starts));
      && c.life.egress.Off?
      && (if l.plan.EndAtMark? then c.life.plan.Ended? && Discard in c.effects
          else c.life.plan.Live? && RestartAfterEnd in c.effects && Discard !in c.effects)
  {
  }

  /** Once the encoder has gone, a broadcast does not go on for ever: whatever the destination
      does, it is over once the delay, the grace periods and the slack have passed. */
  lemma GoneEnds(l: Life, now: nat, f: Facts, starts: bool)
    requires l.encoder.Left? && f.destination && l.egress.On?
    requires Past(l.grace + f.delay + DRAIN_SLACK, l.encoder.since, now) && Past(l.grace, l.egress.since, now)
    ensures var c := Step(l, Tick(now, f, starts));
      c.life.egress.Off? && (Discard in c.effects || RestartAfterEnd in c.effects)
  {
  }

  /** While its encoder streams, a broadcast without an end mark goes on: only the streamer's
      End stream or a change of destination stops its connection. */
  lemma StreamingGoesOn(l: Life, e: Event)
    requires l.egress.On? && l.plan.Live? && l.encoder.Publishing?
    ensures Step(l, e).life.egress.Off? <==>
      || e.EndNow? || e.DestinationChanged?
      || (e.Tick? && !e.f.destination)
      || (e.EndAfterAir? && (!e.f.destination || !e.f.hasMark))
  {
  }

  /** What takes a stream off its way to end at the mark: a resume, a new stream on purpose, or
      being over before the mark is due; and once it has ended, what makes it go on. */
  predicate Leaves(l: Life, e: Event) {
    if l.plan.EndAtMark? then
      || e.Resume?
      || (e.Publish? && l.encoder.Left? && l.encoder.stopped && l.egress.On?)
      || (StreamOver(l, e) && !MarkDue(l, e.now, e.f))
    else GoesOn(l, e)
  }

  predicate NeverLeaves(l: Life, events: seq<Event>)
    decreases |events|
  {
    events == [] || (!Leaves(l, events[0]) && NeverLeaves(Step(l, events[0]).life, events[1..]))
  }

  /** All along, the stream is still to end as `end` says, or has ended. */
  predicate OnItsWay(l: Life, end: Plan, events: seq<Event>)
    decreases |events|
  {
    && (l.plan == end || l.plan.Ended?)
    && (events == [] || OnItsWay(Step(l, events[0]).life, end, events[1..]))
  }

  /** A connection is only started for a stream still to end. */
  predicate StartsOnlyToEnd(l: Life, events: seq<Event>)
    decreases |events|
  {
    events == [] ||
    ((Starts(l, events[0]) ==> l.plan.EndAtMark?) && StartsOnlyToEnd(Step(l, events[0]).life, events[1..]))
  }

  /** Over any series of events, a stream that is to end at the mark is still to end there, or
      has ended, exactly while none of those happens; and then no new broadcast starts. */
  lemma {:induction false} EndIsKept(l: Life, s: Seen, end: Plan, events: seq<Event>)
    requires Rules(l, s) && end.EndAtMark? && (l.plan == end || l.plan.Ended?)
    ensures OnItsWay(l, end, events) <==> NeverLeaves(l, events)
    ensures NeverLeaves(l, events) ==> StartsOnlyToEnd(l, events)
    decreases |events|
  {
    if events != [] {
      hide Step, GoesOn, Starts, StreamOver, MarkDue, Rules;
      var e := events[0];
      var l', s' := Step(l, e).life, Watch(l, s, e);
      StepKeeps(l, s, e);
      if l.plan.Ended? {
        EndedStays(l, s, e);
      } else {
        EndAtMarkEnds(l, s, e);
      }
      if l'.plan == end || l'.plan.Ended? {
        EndIsKept(l', s', end, events[1..]);
      }
    }
  }

  /** A tick with a destination at which the time to end is up. */
  predicate TimeIsUp(end: Plan, e: Event)
    requires end.EndAtMark?
  {
    e.Tick? && e.f.destination && end.deadline <= e.now
  }

  /** So it has ended after any tick from its deadline on. */
  lemma {:induction false} EndsByDeadline(l: Life, s: Seen, end: Plan, events: seq<Event>)
    requires Rules(l, s) && end.EndAtMark? && (l.plan == end || l.plan.Ended?) && NeverLeaves(l, events)
    requires l.plan.Ended? || exists i :: 0 <= i < |events| && TimeIsUp(end, events[i])
    ensures Run(l, s, events).0.plan.Ended?
    decreases |events|
  {
    if events != [] {
      var e := events[0];
      var l', s' := Step(l, e).life, Watch(l, s, e);
      StepKeeps(l, s, e);
      if l.plan.Ended? {
        EndedStays(l, s, e);
      } else {
        EndAtMarkEnds(l, s, e);
        if TimeIsUp(end, e) {
          DeadlineEnds(l, e.now, e.f, e.starts);
        } else {
          var i :| 0 <= i < |events| && TimeIsUp(end, events[i]);
          assert TimeIsUp(end, events[1..][i - 1]);
        }
      }
      hide Step, GoesOn, StreamOver, MarkDue, Rules, Watch;
      EndsByDeadline(l', s', end, events[1..]);
    }
  }

  /** Some of the events throw the buffer away. */
  predicate Discards(l: Life, events: seq<Event>)
    decreases |events|
  {
    events != [] && (Discard in Step(l, events[0]).effects || Discards(Step(l, events[0]).life, events[1..]))
  }

  /** Over any run, a stream that has come to its end has had what did not air thrown away. */
  lemma {:induction false} EndingDiscardsInRun(l: Life, s: Seen, events: seq<Event>)
    requires !l.plan.Ended? && Run(l, s, events).0.plan.Ended?
    ensures Discards(l, events)
    decreases |events|
  {
    hide Step, Watch;
    if Step(l, events[0]).life.plan.Ended? {
      EndingDiscards(l, events[0]);
    } else {
      EndingDiscardsInRun(Step(l, events[0]).life, Watch(l, s, events[0]), events[1..]);
    }
  }

  /** Nothing brings an encoder that left back, or takes the destination away, and the delay
      reported at ticks is at most `delay`. */
  predicate StaysAway(e: Event, delay: nat) {
    && !e.Publish? && !e.DestinationChanged?
    && (e.Tick? ==> e.f.destination && e.f.delay <= delay)
  }

  /** A tick by which the grace periods, the delay and the slack have passed for `l`. */
  predicate TooLate(l: Life, e: Event, delay: nat)
    requires l.encoder.Left? && l.egress.On?
  {
    && e.Tick? && Past(l.grace + delay + DRAIN_SLACK, l.encoder.since, e.now)
    && Past(l.grace, l.egress.since, e.now)
  }

  /** Some of the events end a broadcast: what it had is thrown away, or dropped up to its mark. */
  predicate Closes(l: Life, events: seq<Event>)
    decreases |events|
  {
    events != [] &&
    (var c := Step(l, events[0]);
     Discard in c.effects || RestartAfterEnd in c.effects || Closes(c.life, events[1..]))
  }

  /** An encoder that left and stays away leaves no broadcast going on for ever: whatever the
      buffer and the connection report, a run with such a tick ends it. */
  lemma {:induction false} GoneEndsInRun(l: Life, events: seq<Event>, delay: nat)
    requires l.encoder.Left? && l.egress.On? && !l.plan.Ended?
    requires forall e :: e in events ==> StaysAway(e, delay)
    requires exists e :: e in events && TooLate(l, e, delay)
    ensures Closes(l, events)
    decreases |events|
  {
    var e := events[0];
    assert e in events;
    if TooLate(l, e, delay) {
      GoneEnds(l, e.now, e.f, e.starts);
    } else if !(Discard in Step(l, e).effects || RestartAfterEnd in Step(l, e).effects) {
      GoesOnGone(l, e, delay);
      var late :| late in events && TooLate(l, late, delay);
      assert late in events[1..] && TooLate(Step(l, e).life, late, delay);
      GoneEndsInRun(Step(l, e).life, events[1..], delay);
    }
  }

  /** Until then the connection and the encoder's leaving stay as they are. */
  lemma GoesOnGone(l: Life, e: Event, delay: nat)
    requires l.encoder.Left? && l.egress.On? && !l.plan.Ended? && StaysAway(e, delay)
    requires Discard !in Step(l, e).effects && RestartAfterEnd !in Step(l, e).effects
    ensures var l' := Step(l, e).life;
      l'.encoder == l.encoder && l'.egress == l.egress && l'.grace == l.grace && !l'.plan.Ended?
  {
  }

  /** What a live broadcast goes on through: neither its encoder nor the streamer ends it, and it
      has a destination. */
  predicate Undisturbed(e: Event) {
    && !e.EndNow? && !e.EndAfterAir? && !e.DestinationChanged? && !e.Leave?
    && (e.Tick? ==> e.f.destination)
  }

  /** Over any such run, whatever the buffer and the destination report, its connection runs. */
  lemma {:induction false} StreamsOn(l: Life, s: Seen, events: seq<Event>)
    requires Rules(l, s) && l.egress.On? && l.plan.Live? && l.encoder.Publishing?
    requires forall e :: e in events ==> Undisturbed(e)
    ensures var (l', s') := Run(l, s, events); l'.egress == l.egress && l'.plan.Live? && s'.running
    decreases |events|
  {
    if events != [] {
      assert events[0] in events;
      StreamingGoesOn(l, events[0]);
      StepKeeps(l, s, events[0]);
      assert Step(l, events[0]).life == l;
      hide Step, Watch, Rules;
      StreamsOn(Step(l, events[0]).life, Watch(l, s, events[0]), events[1..]);
    }
  }

  /** Output is wanted at most three seconds before something published is as old as the delay. */
  predicate Wanted(events: seq<Event>, k: nat)
    requires k < |events| && events[k].Tick?
  {
    exists j :: 0 <= j < k && events[j].Publish? && events[j].now + events[k].f.delay <= events[k].now + 3_000
  }

  predicate InTime(events: seq<Event>) {
    forall k :: 0 <= k < |events| && events[k].Tick? && events[k].f.outputWanted ==> Wanted(events, k)
  }

  /** From the start, with output wanted only in time, the streamer ends the stream after air at
      the last of `before`, so that it is to end at the mark, and yet, with nothing that makes it
      go on, `after` starts a new broadcast. */
  ghost predicate ForgetsEnd(grace: nat, before: seq<Event>, after: seq<Event>) {
    && before != [] && before[|before| - 1].EndAfterAir?
    && InTime(before + after)
    && var l := Run(Fresh(grace), Seen(false, false), before).0;
       l.plan.EndAtMark? && NeverGoesOn(l, after) && !StartsOnlyToEnd(l, after)
  }

  /** Nothing buffered: before anything is, or once it was thrown away. */
  const NOTHING := Facts(true, false, false, true, true, false, false, false, 60_000)

  /** Something buffered that is due, and not sent: there is no connection. */
  const DUE := Facts(true, true, false, true, false, true, true, false, 60_000)

  /** That last exception is real: the encoder is lost and the destination cannot be reached;
      once the encoder reconnects by itself, never stopped and with no resume, a new broadcast
      starts. */
  lemma EndCanBeForgotten()
    ensures exists grace, before, after :: ForgetsEnd(grace, before, after)
  {
    var before := [Publish(0, false, NOTHING), Tick(57_000, DUE, true), Leave(60_000, false),
                   EndAfterAir(60_000, DUE)];
    var after := [Tick(90_000, DUE, true), Publish(91_000, false, NOTHING.(hasMark := true)),
                  Tick(148_000, DUE, true)];
    var grace, l := 30_000, Life(Left(60_000, false), EndAtMark(150_000), On(57_000), 30_000);
    EndsAfterAir(grace);
    StartsAnew(l, after);
    AllInTime(before, after);
    assert ForgetsEnd(grace, before, after);
  }

  /** Lost, back by itself, and on air again. */
  lemma StartsAnew(l: Life, after: seq<Event>)
    requires l == Life(Left(60_000, false), EndAtMark(150_000), On(57_000), 30_000)
    requires after == [Tick(90_000, DUE, true), Publish(91_000, false, NOTHING.(hasMark := true)),
                       Tick(148_000, DUE, true)]
    ensures NeverGoesOn(l, after) && !StartsOnlyToEnd(l, after)
  {
    var l2 := Step(l, after[0]).life;
    assert l2 == Life(Idle(false), Live, Off, 30_000);
    assert after[1..][1..] == [after[2]] && after[1..][0] == after[1];
    assert Starts(Step(l2, after[1]).life, after[2]);
    assert !StartsOnlyToEnd(Step(l2, after[1]).life, [after[2]]);
    assert !StartsOnlyToEnd(l2, after[1..]);
    assert NeverGoesOn(Step(l2, after[1]).life, [after[2]]) && NeverGoesOn(l2, after[1..]);
  }

  lemma AllInTime(before: seq<Event>, after: seq<Event>)
    requires before == [Publish(0, false, NOTHING), Tick(57_000, DUE, true), Leave(60_000, false),
                        EndAfterAir(60_000, DUE)]
    requires after == [Tick(90_000, DUE, true), Publish(91_000, false, NOTHING.(hasMark := true)),
                       Tick(148_000, DUE, true)]
    ensures InTime(before + after)
  {
    var events := before + after;
    assert events[0] == before[0] && events[5] == after[1];
    assert events[1] == before[1] && events[4] == after[0] && events[6] == after[2];
    assert Wanted(events, 1) && Wanted(events, 4) && Wanted(events, 6);
  }

  /** An encoder lost soon after its broadcast starts, which is then to end after it has aired. */
  lemma EndsAfterAir(grace: nat)
    requires grace == 30_000
    ensures var events := [Publish(0, false, NOTHING), Tick(57_000, DUE, true), Leave(60_000, false),
                           EndAfterAir(60_000, DUE)];
      Run(Fresh(grace), Seen(false, false), events).0
      == Life(Left(60_000, false), EndAtMark(150_000), On(57_000), grace)
  {
    var events := [Publish(0, false, NOTHING), Tick(57_000, DUE, true), Leave(60_000, false),
                   EndAfterAir(60_000, DUE)];
    var s0 := Seen(false, false);
    var l0 := Fresh(grace);
    var l1, s1 := Step(l0, events[0]).life, Watch(l0, s0, events[0]);
    assert l1 == Life(Publishing, Live, Off, grace);
    var l2, s2 := Step(l1, events[1]).life, Watch(l1, s1, events[1]);
    assert l2 == Life(Publishing, Live, On(57_000), grace);
    var l3, s3 := Step(l2, events[2]).life, Watch(l2, s2, events[2]);
    var l4, s4 := Step(l3, events[3]).life, Watch(l3, s3, events[3]);
    assert Run(l0, s0, events) == Run(l1, s1, events[1..]);
    assert events[1..][0] == events[1] && events[1..][1..] == events[2..];
    assert Run(l1, s1, events[1..]) == Run(l2, s2, events[2..]);
    assert events[2..][0] == events[2] && events[2..][1..] == events[3..];
    assert Run(l2, s2, events[2..]) == Run(l3, s3, events[3..]);
    assert events[3..][0] == events[3] && events[3..][1..] == [];
    assert Run(l3, s3, events[3..]) == Run(l4, s4, []);
  }
}
