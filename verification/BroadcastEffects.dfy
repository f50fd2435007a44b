/** What the broadcast's life cycle does, effect by effect: each happens in exactly the cases given
    here, in terms of times and reports alone. */
module BroadcastEffects {
  import opened BroadcastRules

  /** The encoder has been gone for the grace period. */
  predicate LeftFor(l: Life, span: nat, now: nat) { l.encoder.Left? && Past(span, l.encoder.since, now) }

  /** The end mark is due: all up to it has aired, or its time is up. */
  predicate AtDueMark(l: Life, now: nat, f: Facts) {
    match l.plan
    case EndAtMark(deadline) => deadline <= now || (f.endReached && f.backlogEmpty)
    case RestartAtMark(deadline) => deadline <= now || (f.endReached && f.backlogEmpty)
    case _ => false
  }

  /** At a tick with a destination and no mark due, a stream whose encoder has left is over: off
      air, once the grace period is and there is nothing to go on with; on air, once all has
      aired, or it cannot be. */
  predicate Over(l: Life, now: nat, f: Facts) {
    match l.egress
    case Off => LeftFor(l, l.grace, now) && (l.plan.Ended? || !f.hasBuffered)
    case On(since) =>
      && (LeftFor(l, l.grace, now) || (l.encoder.Left? && l.encoder.stopped))
      && if f.connected then (f.drained && f.backlogEmpty) || NotTaken(l, now, f)
         else LeftFor(l, l.grace, now) && Past(l.grace, since, now)
  }

  /** The destination has had the delay (and the grace period, for an encoder that may come back)
      and half a minute to take the rest. */
  predicate NotTaken(l: Life, now: nat, f: Facts) {
    && LeftFor(l, f.delay + 30_000, now)
    && (!l.encoder.stopped ==> LeftFor(l, l.grace + 30_000, now))
  }

  /** The connection is to be started: none runs, something is due, and the stream neither has
      ended nor is over. */
  predicate WantsStart(l: Life, now: nat, f: Facts) {
    && f.destination && f.outputWanted && l.egress.Off? && !l.plan.Ended? && !AtDueMark(l, now, f)
    && !Over(l, now, f)
  }

  /** The stream ends with what had not aired thrown away, its connection stopped cleanly. */
  predicate Finishes(l: Life, e: Event) {
    match e
    case EndAfterAir(_, f) =>
      l.plan.Live? && !(f.hasMark && f.destination && !(f.drained && l.egress.Off?))
    case Tick(now, f, starts) =>
      f.destination &&
      if AtDueMark(l, now, f) then l.plan.EndAtMark?
      else Over(l, now, f) || (WantsStart(l, now, f) && !starts && LeftFor(l, l.grace, now))
    case _ => false
  }

  // ----- connections ------------------------------------------------------------------

  /** A connection is reset exactly when the streamer ends the stream at once. */
  lemma AbortsExactly(l: Life, e: Event)
    ensures AbortEgress in Step(l, e).effects <==> e.EndNow? && l.egress.On?
    ensures e.EndNow? ==> Step(l, e).effects == if l.egress.On? then [Discard, AbortEgress] else [Discard]
  {
  }

  /** A connection is stopped cleanly exactly when it has no destination any more, its stream ends
      otherwise, or the next broadcast is to start at the mark. */
  lemma StopsExactly(l: Life, e: Event)
    ensures StopEgress in Step(l, e).effects <==>
      && l.egress.On?
      && (|| e.DestinationChanged? || (e.Tick? && !e.f.destination) || Finishes(l, e)
          || (e.Tick? && e.f.destination && l.plan.RestartAtMark? && AtDueMark(l, e.now, e.f)))
  {
  }

  /** It is running afterwards exactly if it was and was not ended, or was started. */
  lemma RunsExactly(l: Life, e: Event)
    ensures var c := Step(l, e);
      && (c.wanted <==> e.Tick? && WantsStart(l, e.now, e.f))
      && c.life.egress ==
         (if c.wanted && e.starts then On(e.now)
          else if StopEgress in c.effects || AbortEgress in c.effects then Off
          else l.egress)
  {
  }

  /** Whatever came before, once an observer of the effects has seen a connection start and not
      end, End stream now resets it, after throwing the buffer away; no clean stop ends it. */
  lemma EndNowResets(grace: nat, events: seq<Event>)
    ensures var (l, s) := Run(Fresh(grace), Seen(false, false), events);
      && Step(l, EndNow).effects == (if s.running then [Discard, AbortEgress] else [Discard])
      && Step(l, EndNow).life.egress.Off? && Step(l, EndNow).life.plan.Ended?
  {
    RulesHoldFromStart(grace, events);
  }

  /** Over any run, every connection reset was reset by End stream now. */
  predicate ResetsOnlyAtEndNow(l: Life, events: seq<Event>)
    decreases |events|
  {
    events == [] ||
    (&& (AbortEgress in Step(l, events[0]).effects <==> events[0].EndNow? && l.egress.On?)
     && (events[0].EndNow? ==> StopEgress !in Step(l, events[0]).effects)
     && ResetsOnlyAtEndNow(Step(l, events[0]).life, events[1..]))
  }

  lemma {:induction false} ResetsInRun(l: Life, events: seq<Event>)
    ensures ResetsOnlyAtEndNow(l, events)
    decreases |events|
  {
    if events != [] {
      AbortsExactly(l, events[0]);
      ResetsInRun(Step(l, events[0]).life, events[1..]);
    }
  }

  // ----- the buffer and its end mark --------------------------------------------------

  /** The buffer is thrown away exactly when the stream ends, now or otherwise, or a stream that
      has ended goes on on a resume. */
  lemma DiscardsExactly(l: Life, e: Event)
    ensures Discard in Step(l, e).effects <==> e.EndNow? || Finishes(l, e) || (e.Resume? && l.plan.Ended?)
  {
  }

  /** The engine gets an end mark exactly when a stream on air is to end after what is buffered,
      or a new one comes after one stopped on purpose that is still on air; it is taken back
      exactly on a resume, and makes way for the next broadcast exactly when it is due. */
  lemma MarksExactly(l: Life, e: Event)
    ensures var fx := Step(l, e).effects;
      && (MarkEnd in fx <==> NewEnd(l, e) || NewBroadcast(l, e))
      && (CancelEnd in fx <==> e.Resume? && l.plan.EndAtMark?)
      && (BroadcastRules.RestartAfterEnd in fx <==>
            e.Tick? && e.f.destination && l.plan.RestartAtMark? && AtDueMark(l, e.now, e.f))
  {
  }

  predicate NewEnd(l: Life, e: Event) { e.EndAfterAir? && l.plan.Live? && !Finishes(l, e) }

  predicate NewBroadcast(l: Life, e: Event) {
    e.Publish? && l.encoder.Left? && l.encoder.stopped && l.egress.On? && l.plan.Live? && e.f.hasMark
  }

  /** The streamer is told why a stream ended early: its destination could not be reached, or
      stopped taking data. */
  lemma ExplainsExactly(l: Life, e: Event)
    ensures var fx, ends := Step(l, e).effects, e.Tick? && Finishes(l, e) && l.egress.On? && !AtDueMark(l, e.now, e.f);
      && (Explain(Unreachable) in fx <==> ends && !e.f.connected)
      && (Explain(NotTakingData) in fx <==> ends && e.f.connected && !(e.f.drained && e.f.backlogEmpty))
  {
  }

  // ----- the state --------------------------------------------------------------------

  /** An encoder leaves exactly when it was there; one that left is forgotten exactly when its
      stream ends otherwise than at once, and what is known of it is how it left. */
  lemma EncoderExactly(l: Life, e: Event)
    ensures Step(l, e).life.encoder ==
      (if e.Publish? then Publishing
       else if e.Leave? && l.encoder.Publishing? then Left(e.now, e.stopped)
       else if l.encoder.Left? && Finishes(l, e) then Encoder.Idle(l.encoder.stopped)
       else l.encoder)
  {
  }

  /** What a stream's end will be. The deadline of a mark is the delay and half a minute after it
      is set. */
  lemma PlanExactly(l: Life, e: Event)
    ensures Step(l, e).life.plan ==
      (if e.EndNow? || (e.EndAfterAir? && Finishes(l, e)) then Ended
       else if e.Tick? && e.f.destination && AtDueMark(l, e.now, e.f) then
         if l.plan.EndAtMark? then Ended else Live
       else if Finishes(l, e) then if l.plan.Ended? then Ended else Live
       else if NewEnd(l, e) then EndAtMark(e.now + e.f.delay + 30_000)
       else if NewBroadcast(l, e) then RestartAtMark(e.now + e.f.delay + 30_000)
       else if e.EndAfterAir? && l.plan.RestartAtMark? then EndAtMark(l.plan.deadline)
       else if e.Publish? && l.encoder.Left? && l.encoder.stopped && l.egress.On? && l.plan.EndAtMark? then
         RestartAtMark(l.plan.deadline)
       else if e.Resume? && (l.plan.Ended? || l.plan.EndAtMark?) then Live
       else if GoesOn(l, e) && l.plan.Ended? then Live
       else l.plan)
  {
  }

  /** Before any encoder has come, the next one's stream counts as started on purpose. */
  lemma FirstStreamIsOnPurpose(grace: nat, now: nat, f: Facts)
    ensures var ended := Step(Fresh(grace), EndNow).life;
      Step(ended, Publish(now, false, f)).life.plan.Live? && Step(ended, Publish(now, true, f)).life.plan.Ended?
  {
  }
}
