/** The lifecycle as it runs: its methods update the encoder, the plan and the connection in
    place and collect what the core is to do. Each does exactly one step of the rules. */
module Lifecycle {
  import opened BroadcastRules

  class Lifecycle {
    var encoder: Encoder
    var plan: Plan
    var egress: Egress
    const grace: nat

    ghost function Value(): Life
      reads this
    {
      Life(encoder, plan, egress, grace)
    }

    constructor (grace: nat)
      ensures Value() == Fresh(grace)
    {
      this.grace, encoder, plan, egress := grace, Idle(true), Live, Off;
    }

    /** The connection is stopped, if there is one. */
    method Stop(fx: seq<Effect>, how: Effect) returns (r: seq<Effect>)
      modifies `egress
      ensures egress == Off && r == fx + Stopped(old(Value()), how).effects
    {
      r := fx;
      if egress.On? {
        egress := Off;
        r := fx + [how];
      }
    }

    method Finish(fx: seq<Effect>) returns (r: seq<Effect>)
      modifies this
      ensures Value() == Finished(old(Value())).life && r == fx + Finished(old(Value())).effects
    {
      r := Stop(fx, StopEgress);
      r := r + [Discard];
      if encoder.Left? {
        encoder := Idle(encoder.stopped);
      }
      if plan.AtMark() {
        plan := Live;
      }
    }

    method DestinationChanged() returns (fx: seq<Effect>)
      modifies this
      ensures Value() == Step(old(Value()), Event.DestinationChanged).life
      ensures fx == Step(old(Value()), Event.DestinationChanged).effects
    {
      fx := Stop([], StopEgress);
    }

    method EndNow() returns (fx: seq<Effect>)
      modifies this
      ensures Value() == Step(old(Value()), Event.EndNow).life && fx == Step(old(Value()), Event.EndNow).effects
    {
      fx := Stop([Discard], AbortEgress);
      plan := Ended;
    }

    method EndAfterAir(now: nat, f: Facts) returns (fx: seq<Effect>)
      modifies this
      ensures Value() == Step(old(Value()), Event.EndAfterAir(now, f)).life
      ensures fx == Step(old(Value()), Event.EndAfterAir(now, f)).effects
    {
      fx := [];
      match plan
      case Ended =>
      case EndAtMark(_) =>
      case RestartAtMark(deadline) =>
        plan := EndAtMark(deadline);
      case Live =>
        var nothingToAir := !f.destination || (f.drained && egress.Off?);
        if f.hasMark && !nothingToAir {
          fx := [MarkEnd];
          plan := EndAtMark(Deadline(now, f));
        } else {
          fx := Finish(fx);
          plan := Ended;
        }
    }

    method Resume() returns (fx: seq<Effect>)
      modifies this
      ensures Value() == Step(old(Value()), Event.Resume).life && fx == Step(old(Value()), Event.Resume).effects
    {
      fx := [];
      match plan
      case Ended =>
        fx := [Discard];
        plan := Live;
      case EndAtMark(_) =>
        fx := [CancelEnd];
        plan := Live;
      case _ =>
    }

    method Publishes(now: nat, takeover: bool, f: Facts) returns (fx: seq<Effect>)
      modifies this
      ensures Value() == Step(old(Value()), Publish(now, takeover, f)).life
      ensures fx == Step(old(Value()), Publish(now, takeover, f)).effects
    {
      fx := [];
      var stoppedBefore := match encoder
        case Publishing => false
        case Left(_, stopped) => stopped && !takeover
        case Idle(stopped) => stopped && !takeover;
      var newStream := encoder.Left? && encoder.stopped;
      if newStream && egress.On? {
        match plan
        case Live =>
          if f.hasMark {
            fx := [MarkEnd];
            plan := RestartAtMark(Deadline(now, f));
          }
        case EndAtMark(deadline) =>
          plan := RestartAtMark(deadline);
        case _ =>
      }
      encoder := Publishing;
      if plan == Ended && stoppedBefore {
        plan := Live;
      }
    }

    method EncoderLeft(now: nat, stopped: bool)
      modifies this
      ensures Value() == Step(old(Value()), Leave(now, stopped)).life
    {
      if encoder == Publishing {
        encoder := Left(now, stopped);
      }
    }

    method Started(now: nat)
      modifies `egress
      ensures egress == On(now)
    {
      egress := On(now);
    }

    method StartFailed(now: nat) returns (fx: seq<Effect>)
      modifies this
      ensures Value() == BroadcastRules.StartFailed(old(Value()), now).life
      ensures fx == BroadcastRules.StartFailed(old(Value()), now).effects
    {
      fx := [];
      if Gone(now) {
        fx := Finish(fx);
      }
    }

    predicate Gone(now: nat)
      reads this
    {
      encoder.Left? && grace <= Elapsed(now, encoder.since)
    }

    /** Decides what the connection should do now; `start`: it is to be started. */
    method Tick(now: nat, f: Facts) returns (start: bool, fx: seq<Effect>)
      modifies this
      ensures var c := Ticked(old(Value()), now, f);
        Value() == c.life && fx == c.effects && start == c.wanted
    {
      start, fx := false, [];
      if !f.destination {
        fx := Stop(fx, StopEgress);
        return;
      }
      var done;
      done, fx := CheckMark(now, f);
      if done {
        return;
      }
      var gone := Gone(now);
      if egress.Off? {
        if gone && (plan == Ended || !f.hasBuffered) {
          fx := Finish(fx);
        } else if plan != Ended && f.outputWanted {
          start := true;
        }
        return;
      }
      if !encoder.Left? || !(gone || encoder.stopped) {
        return;
      }
      if f.connected && f.drained && f.backlogEmpty {
        fx := Finish(fx);
      } else if !f.connected {
        if gone && grace <= Elapsed(now, egress.since) {
          fx := Finish([Explain(Unreachable)]);
        }
      } else {
        var due := if encoder.stopped then f.delay else if grace < f.delay then f.delay else grace;
        if due + DRAIN_SLACK <= Elapsed(now, encoder.since) {
          fx := Finish([Explain(NotTakingData)]);
        }
      }
    }

    /** Does what the end mark calls for, if it is due. */
    method CheckMark(now: nat, f: Facts) returns (done: bool, fx: seq<Effect>)
      modifies this
      ensures done == MarkDue(old(Value()), now, f)
      ensures done ==> Value() == AtMarkEnded(old(Value())).life && fx == AtMarkEnded(old(Value())).effects
      ensures !done ==> Value() == old(Value()) && fx == []
    {
      done, fx := false, [];
      if !plan.AtMark() {
        return;
      }
      var aired := f.endReached && f.backlogEmpty;
      if !aired && now < plan.deadline {
        return;
      }
      if plan.RestartAtMark? {
        fx := Stop(fx, StopEgress);
        fx := fx + [RestartAfterEnd];
        plan := Live;
      } else {
        fx := Finish(fx);
        plan := Ended;
      }
      done := true;
    }

    /** One tick of the core: a connection asked for is started, or fails to. */
    method Manage(now: nat, f: Facts, starts: bool) returns (fx: seq<Effect>)
      modifies this
      ensures Value() == Step(old(Value()), Event.Tick(now, f, starts)).life
      ensures fx == Step(old(Value()), Event.Tick(now, f, starts)).effects
    {
      var start;
      start, fx := Tick(now, f);
      if start {
        if starts {
          Started(now);
        } else {
          var failed := StartFailed(now);
          fx := fx + failed;
        }
      }
    }
  }
}
