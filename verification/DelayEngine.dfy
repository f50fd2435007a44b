/** The delay engine as a class over a ring of timed messages with a cursor: each operation's
    contract says what it does to both, and all keep one invariant, `Valid`. */
module DelayEngine {
  import opened Wrappers
  import opened EngineTypes
  import opened Ring
  import opened Trace
  import opened EngineState
  import opened EngineLemmas

  /** How far a change is from its end, for termination: a change only ever turns into
      one of lower rank, or (coming down to a delay) moves the cursor forward. */
  function Rank(p: Pending): nat {
    match p
    case Idle | Reduce(_) => 0
    case GoLiveNow(_) | Mask(_, _, _, _, _, _) => 1
    case AfterAir(_) | Hold(_, _) => 2
    case Dump(_, _, _, _) | Replay(_, _) => 3
  }

  datatype Step = Stop | Again | Go

  class Engine {
    var config: Config
    var buf: Buffer
    var enc: Encoder
    var wire: Wire
    var at: Cursor
    var plan: Plan
    /** Everything handed over so far: the caller's vector, never drained. */
    var sent: seq<OutMsg>
    ghost var log: Ledger

    /** Everything but what depends on the pending change. */
    ghost predicate Core()
      reads this
    {
      && buf.Ok(log.clock)
      && enc.Ok(buf.ring)
      && (log.limitsHeld ==> HeadersOk(buf, enc))
      && ChainOk(buf, enc)
      && Ready(buf, enc, wire, at, sent, log.limitsHeld, log.cursorCfg, log.consumed)
      && Continuous(log.consumed)
      && PositionOk(buf, wire.unused, at, plan, config.maxDelayMs * 1000)
      && (at.session.Some? ==> at.session.value < enc.nextSession)
      && WireOk(wire, sent, log.limitsHeld)
      && ErasedOk(buf, log.erased)
      && TookOk(log.took, log.limitsHeld)
      && HistoryOk(buf, enc, sent, log.arrived, log.consumed)
    }

    ghost predicate Valid()
      reads this
    {
      && Core()
      && HoldOk(plan.hold, log.arrived, log.erased)
      && plan.Ok(at.needSync, log.clock)
      && AnchorOk(buf, plan.pending)
      && plan.Promises(log.floor)
    }

    constructor (config: Config)
      ensures Valid()
      ensures sent == [] && log == Ledger(0, true, map[], [], 0, {}, [], [], []) && this.config == config
      ensures buf == Buffer([], [], 0, 0, 0, 0) && enc == Encoder([], 0, false, 1, 2_000_000, 0, map[], 0)
      ensures !wire.connected && wire.generation == 0 && wire.unused && wire.lastKindTs == map[]
      ensures at == Cursor(0, 0, true, None, None, None, false, false)
      ensures plan == Plan(false, 0, 0, Idle, None, false, 0, None)
    {
      this.config := config;
      buf := Buffer([], [], 0, 0, 0, 0);
      enc := Encoder([], 0, false, 1, 2 * SEC, 0, map[], 0);
      wire := Wire(false, 0, 0, true, 0, map[], 0, map[], None, None);
      at := Cursor(0, 0, true, None, None, None, false, false);
      plan := Plan(false, 0, 0, Idle, None, false, 0, None);
      sent := [];
      log := Ledger(0, true, map[], [], 0, {}, [], [], []);
      new;
      hide HeadersOk, ChainOk, Ready, Continuous, WireOk, ErasedOk, Buffer.Ok, Encoder.Ok, TookOk, HistoryOk;
      NothingYetOk(buf, enc, wire, at, log);
    }

    /** Jumps to keyframe `k`, which comes a frame after all that was sent; what follows goes
        on from there, `delay` late. */
    method SpliceTo(k: nat, delay: Time)
      requires Core() && k in buf.syncs
      modifies `wire, `at, `plan
      ensures Core()
      ensures wire == old(wire).(unused := false)
      ensures buf.Has(k) && var e := buf.At(k);
              at == SplicedTo(e, old(wire).StartTs(enc.FrameMs(e.session), e.cts))
      ensures plan == old(plan).(started := true, delay := delay)
      ensures at.num == k && !at.needSync
    {
      hide HeadersOk, ChainOk, Ready, Continuous, WireOk, ErasedOk, Buffer.Ok, Encoder.Ok, TookOk, HistoryOk;
      SyncKnown(buf, log.clock, k);
      SessionPast(buf, enc, k);
      var e := buf.At(k);
      var frame := enc.FrameMs(e.session);
      SpliceStarts(buf, enc, wire, sent, log.limitsHeld, k, frame, log.cursorCfg, log.consumed);
      at := SplicedTo(e, wire.StartTs(frame, e.cts));
      wire := wire.(unused := false);
      plan := plan.(started := true, delay := delay);
    }

    /** The held frame goes; its last showing's share of time counts as sent. */
    method EndHold(now: Time)
      requires Core() && (plan.hold.Some? ==> plan.hold.value.last <= now)
      modifies `wire, `plan
      ensures Core()
      ensures plan == old(plan).(hold := None)
      ensures wire == old(wire).(lastOutTs := old(wire).lastOutTs +
                if old(plan).hold.Some? then (now - old(plan).hold.value.last) / 1000 else 0)
    {
      hide HeadersOk, ChainOk, Ready, Continuous, WireOk, ErasedOk, Buffer.Ok, Encoder.Ok, TookOk, HistoryOk;
      if plan.hold.Some? {
        LaterOk(buf, enc, wire, at, sent, log.limitsHeld, log.cursorCfg, log.consumed,
                wire.lastOutTs + (now - plan.hold.value.last) / MS);
        wire := wire.(lastOutTs := wire.lastOutTs + (now - plan.hold.value.last) / MS);
        plan := plan.(hold := None);
      }
    }

    /** Ends a hold with a splice to keyframe `k`, `age` old; `next` is pending after it. */
    method LeaveHold(now: Time, k: nat, age: Time, next: Pending)
      requires Valid() && now == log.clock && (plan.pending.Hold? || plan.pending.Dump?) && k in buf.syncs
      requires next == Idle || (next.Mask? && next.anchor == Some(k) && k < buf.next)
      requires 0 < log.floor ==> next.Idle? && log.floor <= age
      modifies `wire, `at, `plan
      ensures Valid() && MovedAlong(old(wire), wire, old(plan), plan)
      ensures at.num == k && !at.needSync && at.atSplice
      ensures plan == old(plan).(started := true, delay := age, pending := next, hold := None)
    {
      hide HeadersOk, ChainOk, Ready, Continuous, WireOk, ErasedOk, Buffer.Ok, Encoder.Ok, TookOk, HistoryOk;
      EndHold(now);
      SpliceTo(k, age);
      plan := plan.(pending := next);
    }

    /** The pending change has nothing to do yet. */
    predicate Still(now: Time)
      reads `config, `buf, `at, `plan
    {
      match plan.pending
      case Idle => true
      case GoLiveNow(afterSeq) => buf.syncs == [] || buf.syncs[|buf.syncs| - 1] <= afterSeq
      case AfterAir(markSeq) => at.num <= markSeq
      case Reduce(d) => d + 500_000 <= plan.delay && SkipsTo(now, d).None?
      case Mask(d, _, anchor, _, _, _) =>
        AnchorNow(now).None? || (anchor.Some? && buf.base <= anchor.value && !Due(now, anchor.value, d))
      case Dump(_, began, _, shown) =>
        if shown.None? then now < began + 2_000_000
        else buf.FirstArrivedFrom(shown.value + config.maskMarginMs * 1000).None?
      case Hold(_, d) => if HeldUntil().None? then plan.endMark.None? else !Due(now, HeldUntil().value, d)
      case Replay(_, d) => HeldUntil().None? || !Due(now, HeldUntil().value, d)
    }

    /** Moves a pending change along. */
    method RunPending(now: Time)
      requires Valid() && now == log.clock
      modifies `wire, `at, `plan
      ensures Valid() && MovedAlong(old(wire), wire, old(plan), plan)
      ensures Rank(plan.pending) < Rank(old(plan.pending))
           || (Rank(plan.pending) == Rank(old(plan.pending)) && old(at.num) <= at.num)
      ensures old(Still(now)) ==> plan == old(plan) && at == old(at) && wire == old(wire)
      ensures old(Aired()) ==> plan == old(GoingLive()) && at == old(at) && wire == old(wire)
      ensures Still(now)
    {
      hide HeadersOk, ChainOk, Ready, Continuous, WireOk, ErasedOk, Buffer.Ok, Encoder.Ok, TookOk, HistoryOk;
      hide HoldOk, AnchorOk, Plan.Ok, Plan.Promises, Engine.Still, Engine.Aired, Engine.GoingLive;
      var again := true;
      while again
        invariant Valid() && MovedAlong(old(wire), wire, old(plan), plan)
        invariant old(Still(now)) ==> plan == old(plan) && at == old(at) && wire == old(wire)
        invariant old(Aired()) ==> at == old(at) && wire == old(wire)
        invariant !again ==> Still(now)
        invariant old(Aired()) ==> (again && plan == old(plan)) || (plan == old(GoingLive()) && Still(now))
        invariant Rank(plan.pending) < Rank(old(plan.pending))
               || (Rank(plan.pending) == Rank(old(plan.pending)) && old(at.num) <= at.num)
        decreases again, Rank(plan.pending)
      {
        again := MoveAlong(now);
      }
    }

    /** All that was to air before going live has. */
    predicate Aired()
      reads `at, `plan
    {
      plan.pending.AfterAir? && plan.pending.markSeq < at.num
    }

    /** The plan once all that was to air has: going live. */
    function GoingLive(): Plan
      reads `buf, `plan
    {
      plan.(pending := GoLiveNow(Monus(buf.next, 1)))
    }

    /** One step of a pending change; `again`: another change has taken its place. */
    method MoveAlong(now: Time) returns (again: bool)
      requires Valid() && now == log.clock
      modifies `wire, `at, `plan
      ensures Valid() && MovedAlong(old(wire), wire, old(plan), plan)
      ensures Rank(plan.pending) < Rank(old(plan.pending))
           || (Rank(plan.pending) == Rank(old(plan.pending)) && old(at.num) <= at.num && !again)
      ensures old(Still(now)) ==> plan == old(plan) && at == old(at) && wire == old(wire) && !again
      ensures old(Aired()) ==> plan == old(GoingLive()) && at == old(at) && wire == old(wire) && Still(now)
      ensures !again ==> Still(now)
    {
      hide HeadersOk, ChainOk, Ready, Continuous, WireOk, ErasedOk, Buffer.Ok, Encoder.Ok, TookOk, HistoryOk;
      hide HoldOk, Engine.Jumped;
      again := false;
      match plan.pending {
        case Idle =>
        case GoLiveNow(_) => RunGoLive(now);
        case AfterAir(markSeq) =>
          if markSeq < at.num {
            NewestKnown(buf, log.clock);
            plan := plan.(pending := GoLiveNow(Monus(buf.next, 1)));
            again := true;
          }
        case Reduce(_) => RunReduce(now);
        case Mask(_, _, _, _, _, _) => RunMask(now);
        case Dump(_, _, _, _) => again := RunDump(now);
        case Hold(_, _) => RunHold(now);
        case Replay(_, _) => RunReplay(now);
      }
    }

    /** The output has jumped to keyframe `k`, to go on as late as that is old. */
    predicate Jumped(now: Time, k: nat)
      reads `buf, `at, `plan
    {
      at.num == k && !at.needSync && at.atSplice && buf.Has(k) && plan.delay == Monus(now, buf.At(k).arrival)
    }

    /** The first keyframe after a dump that is to air. */
    function HeldUntil(): Option<nat>
      requires plan.pending.Hold? || plan.pending.Replay?
      reads `buf, `plan
    {
      var k := buf.FirstFrom(plan.pending.from);
      if plan.pending.Hold? && k.Some? && plan.endMark.Some? && plan.endMark.value < k.value then None else k
    }

    /** Keyframe `k` is at least `d` old. */
    predicate Due(now: Time, k: nat, d: Time)
      reads `buf
    {
      buf.Has(k) && buf.At(k).arrival + d <= now
    }

    /** Going live: splices to the newest keyframe, if it came after the change. */
    method RunGoLive(now: Time)
      requires Valid() && now == log.clock && plan.pending.GoLiveNow?
      modifies `wire, `at, `plan
      ensures Valid() && MovedAlong(old(wire), wire, old(plan), plan)
      ensures Still(now)
      ensures var live := buf.syncs != [] && old(plan).pending.afterSeq < buf.syncs[|buf.syncs| - 1];
              && (!live ==> plan == old(plan) && at == old(at) && wire == old(wire))
              && (live ==> plan.pending.Idle?)
              && (live && (old(at).num < buf.syncs[|buf.syncs| - 1] || old(at).needSync) ==>
                    Jumped(now, buf.syncs[|buf.syncs| - 1]))
              && (live && buf.syncs[|buf.syncs| - 1] <= old(at).num && !old(at).needSync ==>
                    at == old(at) && plan.delay == Min(old(plan).delay, plan.target))
    {
      hide HeadersOk, ChainOk, Ready, Continuous, WireOk, ErasedOk, Buffer.Ok, Encoder.Ok, TookOk, HistoryOk;
      if buf.syncs == [] || buf.syncs[|buf.syncs| - 1] <= plan.pending.afterSeq {
        return;
      }
      var k := buf.syncs[|buf.syncs| - 1];
      if at.num < k || at.needSync {
        SyncKnown(buf, log.clock, k);
        SpliceTo(k, Monus(now, buf.At(k).arrival));
      } else {
        plan := plan.(delay := Min(plan.delay, plan.target));
      }
      plan := plan.(pending := Idle);
    }

    /** Not the last keyframe, and closer to the one before than a skip to it would overshoot
        the delay by: media is missing after `k`, so a skip waits for one more. */
    function GapAfter(k: nat, over: Time): bool
      requires buf.Has(k)
      reads `buf
    {
      var prior := buf.NewestBefore(k);
      && buf.syncs != [] && k < buf.syncs[|buf.syncs| - 1]
      && prior.Some? && buf.Has(prior.value)
      && Monus(buf.At(k).arrival, buf.At(prior.value).arrival) < over
    }

    /** The keyframe a reduction to `d` skips ahead to now, if any. */
    function SkipsTo(now: Time, d: Time): Option<nat>
      reads `buf, `at
    {
      var k := buf.NewestArrivedBy(now - d);
      if k.Some? && at.num < k.value && buf.Has(k.value)
         && !GapAfter(k.value, Monus(Monus(now, buf.At(k.value).arrival), d))
      then k else None
    }

    /** Coming down to a delay: skips to the newest keyframe that old. */
    method RunReduce(now: Time)
      requires Valid() && now == log.clock && plan.pending.Reduce?
      modifies `wire, `at, `plan
      ensures Valid() && MovedAlong(old(wire), wire, old(plan), plan)
      ensures Still(now)
      ensures Rank(plan.pending) == 0 && old(at.num) <= at.num
      ensures var d := old(plan).pending.delay;
              if old(plan).delay < d + 500_000 then at == old(at) && plan == old(plan).(pending := Idle)
              else if old(SkipsTo(now, d)).Some?
              then plan.pending.Idle? && Jumped(now, old(SkipsTo(now, d)).value) && d <= plan.delay
              else at == old(at) && plan == old(plan) && wire == old(wire)
    {
      hide HeadersOk, ChainOk, Ready, Continuous, WireOk, ErasedOk, Buffer.Ok, Encoder.Ok, TookOk, HistoryOk;
      var d := plan.pending.delay;
      if plan.delay < d + 500 * MS {
        plan := plan.(pending := Idle);
        return;
      }
      var newest := buf.NewestArrivedBy(now - d);
      if newest.None? || newest.value <= at.num {
        return;
      }
      var k := newest.value;
      SyncKnown(buf, log.clock, k);
      var age := Monus(now, buf.At(k).arrival);
      if !GapAfter(k, Monus(age, d)) {
        SpliceTo(k, age);
        plan := plan.(pending := Idle);
      }
    }

    /** The keyframe a Mask rewinds to: the first that came once the slate was surely up, a
        margin after an overlay confirmed it or, with none to confirm it for two seconds, after
        the change began. */
    function AnchorNow(now: Time): Option<nat>
      requires plan.pending.Mask?
      reads `config, `buf, `plan
    {
      var p, margin := plan.pending, config.maskMarginMs * 1000;
      if p.anchor.Some? then p.anchor
      else if p.shown.Some? then buf.FirstArrivedFrom(p.shown.value + margin)
      else if p.started + 2_000_000 <= now then buf.FirstArrivedFrom(p.started + margin)
      else None
    }

    /** The pending Mask: rewinds to its anchor once that is as old as the delay. */
    method RunMask(now: Time)
      requires Valid() && now == log.clock && plan.pending.Mask?
      modifies `wire, `at, `plan
      ensures Valid() && MovedAlong(old(wire), wire, old(plan), plan)
      ensures Still(now)
      ensures plan.pending.Idle? || (plan.pending.Mask? && at == old(at))
      ensures var anchor, d := old(AnchorNow(now)), old(plan).pending.delay;
              if anchor.None? then at == old(at) && plan == old(plan) && wire == old(wire)
              else if anchor.value < buf.base then at == old(at) && plan == old(plan).(pending := Idle)
              else if Due(now, anchor.value, d) then plan.pending.Idle? && Jumped(now, anchor.value) && d <= plan.delay
              else at == old(at) && wire == old(wire)
                   && plan == old(plan).(pending := old(plan).pending.(anchor := anchor))
    {
      hide HeadersOk, ChainOk, Ready, Continuous, WireOk, ErasedOk, Buffer.Ok, Encoder.Ok, TookOk, HistoryOk;
      hide Engine.Jumped, Engine.Due, HoldOk, AnchorOk, Plan.Promises, Buffer.FirstArrivedFrom;
      FindAnchor(now);
      if plan.pending.anchor.Some? {
        RunAnchored(now);
      } else {
        assert plan.pending == old(plan).pending;
      }
    }

    /** Takes note of the keyframe a Mask rewinds to, once there is one. */
    method FindAnchor(now: Time)
      requires Valid() && now == log.clock && plan.pending.Mask?
      modifies `plan
      ensures Valid() && plan == old(plan).(pending := old(plan).pending.(anchor := old(AnchorNow(now))))
    {
      hide HeadersOk, ChainOk, Ready, Continuous, WireOk, ErasedOk, Buffer.Ok, Encoder.Ok, TookOk, HistoryOk,
        Buffer.FirstArrivedFrom;
      var p, margin := plan.pending, config.maskMarginMs * MS;
      if p.anchor.Some? || (p.shown.None? && now < p.started + SLATE_CONFIRM_WAIT) {
        return;
      }
      var found := buf.FirstArrivedFrom(if p.shown.Some? then p.shown.value + margin else p.started + margin);
      if found.Some? {
        SyncKnown(buf, log.clock, found.value);
        plan := plan.(pending := p.(anchor := found));
      }
    }

    /** A Mask that has its anchor. */
    method RunAnchored(now: Time)
      requires Valid() && now == log.clock && plan.pending.Mask? && plan.pending.anchor.Some?
      modifies `wire, `at, `plan
      ensures Valid() && MovedAlong(old(wire), wire, old(plan), plan)
      ensures var anchor, d := old(plan).pending.anchor.value, old(plan).pending.delay;
              if anchor < buf.base then at == old(at) && plan == old(plan).(pending := Idle)
              else if Due(now, anchor, d) then plan.pending.Idle? && Jumped(now, anchor) && d <= plan.delay
              else at == old(at) && plan == old(plan) && wire == old(wire)
    {
      hide HeadersOk, ChainOk, Ready, Continuous, WireOk, ErasedOk, Buffer.Ok, Encoder.Ok, TookOk, HistoryOk;
      var anchor, d := plan.pending.anchor.value, plan.pending.delay;
      if anchor < buf.base {
        plan := plan.WithPending(Idle);
        return;
      }
      SyncKnown(buf, log.clock, anchor);
      if buf.At(anchor).arrival + d <= now {
        SpliceTo(anchor, now - buf.At(anchor).arrival);
        plan := plan.WithPending(Idle);
      }
    }

    /** The pending Dump: a confirmed slate lets it go on, a margin later; unconfirmed for two
        seconds, it turns into a hold. */
    method RunDump(now: Time) returns (again: bool)
      requires Valid() && now == log.clock && plan.pending.Dump?
      modifies `wire, `at, `plan
      ensures Valid() && MovedAlong(old(wire), wire, old(plan), plan)
      ensures if again then plan.pending.Hold? || plan.pending.Mask?
              else plan == old(plan) && at == old(at) && wire == old(wire)
      ensures again == if old(plan).pending.shown.None? then old(plan).pending.started + 2_000_000 <= now
                       else buf.FirstArrivedFrom(old(plan).pending.shown.value + config.maskMarginMs * 1000).Some?
      ensures again && old(plan).pending.shown.None? ==>
                && plan == old(plan).(pending := Hold(old(plan).pending.from, old(plan).pending.delay))
                && at == old(at) && wire == old(wire)
      ensures again && old(plan).pending.shown.Some? ==>
                var p := old(plan).pending;
                var anchor := buf.FirstArrivedFrom(p.shown.value + config.maskMarginMs * 1000);
                && anchor.Some? && Jumped(now, anchor.value)
                && plan.pending == Mask(p.delay, p.started, anchor, config.muteUnderSlate, p.shown, true)
    {
      hide HeadersOk, ChainOk, Ready, Continuous, WireOk, ErasedOk, Buffer.Ok, Encoder.Ok, TookOk, HistoryOk;
      var p := plan.pending;
      again := false;
      if p.shown.None? {
        if p.started + SLATE_CONFIRM_WAIT <= now {
          plan := plan.WithPending(Hold(p.from, p.delay));
          again := true;
        }
        return;
      }
      var anchor := buf.FirstArrivedFrom(p.shown.value + config.maskMarginMs * MS);
      if anchor.Some? {
        var k := anchor.value;
        SyncKnown(buf, log.clock, k);
        LeaveHold(now, k, Monus(now, buf.At(k).arrival),
                  Mask(p.delay, p.started, anchor, config.muteUnderSlate, p.shown, true));
        again := true;
      }
    }

    /** The pending Hold: goes on from the first keyframe after the dump once it is as old
        as the delay, or ends with the broadcast. */
    method RunHold(now: Time)
      requires Valid() && now == log.clock && plan.pending.Hold?
      modifies `wire, `at, `plan
      ensures Valid() && MovedAlong(old(wire), wire, old(plan), plan)
      ensures Still(now)
      ensures var d, k := old(plan).pending.delay, old(HeldUntil());
              if k.None? then
                if plan.endMark.Some?
                then plan == old(plan).(pending := Idle, hold := None) && plan.endMark.value < at.num
                else plan == old(plan) && at == old(at) && wire == old(wire)
              else if Due(now, k.value, d) then plan.pending.Idle? && Jumped(now, k.value) && d <= plan.delay
              else plan == old(plan) && at == old(at) && wire == old(wire)
    {
      hide HeadersOk, ChainOk, Ready, Continuous, WireOk, ErasedOk, Buffer.Ok, Encoder.Ok, TookOk, HistoryOk;
      var from, d := plan.pending.from, plan.pending.delay;
      var k := buf.FirstFrom(from);
      if k.None? || (plan.endMark.Some? && plan.endMark.value < k.value) {
        if plan.endMark.Some? {
          SkipToEnd();
        }
        return;
      }
      SyncKnown(buf, log.clock, k.value);
      if buf.At(k.value).arrival + d <= now {
        LeaveHold(now, k.value, now - buf.At(k.value).arrival, Idle);
      }
    }

    /** No keyframe to go on from comes before the end mark: the hold ends past the mark. */
    method SkipToEnd()
      requires Valid() && plan.pending.Hold? && plan.endMark.Some?
      modifies `at, `plan
      ensures Valid()
      ensures plan == old(plan).(pending := Idle, hold := None)
      ensures at == old(at).(num := Max(old(at.num), plan.endMark.value + 1))
    {
      hide HeadersOk, ChainOk, Ready, Continuous, WireOk, ErasedOk, Buffer.Ok, Encoder.Ok, TookOk, HistoryOk;
      var num := Max(at.num, plan.endMark.value + 1);
      UnsyncedReady(buf, enc, wire, at.(num := num), sent, log.limitsHeld, log.cursorCfg, log.consumed);
      at := at.(num := num);
      plan := plan.(pending := Idle, hold := None);
    }

    /** The pending Replay: goes on from the first keyframe after the dump once it is as
        old as the delay. */
    method RunReplay(now: Time)
      requires Valid() && now == log.clock && plan.pending.Replay?
      modifies `wire, `at, `plan
      ensures Valid() && MovedAlong(old(wire), wire, old(plan), plan)
      ensures Still(now)
      ensures var d, k := old(plan).pending.delay, old(HeldUntil());
              if k.Some? && Due(now, k.value, d) then plan.pending.Idle? && Jumped(now, k.value) && d <= plan.delay
              else plan == old(plan) && at == old(at) && wire == old(wire)
    {
      hide HeadersOk, ChainOk, Ready, Continuous, WireOk, ErasedOk, Buffer.Ok, Encoder.Ok, TookOk, HistoryOk;
      var d := plan.pending.delay;
      var k := buf.FirstFrom(plan.pending.from);
      if k.None? {
        return;
      }
      SyncKnown(buf, log.clock, k.value);
      if buf.At(k.value).arrival + d <= now {
        SpliceTo(k.value, now - buf.At(k.value).arrival);
        plan := plan.(pending := Idle);
      }
    }

    // ----- sending --------------------------------------------------------------------

    /** What a decoder that starts at message `num` of `session` must have been given. */
    method HeadersAt(session: nat, num: nat) returns (h: Headers)
      requires enc.Ok(buf.ring)
      ensures forall j :: 0 <= j < |enc.sessions| && enc.sessions[j].id == session ==>
                MapOf(h.config) == InEffect(enc.sessions[j].headers, num) && h.metadata == enc.sessions[j].metadata
      ensures Apart(h.config)
    {
      var i := 0;
      while i < |enc.sessions| && enc.sessions[i].id != session
        invariant 0 <= i <= |enc.sessions|
        invariant forall j :: 0 <= j < i ==> enc.sessions[j].id != session
      {
        i := i + 1;
      }
      if i == |enc.sessions| {
        return Headers(None, []);
      }
      h := HeadersIn(enc.sessions[i], num);
    }

    /** What session `s` says that is. */
    static method HeadersIn(s: Session, num: nat) returns (h: Headers)
      ensures MapOf(h.config) == InEffect(s.headers, num) && h.metadata == s.metadata && Apart(h.config)
    {
      hide Apart, Without;
      var config := [];
      NoneApart();
      for k := 0 to |s.headers|
        invariant MapOf(config) == MapOf(Before(s.headers[..k], num)) && Apart(config)
      {
        var r := s.headers[k];
        assert s.headers[..k + 1] == s.headers[..k] + [r];
        BeforeConcat(s.headers[..k], [r], num);
        if r.num < num {
          MapOfReplaced(config, r);
          ReplacedApart(config, r);
          config := Without(config, r.track) + [r];
          MapOfConcat(Before(s.headers[..k], num), [r]);
        }
      }
      assert s.headers[..|s.headers|] == s.headers;
      h := Headers(s.metadata, config);
    }

    /** Sends decoder configuration or metadata with timestamp `t`. */
    method SendHeader(now: Time, kind: Kind, t: nat, payload: Payload, origin: Origin)
      requires Core() && !wire.unused
      requires origin == Metadata || origin.Header?
      requires kind in wire.lastKindTs ==> wire.lastKindTs[kind] <= t
      requires at.needSync || at.pendingHeaders
      requires !at.needSync && at.atSplice && buf.Has(at.num) ==> t <= buf.At(at.num).ts + at.tsOffset
      modifies `wire, `sent
      ensures Core() && !wire.unused
      ensures sent == old(sent) + [OutMsg(kind, t, payload, None, wire.generation, wire.epoch, now, origin)]
      ensures wire.connected == old(wire.connected) && wire.generation == old(wire.generation)
      ensures wire.epoch == old(wire.epoch) && wire.firstEmitted == old(wire.firstEmitted)
      ensures wire.lastKindTs == old(wire.lastKindTs)[kind := t] && wire.lastOutTs == Max(old(wire.lastOutTs), t)
      ensures wire.lastPts == old(wire.lastPts)
      ensures wire.sentHeaders ==
        if origin.Header? then old(wire.sentHeaders)[origin.track := payload] else old(wire.sentHeaders)
      ensures wire.sentMetadata == if origin.Metadata? then Some(payload) else old(wire.sentMetadata)
    {
      hide HeadersOk, ChainOk, Ready, Continuous, WireOk, ErasedOk, Buffer.Ok, Encoder.Ok, TookOk, HistoryOk;
      var m := OutMsg(kind, t, payload, None, wire.generation, wire.epoch, now, origin);
      var wire' := wire.WithTs(kind, t);
      if origin.Header? {
        wire' := wire'.(sentHeaders := wire.sentHeaders[origin.track := payload]);
      } else {
        wire' := wire'.(sentMetadata := Some(payload));
      }
      SentOk(wire, wire', sent, log.limitsHeld, m);
      HeaderReady(buf, enc, wire, wire', at, sent, log.limitsHeld, log.cursorCfg, log.consumed, m);
      HistorySent(buf, enc, sent, log.arrived, log.consumed, m);
      wire := wire';
      sent := sent + [m];
    }

    /** The cursor is at a buffered message the connection may get now. */
    ghost predicate Sending()
      reads `buf, `wire, `at
    {
      && wire.connected && !wire.unused && !at.needSync
      && buf.Has(at.num) && at.session == Some(buf.At(at.num).session)
    }

    /** Nothing but configuration went out since `from`. */
    twostate predicate OnlyHeadersSent(now: Time)
      reads `sent
    {
      && old(sent) <= sent
      && forall i :: |old(sent)| <= i < |sent| ==>
           sent[i].at == now && (sent[i].origin.Metadata? || sent[i].origin.Header?)
    }

    /** Sends configuration `r`, unless the destination has it. */
    method SendMissing(now: Time, ts: int, r: HeaderRec)
      requires Core() && !wire.unused
      requires at.needSync || (Sending() && at.pendingHeaders && ts == buf.At(at.num).ts + at.tsOffset)
      requires at.needSync || at.atSplice ==> 0 <= ts && NoLaterThan(wire.lastKindTs, ts)
      modifies `wire, `sent
      ensures Core() && !wire.unused
      ensures wire.sentHeaders == old(wire.sentHeaders)[r.track := r.payload]
      ensures if r.track in old(wire.sentHeaders) && old(wire.sentHeaders)[r.track] == r.payload then sent == old(sent)
              else
                && |sent| == |old(sent)| + 1 && old(sent) <= sent && sent[|old(sent)|].at == now
                && sent[|old(sent)|].origin == Header(r.track) && sent[|old(sent)|].payload == r.payload
      ensures at.needSync || at.atSplice ==> NoLaterThan(wire.lastKindTs, ts)
      ensures wire.connected == old(wire.connected) && wire.generation == old(wire.generation)
      ensures wire.epoch == old(wire.epoch) && wire.lastPts == old(wire.lastPts)
      ensures wire.firstEmitted == old(wire.firstEmitted) && wire.sentMetadata == old(wire.sentMetadata)
    {
      hide HeadersOk, ChainOk, Ready, Continuous, WireOk, ErasedOk, Buffer.Ok, Encoder.Ok, TookOk, HistoryOk;
      if r.track !in wire.sentHeaders || wire.sentHeaders[r.track] != r.payload {
        SendHeader(now, r.track.kind, wire.OutTs(r.track.kind, ts), r.payload, Header(r.track));
      } else {
        assert wire.sentHeaders == old(wire.sentHeaders)[r.track := r.payload];
      }
    }

    /** Sends the configuration in `config` the destination does not have, ahead of the
        message at the cursor, or of a held frame. */
    method SendConfig(now: Time, ts: int, config: seq<HeaderRec>)
      requires Core() && !wire.unused
      requires at.needSync || (Sending() && at.pendingHeaders && ts == buf.At(at.num).ts + at.tsOffset)
      requires at.needSync || at.atSplice ==> 0 <= ts && NoLaterThan(wire.lastKindTs, ts)
      modifies `wire, `sent
      ensures Core() && !wire.unused
      ensures Includes(wire.sentHeaders, MapOf(config))
      ensures OnlyHeadersSent(now) && wire.sentMetadata == old(wire.sentMetadata)
      ensures forall i :: |old(sent)| <= i < |sent| ==> sent[i].origin.Header?
      ensures Apart(config) ==> OnlyMissing(old(sent), sent, old(wire.sentHeaders), MapOf(config))
      ensures at.needSync || at.atSplice ==> NoLaterThan(wire.lastKindTs, ts)
      ensures wire.connected == old(wire.connected) && wire.generation == old(wire.generation)
      ensures wire.epoch == old(wire.epoch) && wire.lastPts == old(wire.lastPts)
      ensures wire.firstEmitted == old(wire.firstEmitted)
    {
      hide HeadersOk, ChainOk, Ready, Continuous, WireOk, ErasedOk, Buffer.Ok, Encoder.Ok, TookOk, HistoryOk;
      hide Engine.Core, OnlyMissing, AlikeBut, Apart;
      NothingMissing(sent, wire.sentHeaders, MapOf(config), config);
      var i := 0;
      while i < |config|
        invariant 0 <= i <= |config|
        invariant Core() && !wire.unused
        invariant Includes(wire.sentHeaders, MapOf(config[..i]))
        invariant at.needSync || at.atSplice ==> NoLaterThan(wire.lastKindTs, ts)
        invariant OnlyHeadersSent(now) && wire.sentMetadata == old(wire.sentMetadata)
        invariant forall k :: |old(sent)| <= k < |sent| ==> sent[k].origin.Header?
        invariant Apart(config) ==> OnlyMissing(old(sent), sent, old(wire.sentHeaders), MapOf(config))
        invariant AlikeBut(old(wire.sentHeaders), wire.sentHeaders, config, i)
        invariant wire.connected == old(wire.connected) && wire.generation == old(wire.generation)
        invariant wire.epoch == old(wire.epoch) && wire.lastPts == old(wire.lastPts)
        invariant wire.firstEmitted == old(wire.firstEmitted)
      {
        ghost var before, had := sent, wire.sentHeaders;
        SendMissing(now, ts, config[i]);
        MissingMore(old(sent), before, sent, old(wire.sentHeaders), had, config, i);
        StillIncludes(had, wire.sentHeaders, config, i);
        i := i + 1;
      }
      assert config[..|config|] == config;
    }

    /** Sends `metadata` ahead of the message at the cursor, unless it was sent last. */
    method EmitMetadata(now: Time, metadata: Option<Payload>)
      requires Core() && Sending() && at.pendingHeaders
      requires at.atSplice ==>
                 0 <= buf.At(at.num).ts + at.tsOffset && NoLaterThan(wire.lastKindTs, buf.At(at.num).ts + at.tsOffset)
      modifies `wire, `sent
      ensures Core() && Sending()
      ensures at.atSplice ==> NoLaterThan(wire.lastKindTs, buf.At(at.num).ts + at.tsOffset)
      ensures if metadata.None? || old(wire.sentMetadata) == metadata then sent == old(sent) && wire == old(wire)
              else
                && |sent| == |old(sent)| + 1 && old(sent) <= sent && sent[|old(sent)|].at == now
                && sent[|old(sent)|].origin.Metadata? && sent[|old(sent)|].payload == metadata.value
                && wire.sentMetadata == metadata
      ensures wire.generation == old(wire.generation) && wire.epoch == old(wire.epoch)
      ensures wire.firstEmitted == old(wire.firstEmitted) && wire.sentHeaders == old(wire.sentHeaders)
    {
      hide HeadersOk, ChainOk, Ready, Continuous, WireOk, ErasedOk, Buffer.Ok, Encoder.Ok, TookOk, HistoryOk;
      var e := buf.At(at.num);
      if metadata.Some? && wire.sentMetadata != metadata {
        SendHeader(now, Data, wire.OutTs(Data, e.ts + at.tsOffset), metadata.value, Metadata);
      }
    }

    /** After a splice: makes up what the destination lacks of the configuration at the cursor. */
    method EmitHeaders(now: Time)
      requires Core() && Sending() && at.pendingHeaders
      modifies `wire, `at, `sent, `log
      ensures Core() && Sending()
      ensures at == old(at).(pendingHeaders := false)
      ensures log == old(log).(cursorCfg := buf.At(at.num).cfg)
      ensures OnlyHeadersSent(now)
      ensures forall j :: 0 <= j < |enc.sessions| && enc.sessions[j].id == buf.At(at.num).session ==>
                && OnlyMissing(old(sent), sent, old(wire.sentHeaders), InEffect(enc.sessions[j].headers, at.num))
                && (enc.sessions[j].metadata.Some? ==> wire.sentMetadata == enc.sessions[j].metadata)
                && (forall i :: |old(sent)| <= i < |sent| && sent[i].origin.Metadata? ==>
                      enc.sessions[j].metadata == Some(sent[i].payload) != old(wire.sentMetadata))
      ensures wire.generation == old(wire.generation) && wire.epoch == old(wire.epoch)
      ensures wire.firstEmitted == old(wire.firstEmitted)
    {
      hide HeadersOk, ChainOk, Ready, Continuous, WireOk, ErasedOk, Buffer.Ok, Encoder.Ok, TookOk, HistoryOk;
      hide OnlyMissing, Apart;
      var e := buf.At(at.num);
      AtKnown(buf, log.clock, at.num);
      if at.atSplice {
        AtStartTs(buf, enc, wire, at, sent, log.limitsHeld, log.cursorCfg, log.consumed);
      }
      var h := HeadersAt(e.session, e.num);
      EmitMetadata(now, h.metadata);
      ghost var before := sent;
      SendConfig(now, e.ts + at.tsOffset, h.config);
      MissingSince(old(sent), before, sent, old(wire.sentHeaders), MapOf(h.config));
      HeadersSentReady(buf, enc, wire, at, sent, log.limitsHeld, log.cursorCfg, log.consumed, h.config);
      at := at.(pendingHeaders := false);
      log := log.(cursorCfg := e.cfg);
    }

    /** The buffered message at the cursor as it goes out now. */
    function MessageAt(now: Time): OutMsg
      requires buf.Has(at.num)
      reads `buf, `wire, `at
    {
      var e := buf.At(at.num);
      OutMsg(e.kind, wire.OutTs(e.kind, e.ts + at.tsOffset), e.payload, Some(e.num), wire.generation, wire.epoch, now,
             Buffered(e, at.atSplice))
    }

    /** The message at the cursor does not go out: configuration the destination has, or
        what a splice leaves out. */
    predicate Skips()
      requires buf.Has(at.num)
      reads `buf, `wire, `at
    {
      var e := buf.At(at.num);
      if e.config.Some? then
        var track := Track(e.kind, e.config.value);
        track in wire.sentHeaders && wire.sentHeaders[track] == e.payload
      else at.LeavesOut(e)
    }

    /** Sound is not to be heard: it plays behind a slate. */
    predicate SlateUp()
      reads `plan
    {
      plan.pending.Mask? && plan.pending.mute
    }

    /** Audio that is not to be heard. */
    predicate Muted(e: Entry)
      reads `plan
    {
      SlateUp() && e.kind.Audio? && e.config.None?
    }

    /** The message at the cursor, passed; `out`: which of all messages handed over it is. */
    ghost function Passing(out: Option<nat>): Consumed
      requires buf.Has(at.num)
      reads `buf, `wire, `at, `plan
    {
      Consumed(buf.At(at.num), wire.generation, at.atSplice, SlateUp(), at.tsOffset, out)
    }

    /** The message at the cursor is passed, and what went out of it since `before`, all that had
        gone out, is right. */
    lemma PassedHistory(before: seq<OutMsg>, c: Consumed)
      requires buf.Ok(log.clock) && HistoryOk(buf, enc, before, log.arrived, log.consumed)
      requires buf.Has(at.num) && c == Passing(c.out) && at.session == Some(c.entry.session)
      requires Knows(buf, wire.generation, at, log.consumed)
      requires c.entry.config.None? ==> (c.out.Some? <==> !Muted(c.entry) && !at.LeavesOut(c.entry))
      requires if c.out.None? then sent == before
               else
                 && c.out.value == |before| && |sent| == |before| + 1 && before <= sent
                 && Carries(sent[|before|], c.entry) && sent[|before|].origin == Buffered(c.entry, c.starts)
                 && sent[|before|].generation == wire.generation && TimedAt(sent, |before|, c.entry.ts + c.offset)
      ensures HistoryOk(buf, enc, sent, log.arrived, log.consumed + [c]) && AllPassed(sent, log.consumed)
      ensures c.entry.config.None? ==>
                var n, more := |log.consumed|, log.consumed + [c];
                Airs(more, SpliceOf(more, n), n) == !at.LeavesOut(c.entry)
    {
      hide Indexes, RingCost, Contiguous, AllMarked, Recorded, AllPassed, TimedAt, Airs, Cursor.LeavesOut;
      if c.entry.config.None? {
        LeftOutRight(buf, wire.generation, at, before, log.consumed, c, log.clock);
      }
      PassedOk(buf, wire.generation, at, before, sent, log.consumed, c, log.clock);
      PassedSame(before, sent, log.consumed);
      BufferedArrived(buf, enc, before, log.arrived, log.consumed, at.num);
      assert c.starts ==> c.entry.sync;
    }

    /** Sends the message at the cursor, or leaves it out, and moves past it. Configuration goes
        out unless the destination was sent just that; anything else if it airs after the last
        splice. */
    method EmitEntry(now: Time)
      requires Core() && Sending() && !at.pendingHeaders && !Muted(buf.At(at.num))
      modifies `wire, `at, `sent, `log
      ensures Core() && wire.connected && !wire.unused
      ensures var e, n := old(buf.At(at.num)), |old(log.consumed)|;
              var out := if |old(sent)| < |sent| then Some(|old(sent)|) else None;
              && at == Past(old(at), e)
              && log == old(log).(cursorCfg := After(e), consumed := old(log.consumed) + [old(Passing(out))])
              && (if e.config.None? then |old(sent)| < |sent| <==> Airs(log.consumed, SpliceOf(log.consumed, n), n)
                  else
                    var track := Track(e.kind, e.config.value);
                    |old(sent)| < |sent| <==> !(track in old(wire.sentHeaders)
                                                && old(wire.sentHeaders)[track] == e.payload))
      ensures sent == old(sent) || sent == old(sent) + [old(MessageAt(now))]
      ensures wire.generation == old(wire.generation) && wire.epoch == old(wire.epoch)
      ensures wire.firstEmitted == old(wire.firstEmitted)
    {
      hide HeadersOk, ChainOk, Ready, Continuous, WireOk, ErasedOk, Buffer.Ok, Encoder.Ok, TookOk, HistoryOk;
      var e := buf.At(at.num);
      AtKnown(buf, log.clock, at.num);
      KnownAtCursor(buf, enc, wire, at, sent, log.limitsHeld, log.cursorCfg, log.consumed);
      ghost var c := Passing(if Skips() then None else Some(|sent|));
      ConsumedOk(buf, enc, wire, at, sent, log.limitsHeld, log.cursorCfg, log.consumed, log.clock, c);
      var skip := if e.config.None? && at.EndsLeading(e) then None else at.skipLeadingAfter;
      if !Skips() {
        SendEntry(now);
      } else {
        SkippedKnown(wire, sent, log.limitsHeld, e);
      }
      PassedHistory(old(sent), c);
      AdvancedReady(buf, enc, wire, at, sent, log.limitsHeld, log.consumed, log.clock, c);
      at := at.(num := at.num + 1, atSplice := false, skipLeadingAfter := skip);
      log := log.(cursorCfg := After(e), consumed := log.consumed + [c]);
    }

    /** Sends the message at the cursor. */
    method SendEntry(now: Time)
      requires Core() && Sending() && !Skips()
      requires buf.At(at.num).sync ==> buf.At(at.num).config.None?
      requires at.atSplice ==> buf.At(at.num).sync
      requires log.limitsHeld ==> Includes(Received(sent, wire.epoch), buf.At(at.num).cfg)
      modifies `wire, `sent
      ensures WireOk(wire, sent, log.limitsHeld) && wire.connected && !wire.unused
      ensures sent == old(sent) + [old(MessageAt(now))]
      ensures wire.generation == old(wire.generation) && wire.epoch == old(wire.epoch)
      ensures wire.firstEmitted == old(wire.firstEmitted)
      ensures log.limitsHeld ==> Includes(Received(sent, wire.epoch), After(buf.At(at.num)))
      ensures TimedAt(sent, |old(sent)|, buf.At(at.num).ts + at.tsOffset)
      ensures wire.lastPts == if sent[|old(sent)|].kind.Video? && sent[|old(sent)|].IsFrame()
                              then Max(old(wire.lastPts), sent[|old(sent)|].Pts()) else old(wire.lastPts)
    {
      hide HeadersOk, ChainOk, Ready, Continuous, WireOk, ErasedOk, Buffer.Ok, Encoder.Ok, TookOk, HistoryOk;
      var e := buf.At(at.num);
      var m := MessageAt(now);
      var wire' := wire.WithTs(m.kind, m.timestamp);
      if e.config.Some? {
        wire' := wire'.(sentHeaders := wire.sentHeaders[Track(e.kind, e.config.value) := e.payload]);
      } else if e.kind.Video? {
        wire' := wire'.(lastPts := Max(wire.lastPts, m.Pts()));
      }
      if at.atSplice {
        AtStartTs(buf, enc, wire, at, sent, log.limitsHeld, log.cursorCfg, log.consumed);
      }
      SentOk(wire, wire', sent, log.limitsHeld, m);
      TimedOk(wire, sent, log.limitsHeld, m, e.ts + at.tsOffset);
      ReceivedExtends(sent, m, wire.epoch);
      wire := wire';
      sent := sent + [m];
    }

    // ----- the held frame ---------------------------------------------------------------

    /** The frame a hold repeats: the newest keyframe before the cursor, if that is video, with
        what was configured at it. */
    method AiredKeyframe(now: Time) returns (frame: Option<HoldFrame>)
      requires Core() && now == log.clock
      ensures HoldsNewest(frame, buf, enc, at.num, now, log.limitsHeld)
      ensures HoldOk(frame, log.arrived, log.erased) && (frame.Some? ==> frame.value.last == now)
      ensures frame.Some? ==> exists k :: k in buf.syncs && k < at.num && buf.Has(k) && buf.At(k).id == frame.value.id
    {
      hide HeadersOk, ChainOk, Ready, Continuous, WireOk, ErasedOk, Buffer.Ok, Encoder.Ok, TookOk, HistoryOk;
      var k := buf.NewestBefore(at.num);
      if k.None? {
        return None;
      }
      SyncKnown(buf, log.clock, k.value);
      var e := buf.At(k.value);
      if !e.kind.Video? {
        return None;
      }
      var h := HeadersAt(e.session, e.num);
      if log.limitsHeld {
        ConfigAt(buf, enc, k.value, h.config);
      }
      EntryKept(buf, log.clock, log.erased, k.value);
      BufferedArrived(buf, enc, sent, log.arrived, log.consumed, k.value);
      frame := Some(HoldFrame(e.payload, e.cts, enc.FrameMs(e.session), h, now, now, false, e.id));
    }

    /** Ahead of a held frame on a connection new to it: the configuration in effect at it. */
    method EmitHoldHeaders(now: Time, headers: Headers, t: nat)
      requires Core() && !wire.unused && at.needSync && NoLaterThan(wire.lastKindTs, t)
      modifies `wire, `sent
      ensures Core() && !wire.unused && NoLaterThan(wire.lastKindTs, t)
      ensures Includes(wire.sentHeaders, MapOf(headers.config))
      ensures OnlyHeadersSent(now)
      ensures Apart(headers.config) ==> OnlyMissing(old(sent), sent, old(wire.sentHeaders), MapOf(headers.config))
      ensures headers.metadata.Some? ==> wire.sentMetadata == headers.metadata
      ensures forall i :: |old(sent)| <= i < |sent| && sent[i].origin.Metadata? ==>
                headers.metadata == Some(sent[i].payload)
      ensures wire.connected == old(wire.connected) && wire.generation == old(wire.generation)
      ensures wire.epoch == old(wire.epoch) && wire.lastPts == old(wire.lastPts)
    {
      hide HeadersOk, ChainOk, Ready, Continuous, WireOk, ErasedOk, Buffer.Ok, Encoder.Ok, TookOk, HistoryOk;
      if headers.metadata.Some? {
        SendHeader(now, Data, t, headers.metadata.value, Metadata);
      }
      SendConfig(now, t, headers.config);
    }

    /** The timestamp held frame `h` gets now: the time since it was last shown after the last
        timestamp of all, or a frame after everything sent, as presented too, if that is later. */
    function HeldTs(now: Time, h: HoldFrame): nat
      reads `wire
    {
      var lastVideo := if Video in wire.lastKindTs then wire.lastKindTs[Video] else 0;
      Max(Max(wire.lastOutTs, lastVideo) + Max((now - h.last) / MS, 1), wire.AfterSent(h.frameMs, h.cts))
    }

    /** A held frame is to be shown again. */
    predicate Shows(now: Time)
      reads `plan
    {
      plan.hold.Some? && plan.hold.value.next <= now
    }

    predicate InHold()
      reads `plan
    {
      plan.pending.Hold? || plan.pending.Dump?
    }

    /** What goes out during a hold: the held frame if it is due, and nothing else. */
    twostate predicate HoldShown(now: Time)
      reads `wire, `plan, `sent, `log
    {
      if old(Shows(now)) then
        var h := old(plan).hold.value;
        && plan == old(plan).(hold := Some(h.(last := now, next := now + 1_000_000, needsHeaders := false)))
        && HeldSent(now, h, old(HeldTs(now, h)))
      else sent == old(sent) && plan == old(plan)
    }

    /** During a hold, shows the held frame again once a second. */
    method EmitHoldFrame(now: Time) returns (wake: Option<Time>)
      requires Valid() && now == log.clock && (plan.pending.Hold? || plan.pending.Dump?)
      modifies `wire, `plan, `sent
      ensures Valid() && HoldShown(now)
      ensures !old(Shows(now)) ==> wire == old(wire)
      ensures old(sent) <= sent && AllMaySend(sent, |old(sent)|, now, log.floor, log.erased, plan.endMark)
      ensures wire.connected == old(wire.connected) && wire.generation == old(wire.generation)
      ensures wire.epoch == old(wire.epoch)
      ensures plan.hold.Some? ==> now < plan.hold.value.next
      ensures wake == if plan.hold.Some? then Some(plan.hold.value.next) else None
    {
      hide HeadersOk, ChainOk, Ready, Continuous, WireOk, ErasedOk, Buffer.Ok, Encoder.Ok, TookOk, HistoryOk,
        FindsConfig;
      if plan.hold.None? {
        return None;
      }
      var h := plan.hold.value;
      if now < h.next {
        return Some(h.next);
      }
      var t := HeldTs(now, h);
      HeldAfter(wire, sent, log.limitsHeld, h.frameMs, h.cts, t);
      plan := plan.(hold := Some(h.(last := now, next := now + SEC, needsHeaders := false)));
      SendHeld(now, h, t);
      wake := Some(now + SEC);
    }

    /** Since before, only held frame `h` went out, with timestamp `t`, after its configuration
        if the connection is new to it and after nothing else. With a destination that gets what
        it was handed in this stretch, it finds its configuration exactly if the connection is
        new to it or that was so before. */
    twostate predicate HeldSent(now: Time, h: HoldFrame, t: nat)
      reads `wire, `sent, `log
    {
      && |old(sent)| < |sent| && old(sent) <= sent
      && var n := |sent| - 1;
      && sent[n] == OutMsg(Video, t, h.payload, None, wire.generation, wire.epoch, now, Repeated(h))
      && (forall i :: |old(sent)| <= i < n ==>
            sent[i].at == now && (sent[i].origin.Metadata? || sent[i].origin.Header?))
      && (h.needsHeaders || n == |old(sent)|)
      && (FindsConfig(Got(log.took, sent[..n], wire.epoch), h) <==>
            h.needsHeaders || FindsConfig(Got(log.took, old(sent), wire.epoch), h))
    }

    /** Sends held frame `h` at `t`, which comes after everything sent. */
    method SendHeld(now: Time, h: HoldFrame, t: nat)
      requires Core() && at.needSync && HoldOk(Some(h), log.arrived, log.erased)
      requires AllBefore(sent, wire.generation, Video, t, t + h.cts) && NoLaterThan(wire.lastKindTs, t)
      modifies `wire, `sent
      ensures Core() && HeldSent(now, h, t)
      ensures old(sent) < sent && AllMaySend(sent, |old(sent)|, now, log.floor, log.erased, plan.endMark)
      ensures wire.connected == old(wire.connected) && wire.generation == old(wire.generation)
      ensures wire.epoch == old(wire.epoch) && !wire.unused
    {
      hide HeadersOk, ChainOk, Ready, Continuous, WireOk, ErasedOk, Buffer.Ok, Encoder.Ok, TookOk, HistoryOk,
        FindsConfig, Got, Received;
      UsedOk(wire, sent, log.limitsHeld);
      wire := wire.(unused := false);
      UnsyncedReady(buf, enc, wire, at, sent, log.limitsHeld, log.cursorCfg, log.consumed);
      if h.needsHeaders {
        EmitHoldHeaders(now, h.headers, t);
        HeadersAreNoFrames(old(sent), sent, wire.generation, Video, t, t + h.cts);
        HeldFindsConfig(wire, sent, log.limitsHeld, log.took, h);
      }
      ghost var before := sent;
      PutHeld(now, h, t);
      assert sent[..|sent| - 1] == before;
    }

    /** The held frame itself goes out. */
    method PutHeld(now: Time, h: HoldFrame, t: nat)
      requires Core() && at.needSync && !wire.unused && ShowsArrived(h, log.arrived)
      requires AllBefore(sent, wire.generation, Video, t, t + h.cts) && NoLaterThan(wire.lastKindTs, t)
      modifies `wire, `sent
      ensures Core() && !wire.unused
      ensures sent == old(sent) + [OutMsg(Video, t, h.payload, None, wire.generation, wire.epoch, now, Repeated(h))]
      ensures wire.connected == old(wire.connected) && wire.generation == old(wire.generation)
      ensures wire.epoch == old(wire.epoch)
    {
      hide HeadersOk, ChainOk, Ready, Continuous, WireOk, ErasedOk, Buffer.Ok, Encoder.Ok, TookOk, HistoryOk, Received;
      var m := OutMsg(Video, t, h.payload, None, wire.generation, wire.epoch, now, Repeated(h));
      var wire' := wire.WithTs(Video, t).(lastPts := Max(wire.lastPts, t + h.cts));
      SentOk(wire, wire', sent, log.limitsHeld, m);
      HistorySent(buf, enc, sent, log.arrived, log.consumed, m);
      wire := wire';
      sent := sent + [m];
      UnsyncedReady(buf, enc, wire, at, sent, log.limitsHeld, log.cursorCfg, log.consumed);
    }

    // ----- buffer management ------------------------------------------------------------

    /** `headers` without those a later one replaces before message `base`. */
    static method Prune(headers: seq<HeaderRec>, base: nat) returns (r: seq<HeaderRec>)
      ensures SameFrom(headers, r, base)
      ensures |r| <= |headers| && HeadersCost(r) <= HeadersCost(headers)
      ensures NoneReplacedIn(r, base)
    {
      hide SameFrom, HeadersCost;
      r := headers;
      SameFromRefl(headers, base);
      var i := 0;
      while i < |r|
        invariant 0 <= i <= |r|
        invariant SameFrom(headers, r, base)
        invariant |r| <= |headers| && HeadersCost(r) <= HeadersCost(headers)
        invariant forall k, j :: 0 <= k < i && k < j < |r| && r[k].track == r[j].track ==> base <= r[j].num
        decreases |r| - i
      {
        var j := i + 1;
        while j < |r| && !(r[j].track == r[i].track && r[j].num < base)
          invariant i < j <= |r|
          invariant forall l :: i < l < j && r[l].track == r[i].track ==> base <= r[l].num
        {
          j := j + 1;
        }
        if j < |r| {
          ReplacedNotNeeded(r, i, j, base);
          SameFromTrans(headers, r, r[..i] + r[i + 1..], base);
          HeadersCostLess(r, i);
          r := r[..i] + r[i + 1..];
        } else {
          i := i + 1;
        }
      }
    }

    /** Prunes every session's configuration for what the buffer still has. */
    method ForgetHeaders()
      requires Core()
      modifies `enc
      ensures Core() && Pruned(old(enc), enc, buf.base) && NoneReplaced(enc.sessions, buf.base)
      ensures Lighter(old(enc), enc) && enc.bytes <= old(enc.bytes)
    {
      hide HeadersOk, ChainOk, Ready, Continuous, WireOk, ErasedOk, Buffer.Ok, Encoder.Ok, TookOk, HistoryOk;
      hide SameFrom;
      var was := enc.sessions;
      var sessions := was;
      for i := 0 to |was|
        invariant |sessions| == |was| && enc == old(enc)
        invariant forall j :: i <= j < |was| ==> sessions[j] == was[j]
        invariant forall j :: 0 <= j < i ==>
                    PrunedSession(was[j], sessions[j], buf.base) && NoneReplacedIn(sessions[j].headers, buf.base)
      {
        var headers := Prune(sessions[i].headers, buf.base);
        sessions := sessions[i := sessions[i].(headers := headers)];
      }
      var enc' := enc.(sessions := sessions, bytes := SessionsCost(sessions));
      assert Pruned(enc, enc', buf.base);
      PrunedOk(buf, enc, enc', wire, at, sent, log.limitsHeld, log.cursorCfg, log.consumed, log.clock);
      BytesKnown(buf, enc);
      PrunedLighter(enc, enc', buf.base, 0);
      HistoryKept(buf, buf, enc, enc', sent, log.arrived, log.consumed);
      enc := enc';
    }

    /** Nothing is kept of sessions and their configuration that no buffered message needs. */
    ghost predicate Tidy()
      reads `buf, `enc
    {
      NoneReplaced(enc.sessions, buf.base) && NoneStale(enc.sessions, buf.ring)
    }

    /** Drops the sessions before that of the oldest message, never the last one. */
    method ForgetSessions()
      requires Core()
      modifies `enc
      ensures Core()
      ensures enc == old(enc).(sessions := enc.sessions, bytes := enc.bytes)
      ensures var n := if buf.ring == [] then 0 else Stale(old(enc).sessions, buf.ring[0].session);
        PrunedFrom(old(enc).sessions, enc.sessions, buf.base, n)
      ensures Tidy()
      ensures Lighter(old(enc), enc) && enc.bytes <= old(enc.bytes)
    {
      hide HeadersOk, ChainOk, Ready, Continuous, WireOk, ErasedOk, Buffer.Ok, Encoder.Ok, TookOk, HistoryOk,
        PrunedSession, Stale;
      BytesKnown(buf, enc);
      ForgetHeaders();
      if buf.ring == [] {
        return;
      }
      var n := CountStale(buf.ring[0].session);
      StaleSame(old(enc).sessions, enc.sessions, buf.ring[0].session, buf.base);
      StaleKnown(enc.sessions, buf.ring[0].session);
      LeavesTidy(enc, buf.ring, buf.base, n);
      assert enc.sessions[0..] == enc.sessions;
      if 0 < n {
        var enc' := enc.(sessions := enc.sessions[n..], bytes := SessionsCost(enc.sessions[n..]));
        FewerSessionsOk(buf, enc, enc', wire, at, sent, log.limitsHeld, log.cursorCfg, log.consumed, log.clock, n);
        FewerLighter(enc, enc', n);
        HistoryKept(buf, buf, enc, enc', sent, log.arrived, log.consumed);
        enc := enc';
        PrunedLighter(old(enc), enc, buf.base, n);
      }
    }

    method CountStale(oldest: nat) returns (n: nat)
      ensures n == Stale(enc.sessions, oldest)
    {
      n := 0;
      while n + 1 < |enc.sessions| && enc.sessions[n].id < oldest
        invariant n <= |enc.sessions|
        invariant Stale(enc.sessions, oldest) == n + Stale(enc.sessions[n..], oldest)
      {
        assert enc.sessions[n..][1..] == enc.sessions[n + 1..];
        n := n + 1;
      }
    }

    /** Drops everything before message `end`. */
    method DropTo(end: nat)
      requires Core() && AnchorOk(buf, plan.pending) && end <= buf.next
      modifies `buf
      ensures Core() && AnchorOk(buf, plan.pending)
      ensures buf.base == Max(old(buf.base), end) && Shrunk(old(buf), buf) && buf.bytes <= old(buf.bytes)
    {
      hide HeadersOk, ChainOk, Ready, Continuous, WireOk, ErasedOk, Buffer.Ok, Encoder.Ok, TookOk, HistoryOk;
      hide Shrunk;
      EmptyKnown(buf, log.clock);
      ShrunkRefl(buf, log.clock);
      while buf.ring != [] && buf.ring[0].num < end
        invariant Core() && AnchorOk(buf, plan.pending) && Shrunk(old(buf), buf)
        invariant old(buf.base) <= buf.base <= Max(old(buf.base), end)
        invariant buf.next == old(buf.next) == buf.base + |buf.ring| && buf.bytes <= old(buf.bytes)
        decreases |buf.ring|
      {
        DropOldest();
      }
      if buf.ring != [] {
        FrontKnown(buf, log.clock);
      }
    }

    /** Pops the oldest message. */
    method DropOldest()
      requires Core() && AnchorOk(buf, plan.pending) && buf.ring != []
      modifies `buf
      ensures Core() && AnchorOk(buf, plan.pending)
      ensures buf.base == old(buf.base) + 1 && buf.ring == old(buf.ring)[1..] && buf.next == old(buf.next)
      ensures old(buf).ring[0].num == old(buf).base && buf.next == buf.base + |buf.ring|
      ensures buf.bytes == old(buf.bytes) - (old(buf).ring[0].payload.size + 152)
      ensures forall b :: Shrunk(b, old(buf)) ==> Shrunk(b, buf)
    {
      hide HeadersOk, ChainOk, Ready, Continuous, WireOk, ErasedOk, Buffer.Ok, Encoder.Ok, TookOk, HistoryOk;
      FrontKnown(buf, log.clock);
      var f := buf.ring[0];
      var syncs := if buf.syncs != [] && buf.syncs[0] == f.num then buf.syncs[1..] else buf.syncs;
      var buf' := buf.(ring := buf.ring[1..], syncs := syncs, base := f.num + 1,
                       bytes := buf.bytes - Cost(f.payload.size));
      FrontPopped(buf, buf', enc, wire, at, sent, log.limitsHeld, log.cursorCfg, log.consumed, log.erased,
                  plan.pending, log.clock);
      LighterRefl(enc);
      HistoryKept(buf, buf', enc, enc, sent, log.arrived, log.consumed);
      buf := buf';
    }

    /** What a reconnect needs on air: the newest keyframe up to the cursor, or without one the
        cursor itself. */
    function RestartPoint(): Option<nat>
      reads `buf, `at, `plan
    {
      RestartOf(buf, at.num, plan.started)
    }

    /** Without history, the oldest message that must stay. */
    function KeepFrom(now: Time): Option<nat>
      reads `config, `buf, `at, `plan
    {
      if config.keepHistory then None
      else
        var keep := if plan.started then RestartPoint() else buf.NewestArrivedBy(now - plan.delay);
        if keep.Some? && plan.pending.Mask? && plan.pending.anchor.Some?
        then Some(Min(keep.value, plan.pending.anchor.value))
        else keep
    }

    /** What messages and sessions take, in bytes. */
    function HeldBytes(): nat
      reads `buf, `enc
    {
      buf.bytes + enc.bytes
    }

    /** What must be held, in bytes. */
    function NeededBytes(): nat
      reads `buf, `enc, `at, `plan
    {
      Needed(buf, enc, at, plan)
    }

    /** Keeps the buffer within the history and the memory there is for it. Memory falls short
        when more than the limit has to be held, so that keeping to it takes something that is
        still to air; that is on record, and releases what was promised. */
    method Evict(now: Time)
      requires Valid() && now == log.clock
      modifies `buf, `enc, `plan, `log
      ensures Valid() && Shrunk(old(buf), buf) && (HeldBytes() <= config.ramCapBytes || |buf.ring| <= 1)
      ensures buf == old(buf) || Tidy()
      ensures enc == old(enc).(sessions := enc.sessions, bytes := enc.bytes)
      ensures Lighter(old(enc), enc) && HeldBytes() <= old(HeldBytes())
      ensures log.shortfalls == old(log.shortfalls) ==>
                && plan == old(plan) && log == old(log)
                && (plan.started ==> buf.base <= Max(old(buf.base), old(RestartPoint()).value))
      ensures log.shortfalls != old(log.shortfalls) ==>
                var f := Shortfall(now, old(NeededBytes()), config.ramCapBytes, old(RestartPoint()), buf.base);
                && f.Real()
                && log == old(log).(floor := 0, shortfalls := old(log.shortfalls) + [f])
                && plan == old(plan).Shortened(HeldDelay(now))
      ensures !old(buf.ring != [] && Goes(now)) ==> buf == old(buf) && enc == old(enc) && log == old(log)
      ensures old(HeldBytes()) <= config.ramCapBytes ==>
                log.shortfalls == old(log.shortfalls) && AllMayGo(old(buf), buf.base, now, old(RestartPoint()))
      ensures log.shortfalls == old(log.shortfalls) ==>
                NothingOld(now, old(RestartPoint())) && (!plan.started ==> NoneMissed(old(buf), buf.base, now, None))
    {
      hide HeadersOk, ChainOk, Ready, Continuous, WireOk, ErasedOk, Buffer.Ok, Encoder.Ok, TookOk, HistoryOk;
      hide Shrunk, Lighter, Plan.Shortened, Engine.Goes, Engine.HeldDelay, Engine.RestartPoint, Needed, HoldOk,
        AnchorOk, Plan.Ok, Plan.Promises, Engine.AllMayGo, Engine.NothingOld, Engine.NoneMissed;
      NeededIsHeld();
      var lost := MakeRoom(now);
      if lost {
        ghost var f := Shortfall(now, old(NeededBytes()), config.ramCapBytes, old(RestartPoint()), buf.base);
        MemoryShort(now);
        log := log.(shortfalls := log.shortfalls + [f]);
      }
    }

    /** The oldest group is to go. */
    predicate Goes(now: Time)
      requires buf.ring != []
      reads `config, `buf, `enc, `at, `plan
    {
      OverRam() || Expired(now, RestartPoint()) || NotNeeded(KeepFrom(now))
    }

    predicate OverRam()
      reads `config, `buf, `enc
    {
      buf.bytes + enc.bytes > config.ramCapBytes && |buf.ring| > 1
    }

    /** Where the oldest group of messages ends: the next keyframe, or after the first. */
    function GroupEnd(): nat
      requires buf.ring != []
      reads `buf
    {
      var next := buf.FirstFrom(buf.ring[0].num + 1);
      if next.Some? then next.value else buf.ring[0].num + 1
    }

    /** The oldest group aired, and what follows it is older than the history kept. */
    predicate Expired(now: Time, restart: Option<nat>)
      requires buf.ring != []
      reads `config, `buf
    {
      var front := buf.ring[0];
      var capacity := (config.maxDelayMs + config.headroomMs) * MS;
      var next := buf.FirstFrom(front.num + 1);
      && (restart.Some? ==> GroupEnd() <= restart.value)
      && (if next.Some? then buf.Has(next.value) && buf.At(next.value).arrival + capacity < now
          else !front.sync && front.arrival + capacity < now)
    }

    /** Without history: nothing needs the oldest group any more. */
    predicate NotNeeded(keepFrom: Option<nat>)
      requires buf.ring != []
      reads `buf
    {
      keepFrom.Some? && buf.FirstFrom(buf.ring[0].num + 1).Some? && GroupEnd() <= keepFrom.value
    }

    /** How old what has aired may get, with history. */
    function History(): Time
      reads `config
    {
      (config.maxDelayMs + config.headroomMs) * 1000
    }

    /** Without history, what comes before keyframe `k` of `b` is not needed any more: what a
        reconnect needs, or the start of the broadcast, is at `k` or after it, and so is what a
        Mask rewinds to. */
    predicate Unneeded(b: Buffer, k: nat, now: Time, restart: Option<nat>)
      reads `config, `plan
    {
      && !config.keepHistory && b.Has(k)
      && (match restart
          case Some(r) => k <= r
          case None => b.At(k).arrival + plan.delay <= now)
      && (plan.pending.Mask? && plan.pending.anchor.Some? ==> k <= plan.pending.anchor.value)
    }

    /** Message `n` of `b` may go whatever memory there is: no reconnect needs it, and it is older
        than the history kept, or not needed. */
    ghost predicate MayGo(b: Buffer, n: nat, now: Time, restart: Option<nat>)
      reads `config, `plan
    {
      && (restart.Some? ==> n < restart.value)
      && ((b.Has(n) && b.At(n).arrival + History() < now)
          || exists k :: k in b.syncs && n < k && Unneeded(b, k, now, restart))
    }

    /** All before message `base` may go. */
    ghost predicate AllMayGo(b: Buffer, base: nat, now: Time, restart: Option<nat>)
      reads `config, `plan
    {
      forall n: nat :: b.base <= n < base ==> MayGo(b, n, now, restart)
    }

    /** Before the start: all before message `base` may go, or comes after a message the broadcast
        could have begun with by now. */
    ghost predicate NoneMissed(b: Buffer, base: nat, now: Time, restart: Option<nat>)
      reads `config, `plan
    {
      forall n: nat :: b.base <= n < base ==> MayGo(b, n, now, restart) || OldBefore(b, n, now)
    }

    predicate OldBefore(b: Buffer, n: nat, now: Time)
      reads `plan
    {
      exists m: nat :: m <= n && b.Has(m) && b.At(m).arrival + plan.delay <= now
    }

    /** What is older than the history kept, or not needed, has gone, group by group; without a
        later keyframe, message by message. */
    ghost predicate NothingOld(now: Time, restart: Option<nat>)
      reads `config, `buf, `plan
    {
      && (forall k :: k in buf.syncs && buf.base < k && (restart.Some? ==> k <= restart.value) ==>
            buf.Has(k) && now <= buf.At(k).arrival + History() && !Unneeded(buf, k, now, restart))
      && (buf.ring != [] && buf.syncs == [] && (restart.Some? ==> buf.base < restart.value) ==>
            now <= buf.ring[0].arrival + History())
    }

    /** Of the keyframes of `b`, those at or before the message to keep from are not needed. */
    ghost predicate KeepsFrom(b: Buffer, now: Time, restart: Option<nat>, keepFrom: Option<nat>)
      reads `config, `plan
    {
      forall k :: k in b.syncs ==> ((keepFrom.Some? && k <= keepFrom.value) <==> Unneeded(b, k, now, restart))
    }

    lemma KeepMeans(now: Time)
      requires buf.Ok(log.clock) && plan.Ok(at.needSync, log.clock)
      ensures KeepsFrom(buf, now, RestartPoint(), KeepFrom(now))
    {
      hide RingCost, Buffer.Ok;
      forall k | k in buf.syncs
        ensures (KeepFrom(now).Some? && k <= KeepFrom(now).value) <==> Unneeded(buf, k, now, RestartPoint())
      {
        SyncKnown(buf, log.clock, k);
        if !plan.started {
          OldEnough(buf, log.clock, k, now - plan.delay);
        }
      }
    }

    /** What goes with the oldest group when it is time to, memory apart, may go. */
    lemma GroupMayGo(b: Buffer, now: Time, restart: Option<nat>, keepFrom: Option<nat>, n: nat)
      requires b.Ok(log.clock) && buf.Ok(log.clock) && Shrunk(b, buf) && buf.ring != []
      requires KeepsFrom(b, now, restart, keepFrom) && (Expired(now, restart) || NotNeeded(keepFrom))
      requires buf.base <= n < GroupEnd()
      ensures MayGo(b, n, now, restart)
    {
      hide RingCost, Contiguous, Indexes;
      FrontKnown(buf, log.clock);
      var next := buf.FirstFrom(buf.ring[0].num + 1);
      if next.Some? {
        SyncKnown(buf, log.clock, next.value);
        SyncStayed(b, buf, next.value, log.clock);
        ArrivedInOrder(b, log.clock, n, next.value);
      }
    }

    /** With the oldest group, all that has gone still was right to. */
    lemma GroupGoes(b: Buffer, now: Time, restart: Option<nat>, keepFrom: Option<nat>)
      requires b.Ok(log.clock) && buf.Ok(log.clock) && Shrunk(b, buf) && buf.ring != []
      requires KeepsFrom(b, now, restart, keepFrom)
      ensures AllMayGo(b, buf.base, now, restart) && (Expired(now, restart) || NotNeeded(keepFrom)) ==>
                AllMayGo(b, GroupEnd(), now, restart)
      ensures NoneMissed(b, buf.base, now, restart)
              && (Expired(now, restart) || NotNeeded(keepFrom) || buf.ring[0].arrival + plan.delay <= now) ==>
                NoneMissed(b, GroupEnd(), now, restart)
    {
      hide RingCost, Contiguous, Indexes, Engine.Expired, Engine.NotNeeded, Engine.GroupEnd, Engine.MayGo,
        Engine.KeepsFrom;
      FrontKnown(buf, log.clock);
      forall n: nat | buf.base <= n < GroupEnd()
        ensures Expired(now, restart) || NotNeeded(keepFrom) ==> MayGo(b, n, now, restart)
        ensures buf.ring[0].arrival + plan.delay <= now ==> OldBefore(b, n, now)
      {
        if Expired(now, restart) || NotNeeded(keepFrom) {
          GroupMayGo(b, now, restart, keepFrom, n);
        }
        assert b.Has(buf.base) && b.At(buf.base) == buf.ring[0];
      }
    }

    /** With no time to go for the oldest group, nothing is old. */
    lemma NothingIsOld(b: Buffer, now: Time, restart: Option<nat>, keepFrom: Option<nat>)
      requires b.Ok(log.clock) && buf.Ok(log.clock) && Shrunk(b, buf) && buf.ring != []
      requires KeepsFrom(b, now, restart, keepFrom) && !Expired(now, restart) && !NotNeeded(keepFrom)
      ensures NothingOld(now, restart)
    {
      hide RingCost, Contiguous, Indexes;
      FrontKnown(buf, log.clock);
      var next := buf.FirstFrom(buf.ring[0].num + 1);
      forall k | k in buf.syncs && buf.base < k && (restart.Some? ==> k <= restart.value)
        ensures buf.Has(k) && now <= buf.At(k).arrival + History() && !Unneeded(buf, k, now, restart)
      {
        SyncKnown(buf, log.clock, k);
        SyncStayed(b, buf, k, log.clock);
        SyncKnown(buf, log.clock, next.value);
        SyncStayed(b, buf, next.value, log.clock);
        IndexIncreases(buf.syncs, buf.ring, buf.base);
        ArrivedInOrder(buf, log.clock, next.value, k);
      }
      if buf.syncs == [] {
        NoSyncs(buf, log.clock, buf.base);
      }
    }

    /** Drops the oldest group, if it is time to. */
    method EvictOldest(now: Time, keepFrom: Option<nat>, restart: Option<nat>) returns (more: bool, lost: bool)
      requires Valid() && now == log.clock && buf.ring != []
      requires restart.Some? && keepFrom.Some? ==> keepFrom.value <= restart.value
      modifies `buf, `enc
      ensures Valid() && Shrunk(old(buf), buf)
      ensures more ==> |buf.ring| < |old(buf).ring|
      ensures old(buf.base) <= buf.base
      ensures enc == old(enc).(sessions := enc.sessions, bytes := enc.bytes)
      ensures Lighter(old(enc), enc) && HeldBytes() <= old(HeldBytes()) && enc.bytes <= old(enc.bytes)
      ensures more == old((config.ramCapBytes < HeldBytes() && 1 < |buf.ring|) || Expired(now, restart)
                          || NotNeeded(keepFrom))
      ensures !more ==> buf == old(buf) && enc == old(enc) && !lost
      ensures more ==> buf.base == old(GroupEnd()) && Tidy()
      ensures restart.Some? && !lost ==> buf.base <= Max(old(buf.base), restart.value)
      ensures lost ==> old(OverRam()) && (restart.Some? ==> restart.value < buf.base)
      ensures lost == old(Loses(now, restart, keepFrom))
    {
      hide HeadersOk, ChainOk, Ready, Continuous, WireOk, ErasedOk, Buffer.Ok, Encoder.Ok, TookOk, HistoryOk;
      hide HoldOk, Plan.Ok, Plan.Promises, Engine.Tidy, Lighter, AnchorOk;
      LighterRefl(enc);
      var front := buf.ring[0];
      FrontKnown(buf, log.clock);
      var next := buf.FirstFrom(front.num + 1);
      if next.Some? {
        SyncKnown(buf, log.clock, next.value);
      }
      more, lost := false, false;
      var end, expired, notNeeded := GroupEnd(), Expired(now, restart), NotNeeded(keepFrom);
      if OverRam() || expired || notNeeded {
        more := true;
        var unaired := if restart.Some? then restart.value < end else now < front.arrival + plan.delay;
        lost := unaired && !expired && !notNeeded;
        DropGroup(end);
      }
    }

    /** Drops everything before message `end`, and what is not needed without it. */
    method DropGroup(end: nat)
      requires Valid() && end <= buf.next
      modifies `buf, `enc
      ensures Valid() && Shrunk(old(buf), buf) && Tidy() && buf.base == Max(old(buf.base), end)
      ensures enc == old(enc).(sessions := enc.sessions, bytes := enc.bytes)
      ensures Lighter(old(enc), enc) && HeldBytes() <= old(HeldBytes()) && enc.bytes <= old(enc.bytes)
    {
      hide HeadersOk, ChainOk, Ready, Continuous, WireOk, ErasedOk, Buffer.Ok, Encoder.Ok, TookOk, HistoryOk;
      hide HoldOk, Plan.Ok, Plan.Promises, Engine.Tidy, Shrunk, Lighter;
      DropTo(end);
      ForgetSessions();
    }

    lemma OverLimit()
      ensures OverRam() <==> config.ramCapBytes < HeldBytes() && 1 < |buf.ring|
    {
    }

    lemma NothingWent(now: Time)
      ensures AllMayGo(buf, buf.base, now, RestartPoint()) && NoneMissed(buf, buf.base, now, RestartPoint())
    {
    }

    /** If nothing a reconnect needs has gone yet and the oldest group is the first of that, all that
        is held must be. */
    lemma AllIsNeeded(b: Buffer, e: Encoder, restart: Option<nat>)
      requires b.Ok(log.clock) && buf.Ok(log.clock) && Shrunk(b, buf) && buf.ring != [] && enc.bytes <= e.bytes
      requires restart == RestartOf(b, at.num, plan.started)
      ensures (restart.Some? ==> buf.base <= Max(b.base, restart.value) && restart.value < GroupEnd()) ==>
                HeldBytes() <= Needed(b, e, at, plan)
    {
      hide Contiguous, Indexes, RingCost, Needed;
      FrontKnown(buf, log.clock);
      if restart.Some? ==> buf.base <= Max(b.base, restart.value) && restart.value < GroupEnd() {
        LostIsNeeded(b, buf, e, enc, at, plan, log.clock);
      }
    }

    /** What a reconnect needs is kept. */
    lemma KeepsRestart(now: Time)
      ensures var keep, restart := KeepFrom(now), RestartPoint();
              && (restart.Some? <==> plan.started) && restart == RestartOf(buf, at.num, plan.started)
              && (restart.Some? && keep.Some? ==> keep.value <= restart.value)
    {
    }

    lemma NothingLeft(now: Time, restart: Option<nat>)
      requires buf.ring == [] && buf.syncs == []
      ensures NothingOld(now, restart)
    {
    }

    /** Room is being made in what was `b` and `e`; `lost`: what is needed has gone. */
    ghost predicate Making(b: Buffer, e: Encoder, now: Time, restart: Option<nat>, lost: bool)
      reads this
    {
      && Valid() && b.Ok(log.clock) && Shrunk(b, buf)
      && enc == e.(sessions := enc.sessions, bytes := enc.bytes)
      && Lighter(e, enc) && HeldBytes() <= b.bytes + e.bytes && enc.bytes <= e.bytes
      && WentRight(b, e, buf.base, now, restart, lost)
    }

    /** All before message `base` was right to go, but for what is `lost`, which took more than the
        limit to be needed. */
    ghost predicate WentRight(b: Buffer, e: Encoder, base: nat, now: Time, restart: Option<nat>, lost: bool)
      reads `config, `at, `plan
    {
      && (restart.Some? && !lost ==> base <= Max(b.base, restart.value))
      && (lost ==> config.ramCapBytes < Needed(b, e, at, plan) && (restart.Some? ==> restart.value < base))
      && (b.bytes + e.bytes <= config.ramCapBytes ==> AllMayGo(b, base, now, restart))
      && (!plan.started && !lost ==> NoneMissed(b, base, now, restart))
    }

    /** The oldest group is to go, and some of it is needed. */
    predicate Loses(now: Time, restart: Option<nat>, keepFrom: Option<nat>)
      requires buf.ring != []
      reads `config, `buf, `enc, `plan
    {
      && OverRam() && !Expired(now, restart) && !NotNeeded(keepFrom)
      && match restart
         case Some(r) => r < GroupEnd()
         case None => now < buf.ring[0].arrival + plan.delay
    }

    lemma RoundRight(b: Buffer, e: Encoder, now: Time, restart: Option<nat>, keepFrom: Option<nat>, lost: bool)
      requires Making(b, e, now, restart, lost) && buf.ring != []
      requires KeepsFrom(b, now, restart, keepFrom) && restart == RestartOf(b, at.num, plan.started)
      requires restart.Some? && keepFrom.Some? ==> keepFrom.value <= restart.value
      ensures OverRam() || Expired(now, restart) || NotNeeded(keepFrom) ==>
                WentRight(b, e, GroupEnd(), now, restart, lost || Loses(now, restart, keepFrom))
    {
      BufferOk();
      hide Engine.Valid, Shrunk, Lighter, Needed, Engine.AllMayGo, Engine.NoneMissed, Engine.KeepsFrom,
        Buffer.SyncAtOrBefore, Buffer.Ok, Engine.Expired, Engine.NotNeeded;
      GroupGoes(b, now, restart, keepFrom);
      AllIsNeeded(b, e, restart);
      EndsBefore(now, restart, keepFrom);
    }

    /** What goes for its age, or because it is not needed, is before what a reconnect needs. */
    lemma EndsBefore(now: Time, restart: Option<nat>, keepFrom: Option<nat>)
      requires buf.ring != [] && buf.Ok(log.clock)
      requires restart.Some? && keepFrom.Some? ==> keepFrom.value <= restart.value
      ensures Expired(now, restart) || NotNeeded(keepFrom) ==> (restart.Some? ==> GroupEnd() <= restart.value)
      ensures buf.base < GroupEnd()
    {
      hide Contiguous, Indexes, RingCost;
      FrontKnown(buf, log.clock);
    }

    /** One round of making room. */
    method EvictMore(now: Time, keepFrom: Option<nat>, restart: Option<nat>, lost: bool,
                     ghost b: Buffer, ghost e: Encoder)
        returns (more: bool, lost': bool)
      requires Making(b, e, now, restart, lost) && now == log.clock && buf.ring != []
      requires KeepsFrom(b, now, restart, keepFrom) && restart == RestartOf(b, at.num, plan.started)
      requires restart.Some? && keepFrom.Some? ==> keepFrom.value <= restart.value
      modifies `buf, `enc
      ensures Making(b, e, now, restart, lost')
      ensures more ==> |buf.ring| < |old(buf).ring|
      ensures more == old(OverRam() || Expired(now, restart) || NotNeeded(keepFrom)) && (more ==> Tidy())
      ensures !more ==> buf == old(buf) && enc == old(enc) && lost' == lost && !OverRam() && NothingOld(now, restart)
    {
      hide Engine.Valid, Shrunk, Lighter, Engine.Expired, Engine.NotNeeded, Engine.NothingOld, Engine.KeepsFrom,
        Engine.GroupEnd, Engine.WentRight, Engine.Loses, Engine.OverRam, Engine.Tidy, Needed, RestartOf;
      ghost var before, encBefore := buf, enc;
      BufferOk();
      OverLimit();
      RoundRight(b, e, now, restart, keepFrom, lost);
      var l;
      more, l := EvictOldest(now, keepFrom, restart);
      BufferOk();
      ShrunkTrans(b, before, buf);
      LighterTrans(e, encBefore, enc);
      lost' := lost || l;
      if !more {
        NothingIsOld(b, now, restart, keepFrom);
      }
    }

    lemma BufferOk()
      requires Valid()
      ensures buf.Ok(log.clock) && (buf.ring == [] ==> buf.syncs == []) && (plan.started <==> RestartPoint().Some?)
    {
      hide HeadersOk, ChainOk, Ready, Continuous, WireOk, ErasedOk, Encoder.Ok, TookOk, HistoryOk, Buffer.Ok;
      EmptyKnown(buf, log.clock);
    }

    method MakeRoom(now: Time) returns (lost: bool)
      requires Valid() && now == log.clock
      modifies `buf, `enc
      ensures Valid() && !OverRam() && Shrunk(old(buf), buf)
      ensures plan.started && !lost ==> buf.base <= Max(old(buf.base), old(RestartPoint()).value)
      ensures lost ==> config.ramCapBytes < old(NeededBytes())
      ensures lost && old(RestartPoint()).Some? ==> old(RestartPoint()).value < buf.base
      ensures enc == old(enc).(sessions := enc.sessions, bytes := enc.bytes)
      ensures Lighter(old(enc), enc) && HeldBytes() <= old(HeldBytes())
      ensures !old(buf.ring != [] && Goes(now)) ==> buf == old(buf) && enc == old(enc) && !lost
      ensures old(HeldBytes()) <= config.ramCapBytes ==> AllMayGo(old(buf), buf.base, now, old(RestartPoint()))
      ensures !plan.started && !lost ==> NoneMissed(old(buf), buf.base, now, None)
      ensures NothingOld(now, old(RestartPoint())) && (buf == old(buf) || Tidy())
    {
      hide Engine.Valid, Shrunk, Lighter, Engine.Expired, Engine.NotNeeded, Needed, Engine.AllMayGo, Engine.NoneMissed,
        Engine.NothingOld, Engine.KeepsFrom, Engine.KeepFrom, Engine.GroupEnd;
      BufferOk();
      ShrunkRefl(buf, log.clock);
      LighterRefl(enc);
      NothingWent(now);
      RoomFrom(now);
      var keepFrom := KeepFrom(now);
      var restart := RestartPoint();
      var more := true;
      lost := false;
      while more && buf.ring != []
        invariant Making(old(buf), old(enc), now, restart, lost)
        invariant !more ==> !OverRam() && NothingOld(now, restart)
        invariant buf == old(buf) || Tidy()
        invariant !old(buf.ring != [] && Goes(now)) ==> buf == old(buf) && enc == old(enc) && !lost
        decreases more, |buf.ring|
      {
        more, lost := EvictMore(now, keepFrom, restart, lost, old(buf), old(enc));
      }
      BufferOk();
      if buf.ring == [] {
        NothingLeft(now, restart);
      }
    }

    lemma RoomFrom(now: Time)
      requires Valid()
      ensures var keep, restart := KeepFrom(now), RestartPoint();
              && KeepsFrom(buf, now, restart, keep) && restart == RestartOf(buf, at.num, plan.started)
              && (restart.Some? && keep.Some? ==> keep.value <= restart.value)
    {
      hide HeadersOk, ChainOk, Ready, Continuous, WireOk, ErasedOk, Encoder.Ok, TookOk, HistoryOk, Buffer.Ok,
        Engine.KeepsFrom;
      KeepMeans(now);
      KeepsRestart(now);
    }

    /** The delay the buffer can hold: a keyframe interval inside its oldest keyframe's age. */
    function HeldDelay(now: Time): Option<Time>
      reads `buf, `enc
    {
      if buf.syncs == [] || !buf.Has(buf.syncs[0]) then None
      else Some(Monus(Monus(now, buf.At(buf.syncs[0]).arrival), enc.interval))
    }

    /** After a shortfall: shortens the delay to one that can be kept, and what was promised no
        longer holds. */
    method MemoryShort(now: Time)
      requires Valid() && now == log.clock
      modifies `plan, `log
      ensures Valid()
      ensures log == old(log).(floor := 0)
      ensures plan == old(plan).Shortened(HeldDelay(now))
    {
      hide HeadersOk, ChainOk, Ready, Continuous, WireOk, ErasedOk, Buffer.Ok, Encoder.Ok, TookOk, HistoryOk;
      log := log.(floor := 0);
      if buf.syncs == [] {
        return;
      }
      SyncKnown(buf, log.clock, buf.syncs[0]);
      var held := Monus(now, buf.At(buf.syncs[0]).arrival);
      var shorter := Monus(held, enc.interval);
      if !plan.started {
        plan := plan.(delay := Min(plan.delay, shorter));
        return;
      }
      var lower := plan.pending.Idle? || (plan.pending.Reduce? && shorter < plan.pending.delay);
      if lower && shorter < plan.delay {
        plan := plan.WithPending(Reduce(shorter));
      }
    }

    // ----- output ---------------------------------------------------------------------

    /** Where an output that needs a keyframe starts, within the session at the cursor: at the
        next one, or, if nothing has aired yet, at the newest that is old enough. */
    function StartPoint(now: Time): (k: Option<nat>)
      reads `buf, `at, `plan
      ensures k.Some? ==>
                && k.value in buf.syncs && at.num <= k.value && buf.Has(k.value) && buf.Has(at.num)
                && buf.At(k.value).session == buf.At(at.num).session
    {
      if !buf.Has(at.num) then None
      else
        var first := FirstOffered();
        if plan.started || first.None? then first
        else
          var due := NewestDue(now);
          if due.Some? then due else first
    }

    /** The next keyframe within the session at the cursor. */
    function FirstOffered(): Option<nat>
      requires buf.Has(at.num)
      reads `buf, `at
    {
      var b, num, session := buf, at.num, buf.At(at.num).session;
      FindFirst(b.syncs, (s: nat) => num <= s && b.Has(s) && b.At(s).session == session)
    }

    /** The newest keyframe within the session at the cursor that is old enough. */
    function NewestDue(now: Time): Option<nat>
      requires buf.Has(at.num)
      reads `buf, `at, `plan
    {
      var b, num, session, delay := buf, at.num, buf.At(at.num).session, plan.delay;
      FindLast(b.syncs, (s: nat) => num <= s && b.Has(s) && b.At(s).session == session
                                    && b.At(s).arrival + delay <= now)
    }

    /** The first message of a later session than `session`, or what comes next. */
    method NextSessionStart(session: nat) returns (num: nat)
      requires Core()
      ensures buf.base <= num <= buf.next
      ensures forall n: nat :: buf.Has(n) && n < num ==> buf.At(n).session <= session
      ensures buf.Has(num) ==> session < buf.At(num).session
    {
      hide HeadersOk, ChainOk, Ready, Continuous, WireOk, ErasedOk, Buffer.Ok, Encoder.Ok, TookOk, HistoryOk;
      EmptyKnown(buf, log.clock);
      var i := 0;
      while i < |buf.ring| && buf.ring[i].session <= session
        invariant 0 <= i <= |buf.ring|
        invariant forall j :: 0 <= j < i ==> buf.ring[j].session <= session
      {
        i := i + 1;
      }
      num := buf.base + i;
    }

    /** The keyframe the output starts from now: its start point, if that is as old as the delay
        and within the broadcast. */
    function Begins(now: Time): (k: Option<nat>)
      reads `buf, `at, `plan
      ensures k.Some? ==> buf.Has(k.value) && buf.At(k.value).arrival <= now
    {
      var k := StartPoint(now);
      if k.Some? && (plan.endMark.Some? ==> k.value <= plan.endMark.value) && Due(now, k.value, plan.delay)
      then k
      else None
    }

    /** Plan `p` once the output starts from a keyframe `age` old: on time, or late for the
        delay asked for, to which it then comes down. */
    function Begun(p: Plan, age: Time): Plan
      reads `config, `enc
    {
      var begun := p.(started := true, delay := age);
      if !p.started && p.pending.Idle? && p.target + 500_000 <= age then begun.WithPending(Reduce(p.target))
      else begun.UnderMax(config.maxDelayMs * 1000, enc.interval)
    }

    /** No keyframe is left of the session at the cursor, which is not the last one. */
    predicate MovesOn(now: Time)
      reads `buf, `enc, `at, `plan
    {
      StartPoint(now).None? && buf.Has(at.num) && enc.sessions != [] && buf.At(at.num).session != enc.Last().id
    }

    /** Message `num`, or what comes, is the first of a session after `session`. */
    ghost predicate LaterSession(num: nat, session: nat)
      reads `buf
    {
      && (forall n: nat :: buf.Has(n) && n < num ==> buf.At(n).session <= session)
      && (buf.Has(num) ==> session < buf.At(num).session)
    }

    /** Right after the end mark, if no keyframe comes up to it, or else where the cursor is. */
    function PastMark(now: Time): nat
      reads `buf, `at, `plan
    {
      var k := StartPoint(now);
      if k.Some? && plan.endMark.Some? && plan.endMark.value < k.value then plan.endMark.value + 1 else at.num
    }

    /** Waits for a keyframe at the cursor no more once one is as old as the delay, and starts
        from it. `again`: look again from the new cursor; `wake`: when one will be due. */
    method Resync(now: Time) returns (again: bool, wake: Option<Time>)
      requires Valid() && now == log.clock && at.needSync && buf.base <= at.num
      requires !plan.pending.Hold? && !plan.pending.Dump?
      requires plan.endMark.Some? ==> at.num <= plan.endMark.value
      modifies `wire, `at, `plan
      ensures plan.endMark == old(plan.endMark) && Rank(plan.pending) == Rank(old(plan.pending))
      ensures !plan.pending.Hold? && !plan.pending.Dump?
      ensures old(at.num) <= at.num
      ensures again ==> at.needSync && old(at.num) < at.num
      ensures !at.needSync ==> buf.Has(at.num) && at.session == Some(buf.At(at.num).session) && at.atSplice
      ensures var k := old(Begins(now));
              if k.Some? then !at.needSync && at.num == k.value && wire == old(wire).(unused := false)
                              && plan == Begun(old(plan), now - buf.At(k.value).arrival)
              else at.needSync && plan == old(plan) && wire == old(wire)
      ensures again == old(MovesOn(now)) && (again ==> LaterSession(at.num, old(buf.At(at.num).session)))
      ensures !again && at.needSync ==> at == old(at) || at == old(at).(num := old(PastMark(now)))
      ensures !again && old(StartPoint(now)).Some? && at.needSync ==> at.num == old(PastMark(now))
      ensures !at.needSync ==> (plan.endMark.Some? ==> at.num <= plan.endMark.value)
      ensures wire == old(wire).(unused := wire.unused)
      ensures !again && at.needSync ==>
                || (plan.endMark.Some? && plan.endMark.value < at.num && wake.None?)
                || WaitsFor(now, StartPoint(now), wake)
      ensures Valid()
    {
      hide HeadersOk, ChainOk, Ready, Continuous, WireOk, ErasedOk, Buffer.Ok, Encoder.Ok, TookOk, HistoryOk,
        Plan.UnderMax, Engine.StartPoint;
      again, wake := false, None;
      var k := StartPoint(now);
      if k.None? {
        EmptyKnown(buf, log.clock);
        if buf.Has(at.num) {
          CursorSession(buf, enc, log.clock, at.num);
          var session := buf.At(at.num).session;
          if session != enc.Last().id {
            var num := NextSessionStart(session);
            UnsyncedReady(buf, enc, wire, at.(num := num), sent, log.limitsHeld, log.cursorCfg, log.consumed);
            at := at.(num := num);
            again := true;
          }
        }
        return;
      }
      SyncKnown(buf, log.clock, k.value);
      if plan.endMark.Some? && plan.endMark.value < k.value {
        var num := plan.endMark.value + 1;
        UnsyncedReady(buf, enc, wire, at.(num := num), sent, log.limitsHeld, log.cursorCfg, log.consumed);
        at := at.(num := num);
        return;
      }
      var arrival := buf.At(k.value).arrival;
      if now < arrival + plan.delay {
        return false, Some(arrival + plan.delay);
      }
      StartAt(now, k.value);
    }

    /** Starts, or starts again, from keyframe `k`, which is due. */
    method StartAt(now: Time, k: nat)
      requires Valid() && now == log.clock && k in buf.syncs && at.needSync
      requires !plan.pending.Hold? && !plan.pending.Dump?
      requires buf.Has(k) && buf.At(k).arrival + plan.delay <= now
      modifies `wire, `at, `plan
      ensures Valid()
      ensures at.num == k && !at.needSync && at.atSplice && at.session == Some(buf.At(k).session)
      ensures plan.endMark == old(plan.endMark) && Rank(plan.pending) == Rank(old(plan.pending))
      ensures !plan.pending.Hold? && !plan.pending.Dump?
      ensures plan == Begun(old(plan), now - buf.At(k).arrival)
      ensures wire == old(wire).(unused := false)
    {
      hide HeadersOk, ChainOk, Ready, Continuous, WireOk, ErasedOk, Buffer.Ok, Encoder.Ok, TookOk, HistoryOk;
      var delay := Max(plan.delay, now - buf.At(k).arrival);
      var late := !plan.started && plan.pending.Idle? && plan.target + 500 * MS <= delay;
      SpliceTo(k, delay);
      if late {
        plan := plan.WithPending(Reduce(plan.target));
      } else {
        BackUnderMax();
      }
    }

    /** A delay over the maximum by more than a keyframe interval is to come down again. */
    method BackUnderMax()
      requires Valid() && plan.started
      modifies `plan
      ensures Valid()
      ensures plan == old(plan).UnderMax(config.maxDelayMs * 1000, enc.interval)
    {
      hide HeadersOk, ChainOk, Ready, Continuous, WireOk, ErasedOk, Buffer.Ok, Encoder.Ok, TookOk, HistoryOk;
      var max := config.maxDelayMs * MS;
      if plan.pending.Idle? && max + enc.interval < plan.delay {
        plan := plan.(target := Min(plan.target, max)).WithPending(Reduce(max));
      }
    }

    /** Replaces a replay that has run out by a hold from the same point, at the same delay. */
    method HoldReplay(now: Time)
      requires Valid() && now == log.clock && plan.pending.Replay?
      modifies `at, `plan
      ensures Valid()
      ensures plan.pending == Hold(old(plan.pending).from, old(plan.pending).delay)
      ensures plan == old(plan).(pending := plan.pending, hold := plan.hold)
    {
      hide HeadersOk, ChainOk, Ready, Continuous, WireOk, ErasedOk, Buffer.Ok, Encoder.Ok, TookOk, HistoryOk;
      var p := plan.pending;
      var frame := AiredKeyframe(now);
      plan := plan.(pending := Hold(p.from, p.delay), hold := frame);
      UnsyncedReady(buf, enc, wire, at.(needSync := true), sent, log.limitsHeld, log.cursorCfg, log.consumed);
      at := at.(needSync := true);
    }

    /** When what comes after a replay is due. */
    function ReplayDue(now: Time, from: nat, delay: Time): Time
      reads `buf
    {
      var k := buf.FirstFrom(from);
      if k.Some? && buf.Has(k.value) then buf.At(k.value).arrival + delay else now + delay
    }

    /** Moves past the message at the cursor without sending it: audio under the slate. */
    method SkipMuted()
      requires Core() && Sending() && Muted(buf.At(at.num))
      modifies `at, `log
      ensures Core()
      ensures var e := old(buf.At(at.num));
              && at == old(at).(num := old(at.num) + 1, atSplice := false)
              && log == old(log).(cursorCfg := After(e), consumed := old(log.consumed) + [old(Passing(None))])
    {
      hide HeadersOk, ChainOk, Ready, Continuous, WireOk, ErasedOk, Buffer.Ok, Encoder.Ok, TookOk, HistoryOk;
      var e := buf.At(at.num);
      AtKnown(buf, log.clock, at.num);
      KnownAtCursor(buf, enc, wire, at, sent, log.limitsHeld, log.cursorCfg, log.consumed);
      ghost var c := Passing(None);
      ConsumedOk(buf, enc, wire, at, sent, log.limitsHeld, log.cursorCfg, log.consumed, log.clock, c);
      PassedHistory(sent, c);
      AdvancedReady(buf, enc, wire, at, sent, log.limitsHeld, log.consumed, log.clock, c);
      at := at.(num := at.num + 1, atSplice := false);
      log := log.(cursorCfg := After(e), consumed := log.consumed + [c]);
    }

    /** The message at the cursor was passed. If it went out, it was the last of all; otherwise
        nothing of it did. */
    twostate predicate PassedOne()
      requires old(buf.Has(at.num))
      reads `sent, `log
    {
      && |log.consumed| == |old(log.consumed)| + 1
      && var c := log.consumed[|old(log.consumed)|];
      && log.consumed == old(log.consumed) + [c] && c == old(Passing(c.out))
      && (c.out.Some? ==> |old(sent)| < |sent| && c.out == Some(|sent| - 1))
      && forall i :: |old(sent)| <= i < |sent| && c.out != Some(i) ==>
           sent[i].origin.Metadata? || sent[i].origin.Header?
    }

    /** Sends the message at the cursor, with the configuration it needs, or leaves it
        out, and moves past it. */
    method Emit(now: Time)
      requires Valid() && now == log.clock && Sending() && !plan.pending.Hold? && !plan.pending.Dump?
      requires buf.At(at.num).arrival + plan.delay <= now
      requires plan.endMark.Some? ==> at.num <= plan.endMark.value
      modifies `wire, `at, `sent, `log
      ensures Valid() && Polled(old(wire), wire, old(log), log, old(sent), sent, now, plan.endMark)
      ensures at.num == old(at.num) + 1
      ensures wire.firstEmitted == if old(Muted(buf.At(at.num))) then old(wire.firstEmitted) else old(First())
      ensures PassedOne() && (old(Muted(buf.At(at.num))) ==> sent == old(sent))
      ensures log.consumed[|old(log.consumed)|].slate == old(plan.pending.Mask? && plan.pending.mute)
    {
      hide HeadersOk, ChainOk, Ready, Continuous, WireOk, ErasedOk, Buffer.Ok, Encoder.Ok, TookOk, HistoryOk;
      AtKnown(buf, log.clock, at.num);
      EntryKept(buf, log.clock, log.erased, at.num);
      if Muted(buf.At(at.num)) {
        SkipMuted();
      } else {
        SendMessage(now);
      }
    }

    method SendMessage(now: Time)
      requires Core() && Sending() && buf.At(at.num).num == at.num && !Muted(buf.At(at.num))
      requires buf.At(at.num).arrival + log.floor <= now && buf.At(at.num).id !in log.erased
      requires plan.endMark.Some? ==> at.num <= plan.endMark.value
      modifies `wire, `at, `sent, `log
      ensures Core() && Polled(old(wire), wire, old(log), log, old(sent), sent, now, plan.endMark)
      ensures at.num == old(at.num) + 1 && !at.needSync && wire.firstEmitted == old(First())
      ensures PassedOne()
    {
      hide HeadersOk, ChainOk, Ready, Continuous, WireOk, ErasedOk, Buffer.Ok, Encoder.Ok, TookOk, HistoryOk;
      Prepare(now);
      EmitEntry(now);
    }

    /** The first message emitted on the connection, once that at the cursor is. */
    function First(): Option<nat>
      reads `wire, `at
    {
      if wire.firstEmitted.Some? then wire.firstEmitted else Some(at.num)
    }

    /** Sends the configuration the message at the cursor needs. */
    method Prepare(now: Time)
      requires Core() && Sending()
      modifies `wire, `at, `sent, `log
      ensures Core() && Sending() && !at.pendingHeaders && wire.firstEmitted == old(First())
      ensures at == old(at).(pendingHeaders := false)
      ensures log == old(log).(cursorCfg := log.cursorCfg)
      ensures OnlyHeadersSent(now)
      ensures wire.generation == old(wire.generation) && wire.epoch == old(wire.epoch)
    {
      hide HeadersOk, ChainOk, Ready, Continuous, WireOk, ErasedOk, Buffer.Ok, Encoder.Ok, TookOk, HistoryOk;
      if at.pendingHeaders {
        EmitHeaders(now);
      }
      if wire.firstEmitted.None? {
        FirstNoted(buf, enc, wire, at, sent, log.limitsHeld, log.cursorCfg, log.consumed, Some(at.num));
        wire := wire.(firstEmitted := Some(at.num));
      }
    }

    /** A cursor the buffer has left behind goes to what is there, and waits for a keyframe. */
    method SkipEvicted()
      requires Valid()
      modifies `at
      ensures Valid()
      ensures at == if old(at.num) < buf.base then old(at).(num := buf.base, needSync := true) else old(at)
    {
      hide HeadersOk, ChainOk, Ready, Continuous, WireOk, ErasedOk, Buffer.Ok, Encoder.Ok, TookOk, HistoryOk;
      if at.num < buf.base {
        EmptyKnown(buf, log.clock);
        UnsyncedReady(buf, enc, wire, at.(num := buf.base, needSync := true), sent, log.limitsHeld, log.cursorCfg,
                      log.consumed);
        at := at.(num := buf.base, needSync := true);
      }
    }

    /** A cursor at another session's messages waits for a keyframe. */
    method CheckSession()
      requires Valid() && wire.connected && buf.base <= at.num
      modifies `at
      ensures Valid() && at == old(at).(needSync := at.needSync)
      ensures at.needSync <==> old(at).needSync || (buf.Has(at.num) && at.session != Some(buf.At(at.num).session))
      ensures !at.needSync && buf.Has(at.num) ==> at.session == Some(buf.At(at.num).session)
      ensures !at.needSync ==> !old(at).needSync && at.session.Some? && !wire.unused
    {
      hide HeadersOk, ChainOk, Ready, Continuous, WireOk, ErasedOk, Buffer.Ok, Encoder.Ok, TookOk, HistoryOk;
      if !at.needSync {
        SessionKnown(buf, enc, wire, at, sent, log.limitsHeld, log.cursorCfg, log.consumed);
        if buf.Has(at.num) && at.session != Some(buf.At(at.num).session) {
          UnsyncedReady(buf, enc, wire, at.(needSync := true), sent, log.limitsHeld, log.cursorCfg, log.consumed);
          at := at.(needSync := true);
        }
      }
    }

    /** Finds the next message to send: `Go` if the cursor is at one that is due. */
    method Settle(now: Time) returns (next: Step, wake: Option<Time>)
      requires Valid() && now == log.clock && wire.connected && !plan.pending.Hold? && !plan.pending.Dump?
      modifies `wire, `at, `plan
      ensures Valid() && !plan.pending.Hold? && !plan.pending.Dump?
      ensures plan.endMark == old(plan.endMark) && Rank(plan.pending) == Rank(old(plan.pending))
      ensures wire == old(wire).(unused := wire.unused)
      ensures old(at.num) <= at.num
      ensures next.Again? ==> old(at.num) < at.num
      ensures next.Go? ==> Sending() && buf.At(at.num).arrival + plan.delay <= now
      ensures next.Go? ==> (plan.endMark.Some? ==> at.num <= plan.endMark.value)
      ensures next.Stop? ==> Waiting(now, wake)
    {
      hide Engine.Core, Engine.Valid, HoldOk, AnchorOk, Plan.Ok, Plan.Promises, Engine.Begins, Engine.Begun,
        Engine.StartPoint, Engine.Due, Rank, FindLast, FindFirst, Buffer.Has, Engine.MovesOn, Engine.LaterSession,
        Engine.PastMark, Engine.GoesOnSoon;
      SkipEvicted();
      if plan.endMark.Some? && plan.endMark.value < at.num {
        return Stop, None;
      }
      CheckSession();
      if at.needSync {
        var again, w := Resync(now);
        if at.needSync {
          return if again then Again else Stop, w;
        }
      }
      if !buf.Has(at.num) {
        return Stop, None;
      }
      var due := buf.At(at.num).arrival + plan.delay;
      if now < due {
        return Stop, Some(due);
      }
      return Go, None;
    }

    /** Nothing is due before `wake`, if there is something to come then: a hold shows its frame, a
        replay waits for what comes next, the broadcast has ended, or the next message or keyframe
        is not old enough, or has not arrived. */
    predicate Waiting(now: Time, wake: Option<Time>)
      reads `buf, `at, `plan
    {
      || ((plan.pending.Hold? || plan.pending.Dump?
           || (plan.pending.Replay? && plan.pending.from <= at.num
               && GoesOnSoon(now, plan.pending.from, plan.pending.delay)))
          && (match plan.hold
              case Some(h) => now < h.next && wake == Some(h.next)
              case None => wake.None?))
      || (plan.endMark.Some? && plan.endMark.value < at.num && wake.None?)
      || WaitsFor(now, if at.needSync then StartPoint(now) else Some(at.num), wake)
    }

    /** What comes after a replay, from message `from` on, is due within two seconds. */
    predicate GoesOnSoon(now: Time, from: nat, delay: Time)
      reads `buf
    {
      var k := buf.FirstFrom(from);
      if k.Some? && buf.Has(k.value) then buf.At(k.value).arrival + delay <= now + 2_000_000 else delay <= 2_000_000
    }

    /** Message `num` is to come at `wake`, once it is as old as the delay; without such a message
        there is nothing to wait for. */
    predicate WaitsFor(now: Time, num: Option<nat>, wake: Option<Time>)
      reads `buf, `plan
    {
      if num.Some? && buf.Has(num.value) then
        now < buf.At(num.value).arrival + plan.delay && wake == Some(buf.At(num.value).arrival + plan.delay)
      else wake.None?
    }

    /** Until `wake`, at the latest, there is nothing to do: nothing is due before, or it is only
        50 ms away, because a change may move along or (`full`) there was no room for more. */
    ghost predicate Rests(now: Time, wake: Option<Time>, full: bool)
      reads `buf, `at, `plan
    {
      || Waiting(now, wake)
      || (wake == Some(now + 50_000)
          && (full || exists w: Option<Time> :: Waiting(now, w) && (w.Some? ==> now + 50_000 <= w.value)))
    }

    /** The cursor is not to move on by itself: a hold or a covered dump decides when, or a
        replay that has come to its end. */
    predicate Paused()
      reads `at, `plan
    {
      plan.pending.Hold? || plan.pending.Dump? || (plan.pending.Replay? && plan.pending.from <= at.num)
    }

    /** One step of `SendDue`: sends the next message if it is due (`more`), or says when
        to look again. */
    method SendNext(now: Time, room: bool) returns (more: bool, wake: Option<Time>)
      requires Valid() && now == log.clock && wire.connected
      modifies `wire, `at, `plan, `sent, `log
      ensures Valid() && plan.endMark == old(plan.endMark)
      ensures Polled(old(wire), wire, old(log), log, old(sent), sent, now, plan.endMark)
      ensures more ==>
                || Rank(plan.pending) < Rank(old(plan.pending))
                || (Rank(plan.pending) == Rank(old(plan.pending)) && old(at.num) < at.num)
      ensures !more ==> Waiting(now, wake) || (!room && wake == Some(now + 50_000))
      ensures old(InHold()) ==> !more && HoldShown(now) && at == old(at)
      ensures OneSent(old(sent), sent) && (!room && sent != old(sent) ==> sent[|sent| - 1].origin.Repeated?)
      ensures old(plan.pending.Replay? && plan.pending.from <= at.num) ==> log == old(log) && sent == old(sent)
    {
      hide Engine.Core, Polled, Engine.StartPoint, Engine.Due;
      if Paused() {
        more, wake := SendPaused(now);
      } else {
        more, wake := SendAtCursor(now, room);
      }
    }

    method SendPaused(now: Time) returns (more: bool, wake: Option<Time>)
      requires Valid() && now == log.clock && wire.connected && Paused()
      modifies `wire, `at, `plan, `sent, `log
      ensures Valid() && plan.endMark == old(plan.endMark)
      ensures Polled(old(wire), wire, old(log), log, old(sent), sent, now, plan.endMark)
      ensures more ==>
                || Rank(plan.pending) < Rank(old(plan.pending))
                || (Rank(plan.pending) == Rank(old(plan.pending)) && old(at.num) < at.num)
      ensures old(InHold()) ==> !more && HoldShown(now) && at == old(at)
      ensures !more ==> Waiting(now, wake)
      ensures more ==>
                && old(plan).pending.Replay? && plan.pending == Hold(old(plan).pending.from, old(plan).pending.delay)
                && !old(GoesOnSoon(now, plan.pending.from, plan.pending.delay))
      ensures !more && old(plan).pending.Replay? ==> plan == old(plan) && at == old(at)
      ensures old(plan).pending.Replay? ==> log == old(log) && sent == old(sent)
      ensures OneSent(old(sent), sent) && (sent != old(sent) ==> sent[|sent| - 1].origin.Repeated?)
    {
      hide HeadersOk, ChainOk, Ready, Continuous, WireOk, ErasedOk, Buffer.Ok, Encoder.Ok, TookOk, HistoryOk;
      if plan.pending.Hold? || plan.pending.Dump? {
        wake := EmitHoldFrame(now);
        return false, wake;
      }
      more, wake := false, None;
      if now + REPLAY_GAP_HELD_AFTER < ReplayDue(now, plan.pending.from, plan.pending.delay) {
        HoldReplay(now);
        more := true;
      }
    }

    method SendAtCursor(now: Time, room: bool) returns (more: bool, wake: Option<Time>)
      requires Valid() && now == log.clock && wire.connected && !Paused()
      modifies `wire, `at, `plan, `sent, `log
      ensures Valid() && plan.endMark == old(plan.endMark)
      ensures Polled(old(wire), wire, old(log), log, old(sent), sent, now, plan.endMark)
      ensures more ==>
                || Rank(plan.pending) < Rank(old(plan.pending))
                || (Rank(plan.pending) == Rank(old(plan.pending)) && old(at.num) < at.num)
      ensures !more ==> Waiting(now, wake) || (!room && wake == Some(now + 50_000))
      ensures OneSent(old(sent), sent) && (!room ==> sent == old(sent))
      ensures log.consumed != old(log.consumed) ==> Still(now)
    {
      hide HeadersOk, ChainOk, Ready, Continuous, WireOk, ErasedOk, Buffer.Ok, Encoder.Ok, TookOk, HistoryOk;
      hide Engine.Waiting;
      var next, w := Settle(now);
      if !next.Go? {
        return next.Again?, w;
      }
      if !room {
        return false, Some(now + 50 * MS);
      }
      Emit(now);
      RunPending(now);
      return true, None;
    }

    /** Sends every message that is due, at most `maxBytes` of payload (and one message). */
    method SendDue(now: Time, maxBytes: nat) returns (wake: Option<Time>)
      requires Valid() && now == log.clock && wire.connected
      modifies `wire, `at, `plan, `sent, `log
      ensures Valid() && plan.endMark == old(plan.endMark)
      ensures Polled(old(wire), wire, old(log), log, old(sent), sent, now, plan.endMark)
      ensures old(InHold()) ==> HoldShown(now) && at == old(at)
      ensures Waiting(now, wake) || (maxBytes <= PayloadBytes(sent[|old(sent)|..]) && wake == Some(now + 50_000))
      ensures WithinBudget(old(sent), sent, maxBytes)
    {
      hide HeadersOk, ChainOk, Ready, Continuous, WireOk, ErasedOk, Buffer.Ok, Encoder.Ok, TookOk, HistoryOk;
      hide Polled, AllMaySend, Engine.Waiting, PayloadBytes, WithinBudget, OneSent;
      var emitted := 0;
      NothingSpent(sent, maxBytes);
      assert PayloadBytes(sent[|sent|..]) == 0 by { NothingBytes(sent); }
      var more := true;
      wake := None;
      NothingPolled(wire, log, sent, now, plan.endMark);
      while more
        invariant Valid() && now == log.clock && wire.connected && plan.endMark == old(plan.endMark)
        invariant Polled(old(wire), wire, old(log), log, old(sent), sent, now, plan.endMark)
        invariant old(sent) <= sent && emitted == PayloadBytes(sent[|old(sent)|..])
        invariant WithinBudget(old(sent), sent, maxBytes)
        invariant !more ==> Waiting(now, wake) || (maxBytes <= emitted && wake == Some(now + 50_000))
        invariant old(InHold()) && more ==>
                    wire == old(wire) && plan == old(plan) && sent == old(sent) && log == old(log)
        invariant old(InHold()) ==> at == old(at) && (!more ==> HoldShown(now))
        decreases more, Rank(plan.pending), buf.next - at.num
      {
        ghost var w, l, s := wire, log, sent;
        var before := |sent|;
        more, wake := SendNext(now, emitted < maxBytes);
        PolledTrans(old(wire), w, wire, old(log), l, log, old(sent), s, sent, now, plan.endMark);
        PolledKeeps(w, wire, l, log, s, sent, now, plan.endMark);
        PayloadBytesGrow(s, sent, |old(sent)|);
        BudgetKept(old(sent), s, sent, maxBytes);
        emitted := emitted + PayloadBytes(sent[before..]);
      }
    }

    /** Takes note of the time. */
    ghost method Tick(now: Time)
      requires Valid() && log.clock <= now
      modifies `log
      ensures Valid() && log == old(log).(clock := now)
    {
      hide HeadersOk, ChainOk, Ready, Continuous, WireOk, ErasedOk, Buffer.Ok, Encoder.Ok, TookOk, HistoryOk;
      LaterClock(buf, log.clock, now);
      log := log.(clock := now);
    }

    /** Sends what is due as far as `maxBytes` of payload go (the last message may exceed
        them); `wake` is when something will be due at the latest. */
    method PollBudget(now: Time, maxBytes: nat) returns (wake: Option<Time>)
      requires Valid() && log.clock <= now
      modifies `buf, `enc, `wire, `at, `plan, `sent, `log
      ensures Valid() && log.clock == now
      ensures log.shortfalls == old(log.shortfalls) ==> log.floor == old(log.floor)
      ensures log.shortfalls != old(log.shortfalls) ==>
                var f := Shortfall(now, old(NeededBytes()), config.ramCapBytes, old(RestartPoint()), buf.base);
                f.Real() && log.shortfalls == old(log.shortfalls) + [f]
      ensures enc == old(enc).(sessions := enc.sessions, bytes := enc.bytes)
      ensures Lighter(old(enc), enc) && HeldBytes() <= old(HeldBytes())
      ensures old(sent) <= sent && AllMaySend(sent, |old(sent)|, now, log.floor, log.erased, plan.endMark)
      ensures old(log.consumed) <= log.consumed
      ensures log.erased == old(log.erased) && log.limitsHeld == old(log.limitsHeld) && log.took == old(log.took)
      ensures log.arrived == old(log.arrived)
      ensures plan.endMark == old(plan.endMark)
      ensures wire.connected == old(wire.connected) && wire.generation == old(wire.generation)
      ensures wire.epoch == old(wire.epoch)
      ensures !wire.connected ==> sent == old(sent) && log.consumed == old(log.consumed)
      ensures WithinBudget(old(sent), sent, maxBytes)
      ensures Shrunk(old(buf), buf)
      ensures old(wire.connected && InHold() && Still(now) && !(buf.ring != [] && Goes(now))) ==>
                HoldShown(now) && at == old(at) && buf == old(buf)
      ensures wire.connected ==> Rests(now, wake, maxBytes <= PayloadBytes(sent[|old(sent)|..]))
      ensures !wire.connected ==> Still(now)
      ensures !wire.connected ==> wake == if plan.pending.Idle? then None else Some(now + 50_000)
      ensures old(!plan.pending.Idle? && Still(now) && !(buf.ring != [] && Goes(now))) ==>
                wake.Some? && wake.value <= now + 50_000
    {
      hide Engine.Core, Polled, AllMaySend, Shrunk, Lighter, Engine.Waiting, PayloadBytes, HoldOk, AnchorOk, Plan.Ok,
        WithinBudget, Plan.Promises, Engine.Still, Engine.Goes, Engine.OverRam, Engine.RestartPoint, Needed;
      NothingSpent(sent, maxBytes);
      Upkeep(now);
      var pendingWake := if plan.pending.Idle? then None else Some(now + 50 * MS);
      if !wire.connected {
        NothingPolled(wire, log, sent, now, plan.endMark);
        PolledKeeps(wire, wire, log, log, sent, sent, now, plan.endMark);
        return pendingWake;
      }
      ghost var w, l := wire, log;
      wake := SendDue(now, maxBytes);
      PolledKeeps(w, wire, l, log, old(sent), sent, now, plan.endMark);
      ghost var due := wake;
      if wake.None? || (pendingWake.Some? && pendingWake.value < wake.value) {
        wake := pendingWake;
      }
      assert Waiting(now, due) ==> Rests(now, wake, maxBytes <= PayloadBytes(sent[|old(sent)|..]));
    }

    /** What a poll does before it sends: keeps the buffer within its limits and moves the
        pending change along. */
    method Upkeep(now: Time)
      requires Valid() && log.clock <= now
      modifies `buf, `enc, `wire, `at, `plan, `log
      ensures Valid() && log == old(log).(clock := now, floor := log.floor, shortfalls := log.shortfalls)
      ensures log.shortfalls == old(log.shortfalls) ==> log.floor == old(log.floor)
      ensures log.shortfalls != old(log.shortfalls) ==>
                var f := Shortfall(now, old(NeededBytes()), config.ramCapBytes, old(RestartPoint()), buf.base);
                f.Real() && log.shortfalls == old(log.shortfalls) + [f]
      ensures enc == old(enc).(sessions := enc.sessions, bytes := enc.bytes)
      ensures Lighter(old(enc), enc) && HeldBytes() <= old(HeldBytes()) && Shrunk(old(buf), buf)
      ensures plan.endMark == old(plan.endMark) && Still(now)
      ensures wire == old(wire).(unused := wire.unused, lastOutTs := wire.lastOutTs)
      ensures old(Still(now) && !(buf.ring != [] && Goes(now))) ==>
                && plan == old(plan) && wire == old(wire) && at == old(at) && buf == old(buf)
                && log == old(log).(clock := now)
    {
      hide Engine.Core, Shrunk, Lighter, HoldOk, AnchorOk, Plan.Ok, Plan.Promises, Engine.HeldDelay,
        Needed, Engine.Still, Engine.Goes, Engine.RestartPoint, Engine.OverRam;
      Tick(now);
      Evict(now);
      RunPending(now);
    }

    // ----- ingest ---------------------------------------------------------------------

    /** Which track an incoming message configures. */
    static function ConfigOf(kind: Kind, info: Info): Option<nat> {
      if kind.Data? || !info.known then None else info.config
    }

    /** An incoming message counts as a keyframe: a video one, or audio while its session has
        had no video. */
    static predicate Syncs(kind: Kind, info: Info, hasVideo: bool) {
      && info.known
      && ((kind.Video? && info.keyframe) || (kind.Audio? && info.config.None? && !hasVideo))
    }

    /** The current session after an incoming message, but for its headers. */
    static function Observed(s: Session, kind: Kind, ts: nat, info: Info): Session {
      if !kind.Video? || !info.known then s
      else if info.config.Some? then s.(hasVideo := true)
      else
        var d := if s.lastVideoTs.Some? then Monus(ts, s.lastVideoTs.value) else 0;
        s.(hasVideo := true, lastVideoTs := Some(ts), frameMs := if 1 <= d <= 200 then d else s.frameMs)
    }

    /** `e`'s configuration was added, the oldest forgotten to keep within the limits. */
    static ghost predicate Replaces(headers: seq<HeaderRec>, headers': seq<HeaderRec>, e: Entry, budget: nat) {
      && e.config.Some?
      && |headers'| <= 64 && HeadersCost(headers') <= budget
      && exists k :: 0 <= k <= |headers|
           && headers' == headers[k..] + [HeaderRec(e.num, Track(e.kind, e.config.value), e.payload)]
           && (0 < k ==> 64 <= |headers| - (k - 1) || budget < HeadersCost(headers[k - 1..]) + Cost(e.payload.size))
    }

    /** `e` changes the configuration session `s` keeps. */
    static predicate Adds(s: Session, e: Entry) {
      e.config.Some? &&
      var track, kept := Track(e.kind, e.config.value), MapOf(s.headers);
      !(track in kept && kept[track] == e.payload)
    }

    /** What `e`'s configuration adds to what session `s` keeps. */
    static function AddedCost(s: Session, e: Entry): nat {
      if Adds(s, e) then Cost(e.payload.size) else 0
    }

    /** There is room for `e`'s configuration beside all that session `s` keeps. */
    static predicate HasRoom(s: Session, e: Entry, budget: nat) {
      Adds(s, e) ==>
        && e.payload.size <= 1_048_576
        && |s.headers| < 64
        && HeadersCost(s.headers) + Cost(e.payload.size) <= budget
    }

    /** The configuration session `s` keeps once `e` has come. `held`: nothing was refused, or
        forgotten to make room, which is exactly when there is room. */
    static method NoteHeader(s: Session, e: Entry, budget: nat) returns (headers: seq<HeaderRec>, ghost held: bool)
      ensures held == HasRoom(s, e, budget)
      ensures held && MapOf(s.headers) == e.cfg ==> Noted(s.headers, headers, e)
      ensures headers == s.headers || (Adds(s, e) && Replaces(s.headers, headers, e, budget))
      ensures |headers| <= |s.headers| + 1 && HeadersCost(headers) <= HeadersCost(s.headers) + Cost(e.payload.size)
      ensures e.config.Some? && e.payload.size <= 1_048_576 && Cost(e.payload.size) <= budget ==>
                var track := Track(e.kind, e.config.value);
                track in MapOf(headers) && MapOf(headers)[track] == e.payload
    {
      hide MapOf, HeadersCost;
      headers, held := s.headers, true;
      if e.config.None? {
        return;
      }
      var track := Track(e.kind, e.config.value);
      var kept := MapOf(s.headers);
      if track in kept && kept[track] == e.payload {
        return;
      }
      if MAX_HEADER_BYTES < e.payload.size || budget < Cost(e.payload.size) {
        held := false;
        return;
      }
      held := |s.headers| < MAX_HEADERS && HeadersCost(s.headers) + Cost(e.payload.size) <= budget;
      while MAX_HEADERS <= |headers| || budget < HeadersCost(headers) + Cost(e.payload.size)
        invariant |headers| <= |s.headers| && headers == s.headers[|s.headers| - |headers|..]
        invariant HeadersCost(headers) <= HeadersCost(s.headers)
        invariant held ==> headers == s.headers
        invariant |headers| < |s.headers| ==>
                    || 64 <= |headers| + 1
                    || budget < HeadersCost(s.headers[|s.headers| - |headers| - 1..]) + Cost(e.payload.size)
        decreases |headers|
      {
        HeadersCostTail(headers);
        headers := headers[1..];
      }
      HeadersCostMore(headers, HeaderRec(e.num, track, e.payload));
      MapOfMore(headers, HeaderRec(e.num, track, e.payload));
      headers := headers + [HeaderRec(e.num, track, e.payload)];
    }

    /** An incoming message as it is buffered. */
    function NewEntry(now: Time, kind: Kind, ts: nat, payload: Payload, info: Info): Entry
      requires enc.sessions != []
      reads `buf, `enc
    {
      var s := enc.Last();
      var video := kind.Video? && info.known;
      Entry(buf.next, now, s.id, kind, ts, payload, Syncs(kind, info, s.hasVideo), ConfigOf(kind, info),
            if video then info.cts else 0, if video then info.nal else NoNal, buf.nextId, enc.cfg, info, enc.began)
    }

    /** The budget for the configuration a session keeps. */
    function HeaderBudget(): nat
      reads `config
    {
      config.ramCapBytes / HEADER_SHARE_OF_RAM_CAP
    }

    /** An incoming message is not taken. */
    predicate Ignores(payload: Payload)
      reads `enc
    {
      !enc.active || payload.size == 0
    }

    /** The whole buffer is within the history kept. */
    predicate InHistory(now: Time)
      reads `config, `buf
    {
      config.keepHistory
      && (buf.ring != [] ==> now <= buf.ring[0].arrival + (config.maxDelayMs + config.headroomMs) * 1000)
    }

    /** Buffers an incoming message at the end, with the time it came, and keeps the buffer
        within its limits. */
    method Ingest(now: Time, kind: Kind, ts: nat, payload: Payload, info: Inspected)
      requires Valid() && log.clock <= now
      modifies `buf, `enc, `plan, `log
      ensures Valid() && log.clock == now && enc.active == old(enc.active)
      ensures old(Ignores(payload)) ==> buf == old(buf) && enc == old(enc) && log == old(log).(clock := now)
      ensures !old(Ignores(payload)) ==>
                && old(enc).sessions != [] && enc.sessions != []
                && var s, e := old(enc).Last(), old(NewEntry(now, kind, ts, payload, info));
                && Shrunk(Appended(old(buf), e), buf) && enc.cfg == After(e)
                && log.limitsHeld == (old(log.limitsHeld) && HasRoom(s, e, config.ramCapBytes / 8))
                && |enc.Last().headers| <= |s.headers| + (if Adds(s, e) then 1 else 0)
                && HeadersCost(enc.Last().headers) <= HeadersCost(s.headers) + AddedCost(s, e)
                && HeldBytes() <= old(HeldBytes()) + 2 * Cost(payload.size)
                && (old(InHistory(now)) && old(HeldBytes()) + 2 * Cost(payload.size) <= config.ramCapBytes ==>
                      && buf == Appended(old(buf), e) && log.shortfalls == old(log.shortfalls)
                      && enc.Last() == Observed(s, kind, ts, info).(headers := enc.Last().headers))
      ensures log.shortfalls == old(log.shortfalls) ==> plan == old(plan) && log.floor == old(log.floor)
      ensures log.shortfalls != old(log.shortfalls) ==>
                && |log.shortfalls| == |old(log.shortfalls)| + 1
                && var f := log.shortfalls[|old(log.shortfalls)|];
                && log.shortfalls == old(log.shortfalls) + [f]
                && f.Real() && f.at == now && f.cap == config.ramCapBytes && f.base == buf.base
                && f.needed <= old(NeededBytes()) + 2 * Cost(payload.size)
                && (old(plan.started) ==> f.restart.Some? && old(RestartPoint()).value <= f.restart.value)
      ensures log.erased == old(log.erased) && log.consumed == old(log.consumed)
      ensures plan.endMark == old(plan.endMark)
      ensures !old(Ignores(payload)) ==>
                TookIn(old(buf), buf, old(enc), enc, old(log.arrived), log.arrived, now, kind, ts, payload, info)
    {
      hide HeadersOk, ChainOk, Ready, Continuous, WireOk, ErasedOk, Buffer.Ok, Encoder.Ok, TookOk, HistoryOk;
      hide HoldOk, AnchorOk, Plan.Ok, Plan.Promises, Appended, After, HasRoom, Adds, Engine.NewEntry,
        Engine.RestartPoint, Engine.Goes, Engine.HeldDelay, Lighter, HeadersCost, Shrunk, Engine.InHistory, Needed;
      Tick(now);
      if !enc.active || payload.size == 0 {
        return;
      }
      Store(now, kind, ts, payload, info);
      ghost var stored, bufStored := enc, buf;
      if old(InHistory(now)) && HeldBytes() <= config.ramCapBytes {
        AllStays(now);
      }
      Evict(now);
      LighterKnown(stored, enc);
      StillTaken(old(buf), bufStored, buf, old(enc), stored, enc, old(log.arrived), log.arrived, now, kind, ts, payload,
                 info, log.clock);
    }

    /** Nothing goes while the buffer is within the memory limit and its history. */
    lemma AllStays(now: Time)
      requires Core() && now == log.clock && buf.ring != [] && InHistory(now) && HeldBytes() <= config.ramCapBytes
      ensures !Goes(now)
    {
      hide HeadersOk, ChainOk, Ready, Continuous, WireOk, ErasedOk, Buffer.Ok, Encoder.Ok, TookOk, HistoryOk;
      FrontKnown(buf, log.clock);
    }

    /** An incoming message is marked as inspection and its stream say. */
    lemma MarkedRight(now: Time, kind: Kind, ts: nat, payload: Payload, info: Inspected)
      requires Core() && enc.active && enc.sessions != []
      ensures var e := NewEntry(now, kind, ts, payload, info); Marked(log.arrived + [e], |log.arrived|)
    {
      hide HeadersOk, ChainOk, Ready, Continuous, WireOk, ErasedOk, Buffer.Ok, Encoder.Ok, TookOk, AllMarked,
        AllAsArrived, AllPassed, HadVideo;
      var e := NewEntry(now, kind, ts, payload, info);
      var more := log.arrived + [e];
      assert more[|log.arrived|] == e;
      HadVideoBefore(log.arrived, more, enc.began, |log.arrived|);
    }

    /** Puts an incoming message at the end of the buffer. */
    method Store(now: Time, kind: Kind, ts: nat, payload: Payload, info: Inspected)
      requires Valid() && log.clock == now && !Ignores(payload)
      modifies `buf, `enc, `log
      ensures Valid() && enc.active && old(enc).sessions != [] && enc.sessions != []
      ensures var s, e := old(enc).Last(), old(NewEntry(now, kind, ts, payload, info));
              && buf == Appended(old(buf), e) && enc.cfg == After(e)
              && log == old(log).(limitsHeld := old(log.limitsHeld) && HasRoom(s, e, HeaderBudget()),
                                  arrived := old(log.arrived) + [e])
              && |enc.Last().headers| <= |s.headers| + (if Adds(s, e) then 1 else 0)
              && HeadersCost(enc.Last().headers) <= HeadersCost(s.headers) + AddedCost(s, e)
      ensures HeldBytes() <= old(HeldBytes()) + 2 * Cost(payload.size)
      ensures NeededBytes() <= old(NeededBytes()) + 2 * Cost(payload.size)
      ensures plan.started ==> RestartPoint().Some? && old(RestartPoint()).value <= RestartPoint().value
      ensures enc.Last() == Observed(old(enc).Last(), kind, ts, info).(headers := enc.Last().headers)
      ensures buf.ring != [] && (old(InHistory(now)) ==> InHistory(now))
      ensures TookIn(old(buf), buf, old(enc), enc, old(log.arrived), log.arrived, now, kind, ts, payload, info)
    {
      hide HeadersOk, ChainOk, Ready, Continuous, WireOk, ErasedOk, Buffer.Ok, Encoder.Ok, TookOk, HistoryOk;
      hide Buffer.SyncAtOrBefore, Appended, HoldOk, AnchorOk, Plan.Ok, Plan.Promises, Noted, Needed;
      LastSession(buf, enc, log.clock);
      RestartsLater(buf, NewEntry(now, kind, ts, payload, info), at.num, log.clock);
      var s := enc.Last();
      var e := NewEntry(now, kind, ts, payload, info);
      MarkedRight(now, kind, ts, payload, info);
      var headers; ghost var held;
      headers, held := NoteHeader(s, e, HeaderBudget());
      Append(e, Observed(s, kind, ts, info).(headers := headers), info, log.limitsHeld && held);
      AppendedFirst(old(buf), buf, e);
      NeededAppended(old(buf), e, old(enc), enc, at, plan, log.clock);
      WasTaken(old(buf), old(enc), enc, sent, old(log.arrived), log.consumed, log.clock, e);
    }

    /** Puts message `e` at the end of the buffer, and its session as it is after it. */
    method Append(e: Entry, s: Session, info: Info, ghost held: bool)
      requires Valid() && log.clock == e.arrival && enc.active && enc.sessions != [] && 0 < info.interval
      requires e.num == buf.next && e.id == buf.nextId && e.session == enc.Last().id == s.id && e.cfg == enc.cfg
      requires e.sync ==> e.config.None?
      requires e.info == info && e.began == enc.began && Marked(log.arrived + [e], |log.arrived|)
      requires s.hasVideo == (enc.Last().hasVideo || (e.kind.Video? && info.known))
      requires held ==> log.limitsHeld && Noted(enc.Last().headers, s.headers, e)
      modifies `buf, `enc, `log
      ensures Valid()
      ensures log == old(log).(limitsHeld := held, arrived := old(log.arrived) + [e])
      ensures buf == Appended(old(buf), e) && enc.cfg == After(e)
      ensures enc.active && enc.sessions != [] && enc.Last() == s && enc.began == old(enc.began)
      ensures enc.bytes + SessionCost(old(enc).Last()) == old(enc).bytes + SessionCost(s)
      ensures buf.bytes == old(buf.bytes) + e.payload.size + 152
    {
      hide HeadersOk, ChainOk, Ready, Continuous, WireOk, ErasedOk, Buffer.Ok, Encoder.Ok, TookOk, HistoryOk;
      hide Appended, Noted, Plan.Ok, Plan.Promises, SessionsCost, SessionCost;
      var sessions := enc.sessions[|enc.sessions| - 1 := s];
      var enc' := enc.(sessions := sessions, bytes := SessionsCost(sessions), cfg := After(e),
                       interval := info.interval, bitrate := info.bitrate);
      BytesKnown(buf, enc);
      SessionsCostSplit(enc.sessions);
      SessionsCostSplit(sessions);
      assert sessions[..|sessions| - 1] == enc.sessions[..|sessions| - 1];
      LastSession(buf, enc, log.clock);
      AppendedOk(buf, e, log.clock);
      AppendedSessions(buf, enc, enc', e);
      AppendedKept(buf, e, enc, enc', wire, at, sent, log.limitsHeld, held, log.cursorCfg, log.consumed, log.erased,
                   plan.pending, log.clock);
      if held {
        HeadersAppended(buf, e, enc, enc', s, log.clock);
      }
      HeldLess(wire, sent, log.took, log.limitsHeld, held);
      AppendedGrows(buf, e);
      HistoryAppended(buf, enc, enc', sent, log.arrived, log.consumed, e);
      HeldStays(plan.hold, log.arrived, log.erased, e);
      buf := Appended(buf, e);
      enc := enc';
      log := log.(limitsHeld := held, arrived := log.arrived + [e]);
    }

    /** A publisher connected. */
    method IngestStart(now: Time) returns (id: nat)
      requires Valid() && log.clock <= now
      modifies `buf, `enc, `at, `log
      ensures Valid() && log.clock == now
      ensures enc.active && enc.sessions != [] && id == enc.Last().id && enc.cfg == map[]
      ensures enc.Last() == Session(id, [], None, false, None, 33) && enc.interval == 2_000_000 && enc.bitrate == 0
      ensures old(enc.nextSession) == id && enc.began == |log.arrived|
      ensures old(plan.started) ==>
                buf == old(buf) && enc == NewSession(buf, old(enc)) && at == old(at) && log == old(log).(clock := now)
      ensures !old(plan.started) ==> buf == Emptied(old(buf)) && at == old(at).(num := buf.next, needSync := true)
      ensures log == old(log).(clock := now, erased := log.erased) && old(log.erased) <= log.erased
      ensures HeldBytes() <= old(HeldBytes()) + Cost(0)
    {
      hide HeadersOk, ChainOk, Ready, Continuous, WireOk, ErasedOk, Buffer.Ok, Encoder.Ok, TookOk, HistoryOk;
      Tick(now);
      if !plan.started {
        DropBuffer();
      }
      BytesKnown(buf, enc);
      NewSessionCost(buf, enc);
      NewSessionOk(buf, enc, log.clock);
      NewSessionKept(buf, enc, wire, at, sent, log.limitsHeld, log.cursorCfg, log.consumed, log.clock);
      HistoryBegins(buf, enc, NewSession(buf, enc), sent, log.arrived, log.consumed);
      enc := NewSession(buf, enc);
      id := enc.Last().id;
    }

    /** The encoder is gone; nothing else changes. */
    method IngestEnd()
      requires Valid()
      modifies `enc
      ensures Valid() && enc == old(enc).(active := false)
    {
      hide HeadersOk, ChainOk, Ready, Continuous, WireOk, ErasedOk, Buffer.Ok, Encoder.Ok, TookOk, HistoryOk;
      StoppedKept(buf, enc, wire, at, sent, log.limitsHeld, log.cursorCfg, log.consumed);
      HistoryStops(buf, enc, sent, log.arrived, log.consumed);
      enc := enc.(active := false);
    }

    /** Keeps metadata with the last session, up to a size. */
    method IngestMetadata(payload: Payload)
      requires Valid()
      modifies `enc
      ensures Valid()
      ensures payload.size <= 65_536 && old(enc).sessions != [] ==>
                var last := |old(enc).sessions| - 1;
                enc.sessions == old(enc).sessions[last := old(enc).Last().(metadata := Some(payload))]
      ensures payload.size > 65_536 || old(enc).sessions == [] ==> enc == old(enc)
      ensures enc == old(enc).(sessions := enc.sessions, bytes := enc.bytes)
      ensures Lighter(old(enc), enc) && enc.bytes <= old(enc.bytes) + payload.size
    {
      hide HeadersOk, ChainOk, Ready, Continuous, WireOk, ErasedOk, Buffer.Ok, Encoder.Ok, TookOk, HistoryOk;
      LighterRefl(enc);
      BytesKnown(buf, enc);
      if payload.size <= MAX_METADATA_BYTES && enc.sessions != [] {
        var sessions := enc.sessions[|enc.sessions| - 1 := enc.Last().(metadata := Some(payload))];
        var enc' := enc.(sessions := sessions, bytes := SessionsCost(sessions));
        MetadataKept(buf, enc, enc', wire, at, sent, log.limitsHeld, log.cursorCfg, log.consumed);
        MetadataCost(enc, enc', payload);
        HistoryKept(buf, buf, enc, enc', sent, log.arrived, log.consumed);
        enc := enc';
      }
    }

    /** Throws the buffer away, and every session but the running one. */
    method DropBuffer()
      requires Core() && AnchorOk(buf, plan.pending)
      modifies `buf, `enc, `at, `log
      ensures Core() && AnchorOk(buf, plan.pending)
      ensures buf == Emptied(old(buf)) && Pruned(OnlyRunning(old(enc)), enc, buf.base) && Tidy()
      ensures if old(enc.active && enc.sessions != []) then |enc.sessions| == 1 && enc.Last().id == old(enc.Last().id)
              else enc.sessions == []
      ensures at == old(at).(num := buf.next, needSync := true)
      ensures log == old(log).(erased := old(log.erased) + IdsFrom(old(buf), old(at.num)))
      ensures Lighter(old(enc), enc) && enc.bytes <= old(enc.bytes)
    {
      hide HeadersOk, ChainOk, Ready, Continuous, WireOk, ErasedOk, Buffer.Ok, Encoder.Ok, TookOk, HistoryOk;
      hide Lighter;
      BytesKnown(buf, enc);
      OnlyRunningLighter(enc);
      UnsyncedReady(Emptied(buf), OnlyRunning(enc), wire, at.(num := buf.next, needSync := true), sent, log.limitsHeld,
                    log.cursorCfg, log.consumed);
      EmptiedOk(buf, enc, log.limitsHeld, log.clock, log.erased, at.num, plan.pending);
      HistoryKept(buf, Emptied(buf), enc, OnlyRunning(enc), sent, log.arrived, log.consumed);
      log := log.(erased := log.erased + IdsFrom(buf, at.num));
      at := at.(num := buf.next, needSync := true);
      enc := OnlyRunning(enc);
      buf := Emptied(buf);
      ForgetHeaders();
      LighterTrans(old(enc), OnlyRunning(old(enc)), enc);
    }

    // ----- output lifecycle -----------------------------------------------------------

    /** Where a new connection starts at once, if anywhere. */
    function ReconnectsAt(): Option<nat>
      reads `buf, `at, `plan
    {
      if plan.started && !plan.pending.Hold? && !plan.pending.Dump? then buf.SyncAtOrBefore(at.num) else None
    }

    /** A new connection: nothing counts as sent on it, and a broadcast on air splices to its
        restart point unless it is paused. */
    method OutputConnected(now: Time) returns (generation: nat)
      requires Valid() && log.clock <= now
      modifies `wire, `at, `plan, `log
      ensures Valid() && log == old(log).(clock := now, took := [])
      ensures wire.connected && generation == wire.generation == old(wire.generation) + 1
      ensures wire == NewWire(old(wire)).(unused := wire.unused)
      ensures var from := old(ReconnectsAt());
              && (from.None? ==> at == old(at).(needSync := true) && plan == old(plan).(hold := plan.hold))
              && (from.Some? ==>
                    && at.num == from.value && !at.needSync && at.atSplice && !wire.unused
                    && buf.Has(at.num) && at.session == Some(buf.At(at.num).session)
                    && plan == Late(old(plan), Monus(now, buf.At(at.num).arrival)))
      ensures plan.hold.Some? == old(plan.hold.Some?) && plan.endMark == old(plan.endMark)
      ensures plan.hold.Some? ==> plan.hold.value.needsHeaders && plan.hold.value.next == now
    {
      hide HeadersOk, ChainOk, Ready, Continuous, WireOk, ErasedOk, Buffer.Ok, Encoder.Ok, TookOk, HistoryOk;
      hide HoldOk, AnchorOk, Plan.Promises;
      var from := ReconnectsAt();
      Reconnect(now);
      if from.Some? {
        Restart(now, from.value);
      }
      generation := wire.generation;
    }

    /** A connection on which nothing was sent. */
    method Reconnect(now: Time)
      requires Valid() && log.clock <= now
      modifies `wire, `at, `plan, `log
      ensures Valid() && log == old(log).(clock := now, took := [])
      ensures wire == NewWire(old(wire)) && at == old(at).(needSync := true)
      ensures plan == old(plan).(hold := plan.hold) && plan.hold.Some? == old(plan.hold.Some?)
      ensures plan.hold.Some? ==> plan.hold.value == old(plan).hold.value.(needsHeaders := true, next := now)
    {
      hide HeadersOk, ChainOk, Ready, Continuous, WireOk, ErasedOk, Buffer.Ok, Encoder.Ok, TookOk, HistoryOk;
      Tick(now);
      NewWireOk(wire, sent, log.limitsHeld);
      UnsyncedReady(buf, enc, NewWire(wire), at.(needSync := true), sent, log.limitsHeld, log.cursorCfg, log.consumed);
      log := log.(took := []);
      wire, at := NewWire(wire), at.(needSync := true);
      if plan.hold.Some? {
        plan := plan.(hold := Some(plan.hold.value.(needsHeaders := true, next := now)));
      }
    }

    /** Plan `p` once an outage made the delay at least `age`: back under the maximum, and to
        the delay set if that is asked for. */
    function Late(p: Plan, age: Time): Plan
      reads `config, `buf, `enc
    {
      var late := p.(delay := Max(p.delay, age)).UnderMax(config.maxDelayMs * 1000, enc.interval);
      if config.restoreAfterReconnect then late.BackToTarget(buf.next) else late
    }

    /** Starts a connection again from keyframe `k`, with at least the delay there was. */
    method Restart(now: Time, k: nat)
      requires Valid() && now == log.clock && k in buf.syncs && plan.started
      requires !plan.pending.Hold? && !plan.pending.Dump?
      modifies `wire, `at, `plan
      ensures Valid()
      ensures wire == old(wire).(unused := false)
      ensures at.num == k && !at.needSync && at.atSplice
      ensures buf.Has(k) && at.session == Some(buf.At(k).session)
      ensures plan == Late(old(plan), Monus(now, buf.At(k).arrival))
    {
      hide HeadersOk, ChainOk, Ready, Continuous, WireOk, ErasedOk, Buffer.Ok, Encoder.Ok, TookOk, HistoryOk;
      SyncKnown(buf, log.clock, k);
      SpliceTo(k, Max(plan.delay, Monus(now, buf.At(k).arrival)));
      BackUnderMax();
      if config.restoreAfterReconnect {
        BackToTarget();
      }
    }

    /** With the delay half a second over the target or more, and no change pending that brings
        it as low: reduces it to the target, or to live with the next message's keyframe. */
    method BackToTarget()
      requires Valid() && plan.started
      modifies `plan
      ensures Valid()
      ensures var p := old(plan);
              var free := p.pending.Idle? || (p.pending.Reduce? && p.target < p.pending.delay);
              if p.target + 500_000 <= p.delay && free
              then plan == p.(pending := plan.pending, hold := None)
                   && plan.pending == if p.target == 0 then GoLiveNow(Monus(buf.next, 1)) else Reduce(p.target)
              else plan == p
      ensures plan.pending.Idle? ==> plan.delay < plan.target + 500_000
      ensures plan.pending.Reduce? && plan.target + 500_000 <= plan.delay ==> plan.pending.delay <= plan.target
      ensures plan == old(plan).BackToTarget(buf.next)
    {
      hide HeadersOk, ChainOk, Ready, Continuous, WireOk, ErasedOk, Buffer.Ok, Encoder.Ok, TookOk, HistoryOk;
      if plan.delay < plan.target + 500 * MS {
        return;
      }
      if plan.pending.Idle? || (plan.pending.Reduce? && plan.target < plan.pending.delay) {
        plan := plan.WithPending(if plan.target == 0 then GoLiveNow(Monus(buf.next, 1)) else Reduce(plan.target));
      }
    }

    /** The destination connection dropped. `lastWritten`: the last message that was fully
        written, so sending can resume right after it. */
    method OutputDisconnected(lastWritten: Option<nat>)
      requires Valid()
      modifies `wire, `at
      ensures Valid()
      ensures wire == old(wire).(connected := false)
      ensures at == old(at).(num := ResumeAt(old(at.num), lastWritten, wire.firstEmitted))
    {
      hide HeadersOk, ChainOk, Ready, Continuous, WireOk, ErasedOk, Buffer.Ok, Encoder.Ok, TookOk, HistoryOk;
      var num := ResumeAt(at.num, lastWritten, wire.firstEmitted);
      DroppedOk(wire, sent, log.limitsHeld);
      UnsyncedReady(buf, enc, wire.(connected := false), at.(num := num), sent, log.limitsHeld, log.cursorCfg,
                    log.consumed);
      wire, at := wire.(connected := false), at.(num := num);
    }

    /** Where sending resumes at the latest: after the last message taken, or from the
        first one emitted. */
    static function ResumeAt(num: nat, taken: Option<nat>, firstEmitted: Option<nat>): (r: nat)
      ensures r <= num && (taken.Some? ==> r <= taken.value + 1)
      ensures taken.None? && firstEmitted.Some? ==> r <= firstEmitted.value
      ensures r < num ==> taken == Some(r - 1) || (taken.None? && firstEmitted == Some(r))
    {
      if taken.Some? then Min(num, taken.value + 1)
      else if firstEmitted.Some? then Min(num, firstEmitted.value)
      else num
    }

    /** No connection, no change under way, nothing promised, and nothing before now to air. */
    method OutputReset()
      requires Core() && AnchorOk(buf, plan.pending)
      modifies `wire, `at, `plan, `log
      ensures Valid()
      ensures !wire.connected && wire == old(wire).(connected := false)
      ensures at == old(at).(num := buf.next, needSync := true, session := None, gate := None)
      ensures plan == Plan(false, old(plan.target), old(plan.target), Idle, None, false, old(plan.slateChange), None)
      ensures log == old(log).(floor := 0)
    {
      hide HeadersOk, ChainOk, Ready, Continuous, WireOk, ErasedOk, Buffer.Ok, Encoder.Ok, TookOk, HistoryOk;
      var at' := at.(num := buf.next, needSync := true, session := None, gate := None);
      DroppedOk(wire, sent, log.limitsHeld);
      UnsyncedReady(buf, enc, wire.(connected := false), at', sent, log.limitsHeld, log.cursorCfg, log.consumed);
      wire, at := wire.(connected := false), at';
      plan := Plan(false, plan.target, plan.target, Idle, None, false, plan.slateChange, None);
      log := log.(floor := 0);
    }

    /** Erases all that has been received so far, and resets the output. */
    method Discard()
      requires Valid()
      modifies `buf, `enc, `wire, `at, `plan, `log
      ensures Valid()
      ensures buf == Emptied(old(buf)) && !wire.connected && !plan.started && plan.endMark.None?
      ensures plan.delay == plan.target == old(plan.target)
      ensures forall x: nat :: x < buf.nextId ==> x in log.erased
      ensures old(log.erased) <= log.erased && log == old(log).(erased := log.erased, floor := 0)
      ensures Lighter(old(enc), enc) && HeldBytes() <= old(HeldBytes())
    {
      hide HeadersOk, ChainOk, Ready, Continuous, WireOk, ErasedOk, Buffer.Ok, Encoder.Ok, TookOk, HistoryOk, Lighter;
      DropBuffer();
      OutputReset();
      EmptiedErased(old(buf), log.clock, log.erased);
      log := log.(erased := IdsBelow(buf.nextId));
    }

    /** Sends what arrived up to `num`, and nothing after it. */
    method EndAfter(num: nat)
      requires Valid() && num < buf.next
      modifies `plan, `log
      ensures Valid()
      ensures plan == old(plan).(endMark := Some(num))
      ensures log == old(log).(floor := if plan.pending.Hold? || plan.pending.Replay? then 0 else old(log.floor))
    {
      if plan.pending.Hold? || plan.pending.Replay? {
        log := log.(floor := 0);
      }
      plan := plan.(endMark := Some(num));
    }

    /** Forgets the end mark: the output carries on. */
    method CancelEnd()
      requires Valid()
      modifies `plan
      ensures Valid() && plan == old(plan).(endMark := None)
    {
      plan := plan.(endMark := None);
    }

    /** Erases all up to the end mark; what follows it waits for another broadcast. */
    method RestartAfterEnd()
      requires Valid()
      modifies `buf, `enc, `wire, `at, `plan, `log
      ensures Valid()
      ensures var from := if old(plan.endMark).Some? then old(plan.endMark).value + 1 else old(buf.next);
              && buf.base == Max(old(buf.base), from) == at.num && Shrunk(old(buf), buf)
      ensures NoneReplaced(enc.sessions, buf.base)
      ensures !wire.connected && !plan.started && plan.endMark.None? && plan.delay == plan.target == old(plan.target)
      ensures forall i :: 0 <= i < |old(buf).ring| && old(buf).ring[i].num < buf.base ==>
                old(buf).ring[i].id in log.erased
      ensures forall x: nat :: x < buf.nextId && (buf.ring != [] ==> x < buf.ring[0].id) ==> x in log.erased
      ensures old(log.erased) <= log.erased && log == old(log).(erased := log.erased, floor := 0)
      ensures Lighter(old(enc), enc) && HeldBytes() <= old(HeldBytes())
    {
      hide HeadersOk, ChainOk, Ready, Continuous, WireOk, ErasedOk, Buffer.Ok, Encoder.Ok, TookOk, HistoryOk, Lighter;
      var from := if plan.endMark.Some? then plan.endMark.value + 1 else buf.next;
      DropTo(from);
      ForgetHeaders();
      EmptyKnown(buf, log.clock);
      OutputReset();
      var at' := at.(num := Max(from, buf.base));
      UnsyncedReady(buf, enc, wire, at', sent, log.limitsHeld, log.cursorCfg, log.consumed);
      at := at';
      ghost var bound := if buf.ring == [] then buf.nextId else buf.ring[0].id;
      EarlierErased(old(buf), buf, log.clock, log.erased, bound);
      log := log.(erased := log.erased + IdsBelow(bound));
    }

    // ----- dumps ----------------------------------------------------------------------

    /** The delay a dump restores: the target if there is one, or else the one in effect, up to
        the maximum. */
    function DumpDelay(): Time
      reads `config, `plan
    {
      Min(if 0 < plan.target then plan.target else plan.delay, config.maxDelayMs * MS)
    }

    /** A dump is taken: on air with the encoder there, only for at least half a second. */
    predicate CanDump()
      reads `config, `enc, `plan
    {
      !plan.started || plan.endMark.Some? || !enc.active || 500 * MS <= DumpDelay()
    }

    /** With history, the newest keyframe `delay` older than the first message not aired. */
    function ReplayFrom(now: Time, delay: Time): Option<nat>
      reads `config, `buf, `at
    {
      var cut := Max(at.num, buf.base);
      if !config.keepHistory then None
      else buf.NewestArrivedBy((if buf.Has(cut) then buf.At(cut).arrival else now) - delay)
    }

    /** Erases what waits and splices back to `ReplayFrom`, with a replay pending; without such
        a keyframe nothing happens. */
    method ReplayInstead(now: Time, delay: Time) returns (done: bool)
      requires Valid() && now == log.clock && plan.started && plan.endMark.None? && 0 < delay && delay <= plan.target
      requires enc.active && log.floor == 0
      modifies `buf, `enc, `wire, `at, `plan, `log
      ensures Valid()
      ensures done == old(ReplayFrom(now, delay)).Some?
      ensures !done ==> buf == old(buf) && enc == old(enc) && wire == old(wire) && at == old(at) && plan == old(plan)
                        && log == old(log)
      ensures done ==>
                && plan == old(plan).(pending := Replay(Max(old(at.num), old(buf.base)), delay), hold := None,
                                      delay := plan.delay)
                && delay <= plan.delay
                && Some(at.num) == old(ReplayFrom(now, delay)) && at.num < buf.next
                && buf.next == Max(old(at.num), old(buf.base)) && buf.nextId == old(buf.nextId)
                && wire == old(wire).(unused := false) && at.pendingHeaders
                && log == old(log).(erased := old(log.erased) + IdsFrom(old(buf), buf.next))
      ensures Lighter(old(enc), enc) && HeldBytes() <= old(buf.bytes + 2 * enc.bytes)
    {
      hide HeadersOk, ChainOk, Ready, Continuous, WireOk, ErasedOk, Buffer.Ok, Encoder.Ok, TookOk, HistoryOk;
      hide CutAt, Split, IdsFrom, Lighter;
      LighterRefl(enc);
      var from := ReplayFrom(now, delay);
      if from.None? {
        return false;
      }
      var k := from.value;
      var cut := Max(at.num, buf.base);
      EmptyKnown(buf, log.clock);
      SyncKnown(buf, log.clock, k);
      BeforeCut(buf, log.clock, k, cut);
      Cut(cut);
      plan := plan.WithPending(Replay(cut, delay));
      SpliceTo(k, Monus(now, buf.At(k).arrival));
      done := true;
    }

    /** Erases the messages from `cut` on: their numbers are free again, in a session split off
        the last one. */
    method Cut(cut: nat)
      requires Core() && buf.base <= cut <= buf.next && 0 < cut && at.num <= cut
      requires plan.endMark.None?
      modifies `buf, `enc, `at, `log
      ensures Core()
      ensures buf.base <= cut <= buf.base + |old(buf).ring| && old(buf).base == buf.base && buf == CutAt(old(buf), cut)
      ensures buf.next == cut && buf.nextId == old(buf.nextId)
      ensures enc == Split(old(enc), cut) && at == old(at).(needSync := true)
      ensures log == old(log).(erased := old(log.erased) + IdsFrom(old(buf), cut))
      ensures Lighter(old(enc), enc) && HeldBytes() <= old(buf.bytes + 2 * enc.bytes)
    {
      hide HeadersOk, ChainOk, Ready, Continuous, WireOk, ErasedOk, Buffer.Ok, Encoder.Ok, TookOk, HistoryOk, Lighter;
      BytesKnown(buf, enc);
      SplitLighter(enc, cut);
      CutCost(buf, cut, log.clock);
      EmptyKnown(buf, log.clock);
      CutOk(buf, cut, log.clock);
      CutErased(buf, cut, log.clock, log.erased);
      SplitOk(buf, enc, cut, log.clock, log.limitsHeld);
      HistoryKept(buf, CutAt(buf, cut), enc, Split(enc, cut), sent, log.arrived, log.consumed);
      UnsyncedReady(CutAt(buf, cut), Split(enc, cut), wire, at.(needSync := true), sent, log.limitsHeld, log.cursorCfg,
                    log.consumed);
      log := log.(erased := log.erased + IdsFrom(buf, cut));
      enc := Split(enc, cut);
      buf := CutAt(buf, cut);
      at := at.(needSync := true);
    }

    /** What a dump did, `outcome` says how. What waited is erased. On air, the target is the
        delay it restores and the change pending is a replay, if one was asked for and there is
        enough to replay, or else a hold of the newest keyframe aired, covered if asked for; off
        air no change is left. */
    twostate predicate Dumped(now: Time, mode: DelayMode, cover: bool, outcome: DumpOutcome)
      reads this
    {
      var delay := old(DumpDelay());
      && IdsFrom(old(buf), old(at.num)) <= log.erased
      && (outcome.Replayed? <==> old(Airing()) && mode.RewindMode? && old(ReplayFrom(now, DumpDelay())).Some?)
      && (outcome.Covered? <==> old(Airing()) && !outcome.Replayed? && cover)
      && (!outcome.Replayed? ==> buf == Emptied(old(buf)) && wire == old(wire) && at.needSync)
      && (if old(Airing()) then
            && plan.started && plan.target == delay && !plan.historyShort
            && log.floor == (if cover && !outcome.Replayed? then 0 else delay)
            && plan.pending == (match outcome
                                case Replayed => Replay(Max(old(at.num), old(buf.base)), delay)
                                case Covered => Dump(delay, now, old(buf.next), None)
                                case Held => Hold(old(buf.next), delay))
            && (if outcome.Replayed? then plan.hold.None? && delay <= plan.delay && at.pendingHeaders
                else plan == old(plan).(target := delay, historyShort := false, pending := plan.pending,
                                        hold := plan.hold,
                                        slateChange := old(plan.slateChange) + if cover then 1 else 0)
                     && HoldsNewest(plan.hold, old(buf), old(enc), old(at.num), now, log.limitsHeld))
          else log.floor == 0 && plan == old(plan).(pending := Idle, hold := None))
    }

    /** Dumps what waits, on air or not. */
    method DumpWaiting(now: Time, mode: DelayMode, cover: bool) returns (outcome: DumpOutcome)
      requires Valid() && now == log.clock && CanDump() && log.floor == 0
      modifies `buf, `enc, `wire, `at, `plan, `log
      ensures Valid() && Dumped(now, mode, cover, outcome) && Still(now)
      ensures log == old(log).(erased := log.erased, floor := log.floor) && old(log.erased) <= log.erased
      ensures buf.nextId == old(buf.nextId) && plan.endMark == old(plan.endMark)
      ensures wire == old(wire).(unused := wire.unused)
      ensures Lighter(old(enc), enc) && HeldBytes() <= old(buf.bytes + 2 * enc.bytes)
    {
      hide HeadersOk, ChainOk, Ready, Continuous, WireOk, ErasedOk, Buffer.Ok, Encoder.Ok, TookOk, HistoryOk;
      hide IdsFrom, Emptied, Lighter, HoldsNewest, HoldOk, AnchorOk, Plan.Promises, Engine.ReplayFrom;
      if Airing() {
        outcome := DumpOnAir(now, mode, cover);
      } else {
        EndNow();
        outcome := Held;
      }
    }

    /** The dump of a broadcast on air. */
    method DumpOnAir(now: Time, mode: DelayMode, cover: bool) returns (outcome: DumpOutcome)
      requires Valid() && now == log.clock && CanDump() && Airing() && log.floor == 0
      modifies `buf, `enc, `wire, `at, `plan, `log
      ensures Valid() && Dumped(now, mode, cover, outcome) && Still(now)
      ensures log == old(log).(erased := log.erased, floor := log.floor) && old(log.erased) <= log.erased
      ensures buf.nextId == old(buf.nextId) && plan.endMark == old(plan.endMark)
      ensures wire == old(wire).(unused := wire.unused)
      ensures Lighter(old(enc), enc) && HeldBytes() <= old(buf.bytes + 2 * enc.bytes)
    {
      hide HeadersOk, ChainOk, Ready, Continuous, WireOk, ErasedOk, Buffer.Ok, Encoder.Ok, TookOk, HistoryOk;
      hide IdsFrom, Emptied, OnlyRunning, Pruned, CutAt, Split, Lighter, HoldsNewest, Engine.Still,
        Engine.ReplayFrom, HoldOk, AnchorOk;
      var delay := DumpDelay();
      plan := plan.(historyShort := false, target := delay);
      if mode.RewindMode? {
        WaitingFromBase(buf, log.clock, at.num);
        var done := ReplayInstead(now, delay);
        if done {
          log := log.(floor := delay);
          StillAfterDump(now);
          return Replayed;
        }
      }
      outcome := HoldOrCover(now, delay, cover);
    }

    /** Right after a dump there is nothing to go on with yet. */
    lemma StillAfterDump(now: Time)
      requires buf.Ok(log.clock)
      requires
        || ((plan.pending.Hold? || plan.pending.Replay?) && plan.pending.from == buf.next && plan.endMark.None?)
        || (plan.pending.Dump? && plan.pending.shown.None? && plan.pending.started == now)
      ensures Still(now)
    {
      NothingNewer(buf, log.clock);
    }

    /** The dump of a broadcast not on air, or about to end: it leaves nothing to send. */
    method EndNow()
      requires Valid() && !Airing() && log.floor == 0
      modifies `buf, `enc, `at, `plan, `log
      ensures Valid()
      ensures log == old(log).(erased := old(log.erased) + IdsFrom(old(buf), old(at.num)))
      ensures plan == old(plan).(pending := Idle, hold := None) && at.needSync
      ensures buf == Emptied(old(buf)) && buf.nextId == old(buf.nextId)
      ensures Lighter(old(enc), enc) && HeldBytes() <= old(HeldBytes())
    {
      hide HeadersOk, ChainOk, Ready, Continuous, WireOk, ErasedOk, Buffer.Ok, Encoder.Ok, TookOk, HistoryOk;
      hide IdsFrom, Emptied, OnlyRunning, Pruned, Lighter;
      plan := plan.WithPending(Idle);
      DropBuffer();
      EmptiedKnown(old(buf));
    }

    /** A broadcast is on, and more of it is to come. */
    predicate Airing()
      reads `enc, `plan
    {
      plan.started && plan.endMark.None? && enc.active
    }

    /** A dump that does not replay: what waits is gone, with the whole history, and the
        last keyframe that aired shows until what is recorded next may air. */
    method HoldOrCover(now: Time, delay: Time, cover: bool) returns (outcome: DumpOutcome)
      requires Valid() && now == log.clock && Airing() && delay == plan.target && log.floor == 0
      modifies `buf, `enc, `at, `plan, `log
      ensures Valid()
      ensures log == old(log).(erased := old(log.erased) + IdsFrom(old(buf), old(at.num)), floor := log.floor)
      ensures outcome == if cover then Covered else Held
      ensures plan.pending == if cover then Dump(delay, now, old(buf.next), None) else Hold(old(buf.next), delay)
      ensures log.floor == if cover then 0 else delay
      ensures plan == old(plan).(pending := plan.pending, hold := plan.hold,
                                 slateChange := old(plan.slateChange) + if cover then 1 else 0)
      ensures HoldsNewest(plan.hold, old(buf), old(enc), old(at.num), now, log.limitsHeld)
      ensures buf == Emptied(old(buf)) && buf.nextId == old(buf.nextId) && at.needSync && Still(now)
      ensures Lighter(old(enc), enc) && HeldBytes() <= old(HeldBytes())
    {
      hide HeadersOk, ChainOk, Ready, Continuous, WireOk, ErasedOk, Buffer.Ok, Encoder.Ok, TookOk, HistoryOk;
      hide IdsFrom, Emptied, OnlyRunning, Pruned, Lighter, HoldsNewest, Engine.Still, Engine.Tidy,
        Buffer.NewestBefore;
      var frame := AiredKeyframe(now);
      if frame.Some? {
        AiredNotWaiting(buf, log.clock, at.num, frame.value.id);
      }
      var from := buf.next;
      if cover {
        plan := plan.(pending := Dump(delay, now, from, None), slateChange := plan.slateChange + 1);
        outcome := Covered;
      } else {
        plan := plan.(pending := Hold(from, delay));
        outcome := Held;
      }
      plan := plan.(hold := frame);
      DropBuffer();
      EmptiedKnown(old(buf));
      log := log.(floor := if cover then 0 else delay);
      StillAfterDump(now);
    }

    // ----- commands -------------------------------------------------------------------

    function AckNow(dump: Option<DumpOutcome>): Ack
      reads `plan
    {
      var effective := if plan.pending.Replay? then plan.pending.delay else plan.delay;
      Ack(plan.target / MS, effective / MS, !plan.pending.Idle?, plan.historyShort, dump)
    }

    /** What a delay of `ms` needs of the memory limit at the encoder's bitrate, with a
        fifth to spare. */
    function BytesFor(ms: nat): nat
      reads `enc
    {
      enc.bitrate / 8 * ms / 1000 * 6 / 5
    }

    /** Why a delay of `ms` is refused, if it is. */
    function Refusal(ms: nat): Option<EngineError>
      reads `config, `enc
    {
      if config.maxDelayMs < ms then Some(TooLarge(ms, config.maxDelayMs))
      else if enc.active && enc.bitrate != 0 && config.ramCapBytes < BytesFor(ms) then
        Some(NotEnoughMemory(BytesFor(ms), config.ramCapBytes))
      else None
    }

    /** A delay past the maximum is refused. */
    lemma RefusesLong(ms: nat)
      requires Refusal(ms).None?
      ensures ms <= config.maxDelayMs
    {
    }

    /** Nothing that was promised holds from here on. */
    ghost method Release()
      requires Valid()
      modifies `log
      ensures Valid() && log == old(log).(floor := 0)
    {
      log := log.(floor := 0);
    }

    /** From here on nothing buffered is sent younger than `floor`, which the delay, having
        reached it, keeps. */
    ghost method Promise(floor: Time)
      requires Valid() && plan.started && floor <= plan.target && floor <= plan.delay
      requires plan.pending.Idle? || (plan.pending.Reduce? && floor <= plan.pending.delay)
      modifies `log
      ensures Valid() && log == old(log).(floor := floor)
    {
      log := log.(floor := floor);
    }

    /** A command: what it asks for at once, and then as far as its change gets now. Nothing
        changes if it is refused. */
    method Command(now: Time, cmd: Command) returns (r: Result<Ack, EngineError>)
      requires Valid() && log.clock <= now
      modifies `buf, `enc, `wire, `at, `plan, `log
      ensures Valid() && log.clock == now
      ensures r.Err? <==> match cmd
                          case SetDelay(ms, _) => old(Refusal(ms)).Some?
                          case DumpNow(_, _) => !old(CanDump())
                          case _ => false
      ensures r.Err? ==> buf == old(buf) && enc == old(enc) && wire == old(wire) && at == old(at) && plan == old(plan)
      ensures r.Err? ==> log == old(log).(clock := now)
      ensures r.Ok? ==>
                && r.value.targetMs == plan.target / 1000 && r.value.pending == !plan.pending.Idle?
                && r.value.effectiveMs == (if plan.pending.Replay? then plan.pending.delay else plan.delay) / 1000
                && r.value.historyShort == plan.historyShort && r.value.dump.Some? == cmd.DumpNow?
      ensures r.Ok? && cmd.SetDelay? ==> DelaySet(now, cmd.ms, cmd.mode)
      ensures r.Ok? ==> Still(now) || Same()
      ensures r.Ok? && cmd.GoLive? ==> plan == old(WentLive(cmd.when)) && at == old(at) && wire == old(wire)
      ensures cmd.Cancel? ==>
                if old(plan.pending.AfterDump()) then MovedAlong(old(wire), wire, old(plan), plan)
                else MovedAlong(old(wire), wire, old(Stopped()), plan) && Rank(plan.pending) == 0
      ensures cmd.SlateShown? ==> MovedAlong(old(wire), wire, old(plan.Shown(cmd.change, now)), plan)
      ensures r.Ok? && cmd.DumpNow? ==>
                && r.value.dump.Some? && Dumped(now, cmd.dumpMode, cmd.cover, r.value.dump.value)
      ensures cmd.SlateShown? || (cmd.Cancel? && old(plan.pending.AfterDump())) ==> log.floor == old(log.floor)
      ensures !cmd.DumpNow? ==> buf == old(buf) && enc == old(enc) && log.erased == old(log.erased)
      ensures wire == old(wire).(unused := wire.unused, lastOutTs := wire.lastOutTs)
      ensures plan.endMark == old(plan.endMark) && old(log.erased) <= log.erased
      ensures log.consumed == old(log.consumed) && log.limitsHeld == old(log.limitsHeld)
      ensures log.shortfalls == old(log.shortfalls) && log.took == old(log.took) && log.arrived == old(log.arrived)
      ensures Lighter(old(enc), enc) && HeldBytes() <= old(buf.bytes + 2 * enc.bytes)
    {
      hide IdsFrom, Engine.Core, Engine.Valid, Lighter, HoldsNewest, Engine.Still, Plan.Shown, MovedAlong,
        Engine.ReplayFrom, Engine.Stopped, Engine.WentLive, Engine.Refusal,
        Engine.CanDump, Rank, Emptied, Engine.DumpDelay;
      LighterRefl(enc);
      Tick(now);
      match cmd {
        case SetDelay(ms, mode) =>
          var refusal := Refusal(ms);
          if refusal.Some? {
            return Err(refusal.value);
          }
          RefusesLong(ms);
          Release();
          SetDelayTo(now, ms, mode);
          r := Ok(AckNow(None));
        case GoLive(when) =>
          Release();
          GoLiveCommand(now, when);
          r := Ok(AckNow(None));
        case Cancel =>
          CancelCommand(now);
          r := Ok(AckNow(None));
        case DumpNow(mode, cover) =>
          if !CanDump() {
            return Err(NothingToDump);
          }
          Release();
          var outcome := DumpCommand(now, mode, cover);
          r := Ok(AckNow(Some(outcome)));
        case SlateShown(change) =>
          ShowCommand(now, change);
          r := Ok(AckNow(None));
      }
    }

    /** Dumps what waits, and goes on as far as that gets now. */
    method DumpCommand(now: Time, mode: DelayMode, cover: bool) returns (outcome: DumpOutcome)
      requires Valid() && now == log.clock && CanDump() && log.floor == 0
      modifies `buf, `enc, `wire, `at, `plan, `log
      ensures Valid() && Dumped(now, mode, cover, outcome) && Still(now)
      ensures log == old(log).(erased := log.erased, floor := log.floor) && old(log.erased) <= log.erased
      ensures buf.nextId == old(buf.nextId) && plan.endMark == old(plan.endMark)
      ensures wire == old(wire).(unused := wire.unused)
      ensures Lighter(old(enc), enc) && HeldBytes() <= old(buf.bytes + 2 * enc.bytes)
    {
      hide IdsFrom, Engine.Core, Engine.Valid, Lighter, HoldsNewest, Engine.Still, MovedAlong, Engine.ReplayFrom, Rank,
        Emptied, Engine.DumpDelay;
      outcome := DumpWaiting(now, mode, cover);
      RunPending(now);
    }

    /** What was promised goes on holding: the slate only tells when to go on. */
    method ShowCommand(now: Time, change: nat)
      requires Valid() && now == log.clock
      modifies `wire, `at, `plan
      ensures Valid() && MovedAlong(old(wire), wire, old(plan.Shown(change, now)), plan) && Still(now)
      ensures plan.endMark == old(plan.endMark)
      ensures wire == old(wire).(unused := wire.unused, lastOutTs := wire.lastOutTs)
    {
      hide HeadersOk, ChainOk, Ready, Continuous, WireOk, ErasedOk, Buffer.Ok, Encoder.Ok, TookOk, HistoryOk;
      hide Engine.Still, Plan.Shown, HoldOk, AnchorOk, Plan.Ok, Plan.Promises;
      ConfirmSlate(change, now);
      RunPending(now);
    }

    /** Takes note of when the slate was shown: the first time, for the change under way, and
        while that has no anchor; anything else changes nothing. */
    method ConfirmSlate(change: nat, now: Time)
      requires Valid()
      modifies `plan
      ensures Valid()
      ensures var p := old(plan).pending;
              var waits := (p.Mask? && p.anchor.None? && p.shown.None?) || (p.Dump? && p.shown.None?);
              if change == old(plan).slateChange && waits
              then plan == old(plan).(pending := p.(shown := Some(now)))
              else plan == old(plan)
      ensures plan == old(plan).Shown(change, now) && plan.endMark == old(plan.endMark)
    {
      hide HeadersOk, ChainOk, Ready, Continuous, WireOk, ErasedOk, Buffer.Ok, Encoder.Ok, TookOk, HistoryOk;
      if change == plan.slateChange {
        match plan.pending
        case Mask(d, began, None, mute, None, dump) =>
          plan := plan.(pending := Mask(d, began, None, mute, Some(now), dump));
        case Dump(d, began, from, None) => plan := plan.(pending := Dump(d, began, from, Some(now)));
        case _ =>
      }
    }

    /** What setting the delay to `ms` does. While a dump builds it up again, that goes on to
        the new one; the same change under way stays; before the start the broadcast will start
        with it; live is going live; and otherwise a change begins: down to it, back to what
        aired, or a slate first. */
    twostate predicate DelaySet(now: Time, ms: nat, mode: DelayMode)
      reads this
    {
      var p, d := old(plan), ms * 1000;
      var mode' := if config.keepHistory then mode else MaskMode;
      var chosen := p.(target := d, historyShort := false, pending := Idle, hold := None);
      && plan.target == d
      && (if 0 < ms && p.pending.AfterDump() then MovedAlong(old(wire), wire, p.WithDumpDelay(d), plan)
          else if d == p.target && mode'.MaskMode? && p.pending.Mask? then Same()
          else if !p.started then plan == chosen.(delay := d) && at == old(at) && wire == old(wire)
          else if ms == 0 then plan == old(WentLive(Now)) && at == old(at) && wire == old(wire)
          else Changed(now, mode', chosen))
    }

    /** Nothing but what the model remembers changed. */
    twostate predicate Same()
      reads this
    {
      buf == old(buf) && enc == old(enc) && wire == old(wire) && at == old(at) && plan == old(plan)
    }

    method SetDelayTo(now: Time, ms: nat, mode: DelayMode)
      requires Valid() && now == log.clock && ms <= config.maxDelayMs && log.floor == 0
      modifies `wire, `at, `plan, `log
      ensures Valid() && log == old(log).(floor := log.floor)
      ensures DelaySet(now, ms, mode) && plan.endMark == old(plan.endMark) && (Still(now) || Same())
      ensures wire == old(wire).(unused := wire.unused, lastOutTs := wire.lastOutTs)
    {
      hide HeadersOk, ChainOk, Ready, Continuous, WireOk, ErasedOk, Buffer.Ok, Encoder.Ok, TookOk, HistoryOk;
      var d := ms * MS;
      if 0 < ms && plan.pending.AfterDump() {
        plan := plan.WithDumpDelay(d);
        RunPending(now);
        return;
      }
      var mode' := if config.keepHistory then mode else MaskMode;
      if d == plan.target && mode'.MaskMode? && plan.pending.Mask? {
        return;
      }
      plan := plan.(target := d, historyShort := false).WithPending(Idle);
      if !plan.started {
        plan := plan.(delay := d);
      } else if ms == 0 {
        GoLiveCommand(now, Now);
        return;
      } else {
        MakeChange(now, mode');
        return;
      }
      RunPending(now);
    }

    /** Starts a change to the target delay, as far as it gets now. */
    method MakeChange(now: Time, mode: DelayMode)
      requires Valid() && now == log.clock && log.floor == 0
      requires plan.started && plan.pending.Idle? && !plan.historyShort
      modifies `wire, `at, `plan, `log
      ensures Valid() && log == old(log).(floor := log.floor)
      ensures plan.target == old(plan.target) && plan.endMark == old(plan.endMark)
      ensures wire == old(wire).(unused := wire.unused, lastOutTs := wire.lastOutTs)
      ensures Changed(now, mode, old(plan)) && Still(now)
    {
      hide HeadersOk, ChainOk, Ready, Continuous, WireOk, ErasedOk, Buffer.Ok, Encoder.Ok, TookOk, HistoryOk;
      hide Engine.Still, HoldOk, AnchorOk, Plan.Ok;
      BeginChange(now, mode);
      if !plan.pending.Reduce? {
        NotYet(now);
      }
      RunPending(now);
    }

    /** What a change from plan `p` to its target does: down to it, a slate first, or back to
        what aired, which is as old as the target unless there is too little of it. */
    twostate predicate Changed(now: Time, mode: DelayMode, p: Plan)
      reads this
    {
      var d := p.target;
      if d < p.delay then
        MovedAlong(old(wire), wire, p.(pending := Reduce(d), hold := None), plan) && Rank(plan.pending) == 0
      else if d == p.delay then plan == p && at == old(at) && wire == old(wire)
      else if mode.MaskMode? then
        && plan == p.(pending := Mask(d, now, None, false, None, false), slateChange := p.slateChange + 1)
        && at == old(at) && wire == old(wire)
      else
        && plan.started && Rank(plan.pending) == 0 && plan.historyShort == buf.NewestArrivedBy(now - d).None?
        && (!plan.historyShort ==> d <= plan.delay && log.floor == d)
    }

    /** A change just begun waits for its slate. */
    lemma NotYet(now: Time)
      requires plan.pending.Idle? || (plan.pending.Mask? && plan.pending.anchor.None? && plan.pending.shown.None?
                                      && plan.pending.started == now)
      ensures Still(now)
    {
    }

    /** Starts a change to the target delay. */
    method BeginChange(now: Time, mode: DelayMode)
      requires Valid() && now == log.clock && log.floor == 0
      requires plan.started && plan.pending.Idle? && !plan.historyShort
      modifies `wire, `at, `plan, `log
      ensures Valid() && log == old(log).(floor := log.floor)
      ensures plan.target == old(plan.target) && plan.endMark == old(plan.endMark) && plan.started
      ensures old(plan).delay < plan.target && mode.RewindMode? ==>
                && Rank(plan.pending) == 0 && plan.historyShort == buf.NewestArrivedBy(now - plan.target).None?
                && (!plan.historyShort ==> log.floor == plan.target)
      ensures old(plan).delay < plan.target && mode.MaskMode? ==>
                plan == old(plan).(pending := Mask(plan.target, now, None, false, None, false),
                                   slateChange := old(plan).slateChange + 1)
      ensures plan.target < old(plan).delay ==> plan == old(plan).WithPending(Reduce(plan.target))
      ensures plan.target == old(plan).delay ==> plan == old(plan)
      ensures plan.target <= old(plan).delay || mode.MaskMode? ==> at == old(at) && wire == old(wire)
      ensures wire == old(wire).(unused := wire.unused)
    {
      hide HeadersOk, ChainOk, Ready, Continuous, WireOk, ErasedOk, Buffer.Ok, Encoder.Ok, TookOk, HistoryOk;
      var d := plan.target;
      if plan.delay < d {
        if mode.RewindMode? {
          Rewind(now, d);
          if !plan.historyShort {
            Promise(d);
          }
        } else {
          plan := plan.(pending := Mask(d, now, None, false, None, false), slateChange := plan.slateChange + 1);
        }
      } else if d < plan.delay {
        plan := plan.WithPending(Reduce(d));
      }
    }

    /** The plan once live is asked for: before the start it begins live; on air the output goes
        live with the next keyframe, at once or once all recorded so far has aired. */
    function WentLive(when: GoLiveWhen): Plan
      reads `buf, `at, `plan
    {
      var p, last := plan.(target := 0, historyShort := false, hold := None), Monus(buf.next, 1);
      if !plan.started then p.(delay := 0, pending := Idle)
      else if when.Now? || last < at.num then p.(pending := GoLiveNow(last))
      else p.(pending := AfterAir(last))
    }

    method GoLiveCommand(now: Time, when: GoLiveWhen)
      requires Valid() && now == log.clock && log.floor == 0
      modifies `wire, `at, `plan
      ensures Valid() && plan == old(WentLive(when)) && at == old(at) && wire == old(wire)
      ensures plan.target == 0 && plan.endMark == old(plan.endMark) && Still(now)
    {
      hide HeadersOk, ChainOk, Ready, Continuous, WireOk, ErasedOk, Buffer.Ok, Encoder.Ok, TookOk, HistoryOk;
      var last := Monus(buf.next, 1);
      plan := plan.(target := 0, historyShort := false);
      if !plan.started {
        plan := plan.(delay := 0).WithPending(Idle);
      } else {
        plan := plan.WithPending(if when.Now? then GoLiveNow(last) else AfterAir(last));
      }
      NewestKnown(buf, log.clock);
      RunPending(now);
    }

    /** Cancels, but nothing that a dump began. */
    method CancelCommand(now: Time)
      requires Valid() && now == log.clock
      modifies `wire, `at, `plan, `log
      ensures Valid() && log == old(log).(floor := log.floor)
      ensures plan.endMark == old(plan.endMark)
      ensures wire == old(wire).(unused := wire.unused, lastOutTs := wire.lastOutTs)
      ensures Still(now)
      ensures if old(plan.pending.AfterDump())
              then MovedAlong(old(wire), wire, old(plan), plan) && log.floor == old(log.floor)
              else MovedAlong(old(wire), wire, old(Stopped()), plan) && Rank(plan.pending) == 0
    {
      hide HeadersOk, ChainOk, Ready, Continuous, WireOk, ErasedOk, Buffer.Ok, Encoder.Ok, TookOk, HistoryOk;
      hide Engine.Still, HoldOk, AnchorOk, Plan.Ok, Plan.Promises;
      if !plan.pending.AfterDump() {
        Release();
        CancelChange();
      }
      RunPending(now);
    }

    /** The plan once a change is stopped: the delay in effect is the one asked for (none, if
        that is under half a second), and an outage's excess over the maximum goes. */
    function Stopped(): Plan
      reads `config, `enc, `plan
    {
      var delay := Min(plan.delay, config.maxDelayMs * 1000);
      var stopped := plan.(pending := Idle, hold := None, target := if delay < 500_000 then 0 else delay);
      if plan.started then stopped.UnderMax(config.maxDelayMs * 1000, enc.interval) else stopped
    }

    /** Stops a change, keeping the delay in effect. */
    method CancelChange()
      requires Valid() && !plan.pending.AfterDump() && log.floor == 0
      modifies `plan
      ensures Valid() && plan == old(Stopped())
    {
      hide HeadersOk, ChainOk, Ready, Continuous, WireOk, ErasedOk, Buffer.Ok, Encoder.Ok, TookOk, HistoryOk;
      var delay := Min(plan.delay, config.maxDelayMs * MS);
      plan := plan.WithPending(Idle).(target := if delay < 500 * MS then 0 else delay);
      if plan.started {
        BackUnderMax();
      }
    }

    /** How far back a rewind may go: with nine tenths of the memory in use, not to the first
        keyframe, which is about to be evicted. */
    function OldestKept(): (k: Option<nat>)
      reads `config, `buf, `enc
      ensures k.Some? ==> k.value in buf.syncs
    {
      if config.ramCapBytes * 9 <= (buf.bytes + enc.bytes) * 10 && 1 < |buf.syncs| then Some(buf.syncs[1])
      else if buf.syncs != [] then Some(buf.syncs[0])
      else None
    }

    /** Splices back to a keyframe `d` old, or as far back as the buffer goes. */
    method Rewind(now: Time, d: Time)
      requires Valid() && now == log.clock && plan.started && plan.pending.Idle? && !plan.historyShort
      requires plan.delay < d && log.floor == 0
      modifies `wire, `at, `plan
      ensures Valid()
      ensures plan == old(plan).(delay := plan.delay, pending := plan.pending, historyShort := plan.historyShort)
      ensures wire == old(wire).(unused := wire.unused)
      ensures plan.historyShort == buf.NewestArrivedBy(now - d).None?
      ensures !plan.historyShort ==>
                && d <= plan.delay && Some(at.num) == buf.NewestArrivedBy(now - d)
                && plan.pending == if GapAfter(at.num, Monus(plan.delay, d)) then Reduce(d) else Idle
      ensures plan.historyShort ==>
                && plan.pending.Idle?
                && (buf.syncs == [] ==> at == old(at) && plan.delay == old(plan).delay)
                && (buf.syncs != [] ==>
                      var full := 9 * config.ramCapBytes <= 10 * HeldBytes();
                      var k := buf.syncs[if full && 1 < |buf.syncs| then 1 else 0];
                      && buf.Has(k)
                      && if old(plan).delay < Monus(now, buf.At(k).arrival) then Jumped(now, k)
                         else at == old(at) && plan.delay == old(plan).delay)
    {
      hide HeadersOk, ChainOk, Ready, Continuous, WireOk, ErasedOk, Buffer.Ok, Encoder.Ok, TookOk, HistoryOk;
      hide HoldOk, Engine.GapAfter;
      var newest := buf.NewestArrivedBy(now - d);
      var k := newest;
      if newest.None? {
        plan := plan.(historyShort := true);
        k := OldestKept();
      }
      if k.None? {
        return;
      }
      SyncKnown(buf, log.clock, k.value);
      var delay := Monus(now, buf.At(k.value).arrival);
      hide Engine.OldestKept;
      if plan.delay < delay {
        SpliceTo(k.value, delay);
        if newest.Some? && GapAfter(k.value, Monus(delay, d)) {
          plan := plan.WithPending(Reduce(d));
        }
      }
    }

    /** Completes a dump whose connection took everything up to `taken` and nothing after. If it
        is taken, all after that is erased with what waits. If not, nothing is erased, but what
        the connection lost does not go out again: the cursor waits for a keyframe. */
    method DumpAfter(now: Time, taken: Option<nat>, mode: DelayMode, cover: bool, ghost took: nat)
        returns (r: Result<Ack, EngineError>)
      requires Valid() && log.clock <= now
      modifies `buf, `enc, `wire, `at, `plan, `log
      ensures Valid() && log.clock == now
      ensures r.Ok? <==> old(CanDump())
      ensures r.Ok? ==>
                && old(WaitingFrom(taken)) <= log.erased
                && r.value.dump.Some?
                && log.floor == if old(Airing()) && r.value.dump != Some(Covered) then old(DumpDelay()) else 0
      ensures r.Ok? && mode.MaskMode? && !cover ==> r.value.dump == Some(Held)
      ensures r.Ok? && old(Airing()) && r.value.dump == Some(Held) ==>
                && plan.pending == Hold(old(buf.next), old(DumpDelay())) && buf == Emptied(old(buf)) && at.needSync
                && HoldsNewest(plan.hold, old(buf), old(enc), old(Reached(taken)), now, log.limitsHeld)
                && wire == if old(wire.connected) then Unsure(old(wire)) else old(wire)
      ensures r.Ok? && wire.connected ==> wire.sentMetadata.None? && wire.epoch == old(wire.epoch) + 1
      ensures r.Ok? ==> log.took == if old(wire.connected) then old(Took(took)) else old(log.took)
      ensures r.Err? ==> buf == old(buf) && enc == old(enc) && plan == old(plan)
      ensures r.Err? ==> log == old(log).(clock := now, took := log.took)
      ensures r.Err? && wire.connected ==>
                log.took == if wire.epoch == old(wire.epoch) then old(log.took) else old(Took(took))
      ensures r.Err? ==>
                var loses := old(wire).connected && old(Lost(taken)) && !at.pendingHeaders;
                at == old(at).(needSync := old(at.needSync) || loses)
      ensures r.Err? && wire.connected ==> wire.sentHeaders == map[] && wire.sentMetadata.None?
      ensures old(log.erased) <= log.erased && wire.connected == old(wire.connected)
      ensures plan.endMark == old(plan.endMark)
      ensures log.limitsHeld == old(log.limitsHeld) && log.shortfalls == old(log.shortfalls)
      ensures log.arrived == old(log.arrived) && log.consumed == old(log.consumed)
      ensures Lighter(old(enc), enc) && HeldBytes() <= old(buf.bytes + 2 * enc.bytes)
    {
      hide HeadersOk, ChainOk, Ready, Continuous, WireOk, ErasedOk, Buffer.Ok, Encoder.Ok, TookOk, HistoryOk;
      hide IdsFrom, Lighter, HoldsNewest, Emptied;
      LighterRefl(enc);
      if CanDump() {
        if wire.connected {
          Unsend(taken, took);
        }
        r := Command(now, DumpNow(mode, cover));
        return;
      }
      Tick(now);
      if wire.connected {
        Forget(Lost(taken), took);
      }
      r := Err(NothingToDump);
    }

    /** What has not aired, when the connection took what was emitted up to `taken`. */
    function WaitingFrom(taken: Option<nat>): set<nat>
      reads `buf, `wire, `at
    {
      IdsFrom(buf, Reached(taken))
    }

    /** The first message that has not aired, when the connection took what was emitted up to
        `taken`. */
    function Reached(taken: Option<nat>): nat
      reads `wire, `at
    {
      if wire.connected then ResumeAt(at.num, taken, wire.firstEmitted) else at.num
    }

    /** What the connection has got, when it took the first `took` of all messages handed over. */
    ghost function Took(took: nat): seq<OutMsg>
      reads `wire, `sent, `log
    {
      Got(log.took, sent[..Min(took, |sent|)], wire.epoch)
    }

    /** Some of what was emitted was thrown away. */
    predicate Lost(taken: Option<nat>)
      reads `wire, `at
    {
      if taken.Some? then taken.value + 1 < at.num else wire.firstEmitted.Some?
    }

    /** Moves the cursor back to the first message the connection did not take, and begins a
        stretch in which nothing counts as handed over yet. */
    method Unsend(taken: Option<nat>, ghost took: nat)
      requires Valid() && wire.connected
      modifies `wire, `at, `log
      ensures Valid()
      ensures wire == Unsure(old(wire)) && log == old(log).(took := old(Took(took)))
      ensures at == old(at).(num := ResumeAt(old(at.num), taken, old(wire).firstEmitted), needSync := true)
    {
      hide HeadersOk, ChainOk, Ready, Continuous, WireOk, ErasedOk, Buffer.Ok, Encoder.Ok, TookOk, HistoryOk;
      var at' := at.(num := ResumeAt(at.num, taken, wire.firstEmitted), needSync := true);
      UnsureOk(wire, sent, log.limitsHeld);
      UnsyncedReady(buf, enc, Unsure(wire), at', sent, log.limitsHeld, log.cursorCfg, log.consumed);
      TookKept(wire, sent, log.limitsHeld, log.took, Min(took, |sent|));
      log := log.(took := Took(took));
      wire, at := Unsure(wire), at';
    }

    /** A refused dump may have lost messages all the same: configuration is to be sent anew,
        and a cursor past lost ones waits for a keyframe, unless a splice just put it at one. */
    method Forget(lost: bool, ghost took: nat)
      requires Valid() && wire.connected
      modifies `wire, `at, `log
      ensures Valid()
      ensures wire == old(wire).(sentHeaders := map[], sentMetadata := None, epoch := wire.epoch)
      ensures var anew := lost || old(at.needSync || at.pendingHeaders);
              && wire.epoch == old(wire.epoch) + (if anew then 1 else 0)
              && log == old(log).(took := if anew then old(Took(took)) else old(log.took))
      ensures at == old(at).(needSync := old(at.needSync) || (lost && !at.pendingHeaders))
    {
      hide HeadersOk, ChainOk, Ready, Continuous, WireOk, ErasedOk, Buffer.Ok, Encoder.Ok, TookOk, HistoryOk, AnchorOk,
        Plan.Promises;
      UnsureOk(wire, sent, log.limitsHeld);
      var anew := lost || at.needSync || at.pendingHeaders;
      var wire' := if anew then Unsure(wire)
                   else wire.(sentHeaders := map[], sentMetadata := None);
      TookKept(wire, sent, log.limitsHeld, log.took, Min(took, |sent|));
      if anew {
        log := log.(took := Took(took));
      }
      if lost && !at.pendingHeaders {
        UnsyncedReady(buf, enc, wire', at.(needSync := true), sent, log.limitsHeld, log.cursorCfg, log.consumed);
        at := at.(needSync := true);
      } else {
        UnsureReady(buf, enc, wire, wire', at, sent, log.limitsHeld, log.cursorCfg, log.consumed);
      }
      wire := wire';
    }

    // ----- settings -------------------------------------------------------------------

    /** Whether what has aired is kept. */
    method SetKeepHistory(keep: bool)
      requires Valid()
      modifies `config
      ensures Valid() && config == old(config).(keepHistory := keep)
    {
      hide HeadersOk, ChainOk, Ready, Continuous, WireOk, ErasedOk, Buffer.Ok, Encoder.Ok, TookOk, HistoryOk;
      config := config.(keepHistory := keep);
    }

    method SetRestoreAfterReconnect(restore: bool)
      requires Valid()
      modifies `config
      ensures Valid() && config == old(config).(restoreAfterReconnect := restore)
    {
      hide HeadersOk, ChainOk, Ready, Continuous, WireOk, ErasedOk, Buffer.Ok, Encoder.Ok, TookOk, HistoryOk;
      config := config.(restoreAfterReconnect := restore);
    }

    /** No more must be held than is. */
    lemma NeededIsHeld()
      requires Valid()
      ensures NeededBytes() <= HeldBytes()
    {
      hide HeadersOk, ChainOk, Ready, Continuous, WireOk, ErasedOk, Encoder.Ok, TookOk, HistoryOk, Indexes, Contiguous;
      var k := buf.SyncAtOrBefore(at.num);
      if k.Some? && buf.Has(k.value) {
        RingCostSuffix(buf.ring, k.value - buf.base);
      }
    }

    /** While no limit has taken any, the configuration kept is the encoder's. */
    lemma ConfigKept()
      requires Core() && enc.active
      ensures enc.sessions != [] && (log.limitsHeld ==> MapOf(enc.Last().headers) == enc.cfg)
    {
    }

    /** A keyframe in the index is no configuration. */
    lemma NewestIsFrame(num: nat)
      requires Valid()
      ensures var k := buf.NewestBefore(num); k.Some? ==> buf.Has(k.value) && buf.At(k.value).config.None?
    {
      hide HeadersOk, ChainOk, Ready, Continuous, WireOk, ErasedOk, Encoder.Ok, TookOk, HistoryOk, Buffer.Ok;
      var k := buf.NewestBefore(num);
      if k.Some? {
        SyncKnown(buf, log.clock, k.value);
        AtKnown(buf, log.clock, k.value);
      }
    }

    /** Nothing has gone out on a connection, or in a stretch, yet to come. */
    lemma NothingAhead()
      requires Valid()
      ensures forall i :: 0 <= i < |sent| ==> sent[i].generation <= wire.generation && sent[i].epoch <= wire.epoch
      ensures log.limitsHeld ==> AllFound(log.took)
    {
      hide HeadersOk, ChainOk, Ready, Continuous, ErasedOk, Buffer.Ok, Encoder.Ok, AllFound, Ordered, CleanStarts,
        Configured;
    }

    /** What has been sent so far keeps the rules. */
    lemma RulesKept()
      requires Valid()
      ensures Ordered(sent) && CleanStarts(sent) && Continuous(log.consumed) && AllPassed(sent, log.consumed)
      ensures AllAsArrived(sent, log.arrived) && AllMarked(log.arrived)
      ensures log.limitsHeld ==> Configured(sent)
    {
      hide HeadersOk, ChainOk, Ready, Continuous, ErasedOk, Buffer.Ok, Encoder.Ok, TookOk, Ordered, CleanStarts,
        Configured, Within, AllPassed, AllAsArrived, AllMarked, Recorded, Attained;
    }
  }
}
