/** What the engine decides, said of the messages buffered, the times and the settings alone:
    where its look-ups lead, which timestamps it gives, what it starts from, what it refuses, and
    what is left after it. */
module EngineDecisions {
  import opened Wrappers
  import opened EngineTypes
  import opened Ring
  import opened EngineState
  import opened EngineLemmas
  import opened DelayEngine

  // ----- where to look ----------------------------------------------------------------

  /** Message `k` is buffered, and the output may start from it. */
  predicate CanStart(buf: Buffer, k: nat) {
    buf.Has(k) && buf.At(k).sync
  }

  lemma Indexed(buf: Buffer, clock: Time)
    requires buf.Ok(clock)
    ensures forall k: nat {:trigger CanStart(buf, k)} :: CanStart(buf, k) ==> k in buf.syncs
    ensures Increasing(buf.syncs)
  {
    hide RingCost;
  }

  lemma InIndex(buf: Buffer, clock: Time, k: Option<nat>)
    requires buf.Ok(clock)
    ensures k.Some? && k.value in buf.syncs ==> CanStart(buf, k.value)
  {
    hide RingCost;
  }

  /** `k` is the newest keyframe up to message `num`. */
  ghost predicate NewestUpTo(buf: Buffer, num: int, k: nat) {
    CanStart(buf, k) && k <= num && forall n: nat :: k < n <= num ==> !CanStart(buf, n)
  }

  /** `k` is the oldest keyframe from message `num` on. */
  ghost predicate OldestFrom(buf: Buffer, num: nat, k: nat) {
    CanStart(buf, k) && num <= k && forall n: nat :: num <= n < k ==> !CanStart(buf, n)
  }

  /** `k` is the newest keyframe that had arrived by `t`. */
  ghost predicate NewestBy(buf: Buffer, t: int, k: nat) {
    && CanStart(buf, k) && buf.At(k).arrival <= t
    && forall n: nat :: k < n && CanStart(buf, n) ==> t < buf.At(n).arrival
  }

  /** `k` is the oldest keyframe that arrived at `t` or later. */
  ghost predicate OldestSince(buf: Buffer, t: Time, k: nat) {
    && CanStart(buf, k) && t <= buf.At(k).arrival
    && forall n: nat :: n < k && CanStart(buf, n) ==> buf.At(n).arrival < t
  }

  lemma UpToExactly(buf: Buffer, clock: Time, num: nat, k: nat)
    requires buf.Ok(clock)
    ensures buf.SyncAtOrBefore(num) == Some(k) <==> NewestUpTo(buf, num, k)
  {
    Indexed(buf, clock);
    hide Buffer.Ok, FindLast, Increasing, CanStart, Buffer.At;
    var f := buf.SyncAtOrBefore(num);
    InIndex(buf, clock, f);
    assert f.Some? ==> NewestUpTo(buf, num, f.value);
  }

  lemma BeforeExactly(buf: Buffer, clock: Time, num: nat, k: nat)
    requires buf.Ok(clock)
    ensures buf.NewestBefore(num) == Some(k) <==> NewestUpTo(buf, num - 1, k)
  {
    Indexed(buf, clock);
    hide Buffer.Ok, FindLast, Increasing, CanStart, Buffer.At;
    var f := buf.NewestBefore(num);
    InIndex(buf, clock, f);
    assert f.Some? ==> NewestUpTo(buf, num - 1, f.value);
  }

  lemma ArrivedByExactly(buf: Buffer, clock: Time, t: int, k: nat)
    requires buf.Ok(clock)
    ensures buf.NewestArrivedBy(t) == Some(k) <==> NewestBy(buf, t, k)
  {
    Indexed(buf, clock);
    hide Buffer.Ok, FindLast, Increasing;
    var f := buf.NewestArrivedBy(t);
    InIndex(buf, clock, f);
    assert f.Some? ==> NewestBy(buf, t, f.value);
  }

  lemma ArrivedSinceExactly(buf: Buffer, clock: Time, t: Time, k: nat)
    requires buf.Ok(clock)
    ensures buf.FirstArrivedFrom(t) == Some(k) <==> OldestSince(buf, t, k)
  {
    Indexed(buf, clock);
    hide Buffer.Ok, FindFirst, Increasing;
    var f := buf.FirstArrivedFrom(t);
    InIndex(buf, clock, f);
    assert f.Some? ==> OldestSince(buf, t, f.value);
  }

  lemma FromExactly(buf: Buffer, clock: Time, num: nat, k: nat)
    requires buf.Ok(clock)
    ensures buf.FirstFrom(num) == Some(k) <==> OldestFrom(buf, num, k)
  {
    Indexed(buf, clock);
    hide Buffer.Ok, FindFirst, Increasing, CanStart, Buffer.At;
    var f := buf.FirstFrom(num);
    InIndex(buf, clock, f);
    assert f.Some? ==> OldestFrom(buf, num, f.value);
  }

  /** Where the look-ups lead, and only to that. */
  lemma LooksUpExactly(buf: Buffer, clock: Time, num: nat, until: int, since: Time, k: nat)
    requires buf.Ok(clock)
    ensures buf.SyncAtOrBefore(num) == Some(k) <==> NewestUpTo(buf, num, k)
    ensures buf.NewestBefore(num) == Some(k) <==> NewestUpTo(buf, num - 1, k)
    ensures buf.FirstFrom(num) == Some(k) <==> OldestFrom(buf, num, k)
    ensures buf.NewestArrivedBy(until) == Some(k) <==> NewestBy(buf, until, k)
    ensures buf.FirstArrivedFrom(since) == Some(k) <==> OldestSince(buf, since, k)
  {
    hide *;
    UpToExactly(buf, clock, num, k);
    BeforeExactly(buf, clock, num, k);
    FromExactly(buf, clock, num, k);
    ArrivedByExactly(buf, clock, until, k);
    ArrivedSinceExactly(buf, clock, since, k);
  }

  /** To skip to keyframe `k` would leave the output `over` late: it waits exactly if `k` is not the
      newest, and came sooner after the one before it than that. */
  lemma GapExactly(e: Engine, k: nat, over: Time)
    requires e.buf.Ok(e.log.clock) && CanStart(e.buf, k)
    ensures e.GapAfter(k, over) <==>
            && (exists n: nat :: k < n && CanStart(e.buf, n))
            && (exists p: nat :: NewestUpTo(e.buf, k - 1, p) && e.buf.At(k).arrival < e.buf.At(p).arrival + over)
  {
    var buf, p := e.buf, e.buf.NewestBefore(k);
    Indexed(buf, e.log.clock);
    hide Buffer.Ok, Buffer.NewestBefore;
    forall q: nat ensures p == Some(q) <==> NewestUpTo(buf, k - 1, q) {
      BeforeExactly(buf, e.log.clock, k, q);
    }
    hide NewestUpTo;
    if p.Some? {
      assert CanStart(buf, p.value) && p.value < k;
    }
    if buf.syncs != [] {
      InIndex(buf, e.log.clock, Some(buf.syncs[|buf.syncs| - 1]));
    }
  }

  /** What a reconnect needs: on air, the newest keyframe up to the cursor, or without one the
      message at it. All that must be held is what there is but for the messages before that. */
  lemma RestartsExactly(buf: Buffer, enc: Encoder, at: Cursor, plan: Plan, clock: Time, k: nat)
    requires buf.Ok(clock)
    ensures RestartOf(buf, at.num, plan.started) == Some(k) <==>
            && plan.started
            && (NewestUpTo(buf, at.num, k) || (k == at.num && forall n: nat :: n <= k ==> !CanStart(buf, n)))
    ensures plan.started && NewestUpTo(buf, at.num, k) ==>
              Needed(buf, enc, at, plan) + RingCost(buf.ring[..k - buf.base]) == buf.bytes + enc.bytes
    ensures !plan.started ==> Needed(buf, enc, at, plan) == buf.bytes + enc.bytes
  {
    hide RingCost, Contiguous, Indexes, FindLast, Buffer.SyncAtOrBefore;
    var found := buf.SyncAtOrBefore(at.num);
    forall n: nat ensures found == Some(n) <==> NewestUpTo(buf, at.num, n) {
      UpToExactly(buf, clock, at.num, n);
    }
    if NewestUpTo(buf, at.num, k) {
      assert buf.ring == buf.ring[..k - buf.base] + buf.ring[k - buf.base..];
      RingCostConcat(buf.ring[..k - buf.base], buf.ring[k - buf.base..]);
    }
    NoneUpTo(buf, clock, at.num);
  }

  lemma NoneUpTo(buf: Buffer, clock: Time, num: nat)
    requires buf.Ok(clock)
    ensures buf.SyncAtOrBefore(num).None? <==> forall n: nat :: n <= num ==> !CanStart(buf, n)
  {
    Indexed(buf, clock);
    InIndex(buf, clock, buf.SyncAtOrBefore(num));
    hide Buffer.Ok, Increasing, CanStart, FindLast;
  }

  // ----- what to start from -----------------------------------------------------------

  /** The output could start from message `k`: it is within the session at the cursor. */
  ghost predicate Offers(e: Engine, k: nat)
    reads e
  {
    && CanStart(e.buf, k) && e.at.num <= k
    && e.buf.Has(e.at.num) && e.buf.At(k).session == e.buf.At(e.at.num).session
  }

  /** Message `k` is as old as the delay. */
  ghost predicate IsDue(e: Engine, now: Time, k: nat)
    reads e
  {
    e.buf.Has(k) && e.buf.At(k).arrival + e.plan.delay <= now
  }

  lemma FirstOfferedExactly(e: Engine, k: nat)
    requires e.buf.Ok(e.log.clock) && e.buf.Has(e.at.num)
    ensures e.FirstOffered() == Some(k) <==> Offers(e, k) && forall n: nat :: n < k ==> !Offers(e, n)
  {
    Indexed(e.buf, e.log.clock);
    var f := e.FirstOffered();
    InIndex(e.buf, e.log.clock, f);
    hide Buffer.Ok, Increasing, FindFirst;
    assert f.Some? ==> Offers(e, f.value);
  }

  lemma NewestDueExactly(e: Engine, now: Time, k: nat)
    requires e.buf.Ok(e.log.clock) && e.buf.Has(e.at.num)
    ensures e.NewestDue(now) == Some(k) <==>
            Offers(e, k) && IsDue(e, now, k) && forall n: nat :: k < n ==> !Offers(e, n) || !IsDue(e, now, n)
  {
    Indexed(e.buf, e.log.clock);
    var f := e.NewestDue(now);
    InIndex(e.buf, e.log.clock, f);
    hide Buffer.Ok, Increasing, FindLast;
    assert f.Some? ==> Offers(e, f.value) && IsDue(e, now, f.value);
  }

  lemma NoneDueExactly(e: Engine, now: Time)
    requires e.buf.Ok(e.log.clock) && e.buf.Has(e.at.num)
    ensures e.NewestDue(now).None? <==> forall n: nat :: Offers(e, n) ==> !IsDue(e, now, n)
    ensures e.FirstOffered().None? <==> forall n: nat :: !Offers(e, n)
  {
    Indexed(e.buf, e.log.clock);
    InIndex(e.buf, e.log.clock, e.NewestDue(now));
    InIndex(e.buf, e.log.clock, e.FirstOffered());
    hide Buffer.Ok, Increasing, FindLast, FindFirst;
    assert e.NewestDue(now).Some? ==> Offers(e, e.NewestDue(now).value);
    assert e.FirstOffered().Some? ==> Offers(e, e.FirstOffered().value);
  }

  /** An output that waits for a keyframe starts from the first within the session at the cursor;
      but a broadcast that has not started, from the newest that is old enough, if any is. */
  lemma StartsExactly(e: Engine, now: Time, k: nat)
    requires e.buf.Ok(e.log.clock)
    ensures e.plan.started || (forall n: nat :: Offers(e, n) ==> !IsDue(e, now, n)) ==>
              (e.StartPoint(now) == Some(k) <==> Offers(e, k) && forall n: nat :: n < k ==> !Offers(e, n))
    ensures !e.plan.started && (exists n: nat :: Offers(e, n) && IsDue(e, now, n)) ==>
              (e.StartPoint(now) == Some(k) <==>
               Offers(e, k) && IsDue(e, now, k) && forall n: nat :: k < n ==> !Offers(e, n) || !IsDue(e, now, n))
  {
    hide Buffer.Ok, Engine.FirstOffered, Engine.NewestDue, IsDue;
    if e.buf.Has(e.at.num) {
      FirstOfferedExactly(e, k);
      NewestDueExactly(e, now, k);
      NoneDueExactly(e, now);
      hide Offers;
    }
  }

  /** The replay of a dump goes back to the newest keyframe `delay` older than the first message
      not aired (or than now), if history is kept. */
  lemma ReplaysExactly(e: Engine, now: Time, delay: Time, k: nat)
    requires e.buf.Ok(e.log.clock)
    ensures var unaired := if e.buf.ring != [] && e.at.num < e.buf.base then e.buf.ring[0].arrival
                           else if e.buf.Has(e.at.num) then e.buf.At(e.at.num).arrival else now;
      e.ReplayFrom(now, delay) == Some(k) <==> e.config.keepHistory && NewestBy(e.buf, unaired - delay, k)
  {
    var cut := Max(e.at.num, e.buf.base);
    ArrivedByExactly(e.buf, e.log.clock, (if e.buf.Has(cut) then e.buf.At(cut).arrival else now) - delay, k);
    hide Buffer.NewestArrivedBy, NewestBy, Contiguous, Indexes, RingCost;
  }

  /** A new connection starts at once exactly on air and not in a hold, from the newest keyframe
      up to the cursor; and on it nothing has been sent. */
  lemma ConnectsExactly(e: Engine, k: nat)
    requires e.buf.Ok(e.log.clock)
    ensures e.ReconnectsAt() == Some(k) <==>
            e.plan.started && !e.plan.pending.Hold? && !e.plan.pending.Dump? && NewestUpTo(e.buf, e.at.num, k)
    ensures var wire := NewWire(e.wire);
            && wire.connected && wire.generation == e.wire.generation + 1 && wire.epoch > e.wire.epoch
            && wire.unused && wire.lastOutTs == 0 == wire.lastPts && wire.lastKindTs == map[]
            && wire.sentHeaders == map[] && wire.sentMetadata.None? && wire.firstEmitted.None?
  {
    UpToExactly(e.buf, e.log.clock, e.at.num, k);
    hide Buffer.SyncAtOrBefore, NewestUpTo, Buffer.Ok;
  }

  // ----- timestamps -------------------------------------------------------------------

  /** The timestamp of a keyframe spliced to, or held, is the least that is a frame after
      everything sent, as decoded and as presented (0 on a connection nothing was sent on); that of
      any other message the least that is not before its own nor before its kind's last. */
  lemma TimestampsExactly(wire: Wire, frame: nat, cts: int, kind: Kind, ts: int, u: nat)
    ensures var f := if frame == 0 then 1 else frame;
            && (wire.AfterSent(frame, cts) <= u <==> wire.lastOutTs + f <= u && wire.lastPts + f <= u + cts)
            && (wire.StartTs(frame, cts) <= u <==>
                wire.unused || (wire.lastOutTs + f <= u && wire.lastPts + f <= u + cts))
    ensures wire.OutTs(kind, ts) <= u <==> ts <= u && (kind in wire.lastKindTs ==> wire.lastKindTs[kind] <= u)
  {
  }

  /** A held frame's is the least that is a frame after everything sent and keeps the clock's pace:
      as many milliseconds after the last timestamp as since it was last shown, and one at least. */
  lemma HeldTimestampExactly(e: Engine, now: Time, h: HoldFrame, u: nat)
    requires h.last <= now
    ensures var f, passed := if h.frameMs == 0 then 1 else h.frameMs, if now - h.last < 2000 then 1
                                                                      else (now - h.last) / 1000;
      e.HeldTs(now, h) <= u <==>
        && e.wire.lastOutTs + f <= u && e.wire.lastPts + f <= u + h.cts
        && e.wire.lastOutTs + passed <= u && (Video in e.wire.lastKindTs ==> e.wire.lastKindTs[Video] + passed <= u)
  {
  }

  /** After a splice to keyframe `e` the output goes on from its timestamp `start`, with its
      configuration to come first. Sound and data of its session from before it do not go out, and
      after an open-GOP one no leading picture does. */
  lemma SplicesExactly(e: Entry, start: nat, m: Entry)
    ensures var at := SplicedTo(e, start);
            && at.num == e.num && at.session == Some(e.session) && e.ts + at.tsOffset == start
            && !at.needSync && at.pendingHeaders && at.atSplice
            && (at.LeavesOut(m) <==>
                match m.kind
                case Video => e.nal.Cra? && m.nal.Leading?
                case _ => m.session == e.session && m.ts < e.ts)
  {
  }

  // ----- sessions ---------------------------------------------------------------------

  /** How long a frame lasts: what its session says, or 33 ms. */
  lemma {:induction false} FrameExactly(sessions: seq<Session>, id: nat, i: nat)
    requires forall i, j :: 0 <= i < j < |sessions| ==> sessions[i].id < sessions[j].id
    ensures i < |sessions| && sessions[i].id == id ==> Encoder.FrameMsIn(sessions, id) == sessions[i].frameMs
    ensures (forall j :: 0 <= j < |sessions| ==> sessions[j].id != id) ==> Encoder.FrameMsIn(sessions, id) == 33
  {
    if sessions != [] && 0 < i {
      FrameExactly(sessions[1..], id, i - 1);
    } else if sessions != [] {
      FrameExactly(sessions[1..], id, 0);
    }
  }

  /** What a message teaches of its session: that there are pictures, and from the time between two
      of them, if that is up to 200 ms, how long a frame lasts. */
  lemma ObservesExactly(s: Session, kind: Kind, ts: nat, info: Info)
    ensures var s', picture := Engine.Observed(s, kind, ts, info), kind.Video? && info.known && info.config.None?;
            && s'.id == s.id && s'.headers == s.headers && s'.metadata == s.metadata
            && (s'.hasVideo <==> s.hasVideo || (kind.Video? && info.known))
            && s'.lastVideoTs == (if picture then Some(ts) else s.lastVideoTs)
            && s'.frameMs == (if picture && s.lastVideoTs.Some? && s.lastVideoTs.value < ts <= s.lastVideoTs.value + 200
                              then ts - s.lastVideoTs.value else s.frameMs)
  {
  }

  /** A publisher that connects begins a session in which nothing has come; the one before goes
      exactly if nothing of it is buffered. */
  lemma BeginsExactly(buf: Buffer, enc: Encoder, clock: Time)
    requires buf.Ok(clock) && enc.Ok(buf.ring)
    ensures var enc', n := NewSession(buf, enc), |enc.sessions|;
            && enc'.active && enc'.sessions != [] && enc'.interval == 2_000_000 && enc'.bitrate == 0
            && enc'.Last() == Session(enc.nextSession, [], None, false, None, 33) && enc'.cfg == map[]
            && enc'.nextSession == enc.nextSession + 1
            && var earlier := enc'.sessions[..|enc'.sessions| - 1];
            if n > 0 && (forall m :: m in buf.ring ==> m.session != enc.sessions[n - 1].id)
            then earlier == enc.sessions[..n - 1]
            else earlier == enc.sessions
  {
    hide Indexes, RingCost, SessionsCost;
    var sessions := NewSession(buf, enc).sessions;
    assert sessions[..|sessions| - 1] + [sessions[|sessions| - 1]] == sessions;
  }

  /** What is cut off for a replay is exactly what comes from `cut` on; what comes next is a session
      of its own, which has all the last one had. */
  lemma CutsExactly(buf: Buffer, enc: Encoder, cut: nat, clock: Time)
    requires buf.Ok(clock) && buf.base <= cut <= buf.next
    ensures var buf' := CutAt(buf, cut);
            && buf'.next == cut && buf'.base == buf.base
            && (forall n: nat :: buf'.Has(n) <==> buf.Has(n) && n < cut)
            && (forall n: nat :: buf'.Has(n) ==> buf'.At(n) == buf.At(n))
    ensures enc.sessions != [] ==>
              var enc' := Split(enc, cut);
              && enc'.nextSession == enc.nextSession + 1
              && |enc'.sessions| == |enc.sessions| + 1 && enc'.sessions[..|enc.sessions|] == enc.sessions
              && var s := enc'.Last();
              && s == enc.Last().(id := enc.nextSession, headers := s.headers)
              && MapOf(s.headers) == MapOf(enc.Last().headers) && (0 < cut ==> AllNumsBelow(s.headers, cut))
  {
    hide Indexes, RingCost, SyncsBefore, NumberedBefore, SessionsCost;
  }

  /** What waits from message `num` on is known by the identities of just those messages. */
  lemma WaitsExactly(buf: Buffer, clock: Time, num: nat, n: nat)
    requires buf.Ok(clock) && buf.Has(n)
    ensures buf.At(n).id in IdsFrom(buf, num) <==> num <= n
  {
    hide Indexes, RingCost;
    if buf.At(n).id in IdsFrom(buf, num) {
      var i :| 0 <= i < |buf.ring| && num <= buf.ring[i].num && buf.ring[i].id == buf.At(n).id;
      assert i == n - buf.base;
    }
  }

  // ----- delays -----------------------------------------------------------------------

  /** A dump goes back to the delay asked for, or without one to that in effect up to the maximum;
      on air, with more to come, it is refused exactly if that is under half a second. */
  lemma DumpsExactly(e: Engine)
    requires e.plan.target <= e.config.maxDelayMs * 1000
    ensures 0 < e.plan.target ==> e.DumpDelay() == e.plan.target
    ensures e.plan.target == 0 ==>
              e.DumpDelay() == if e.plan.delay < e.config.maxDelayMs * 1000 then e.plan.delay
                               else e.config.maxDelayMs * 1000
    ensures e.Airing() <==> e.plan.started && e.enc.active && e.plan.endMark.None?
    ensures e.CanDump() <==> (e.Airing() ==> 500_000 <= e.DumpDelay())
  {
  }

  /** A refused dump lost something exactly if, sent again after what was taken, the output would go
      back; with nothing taken, if anything was emitted on the connection. */
  lemma LosesExactly(e: Engine, taken: Option<nat>)
    ensures taken.Some? ==> (e.Lost(taken) <==> Engine.ResumeAt(e.at.num, taken, e.wire.firstEmitted) < e.at.num)
    ensures taken.None? ==> (e.Lost(taken) <==> e.wire.firstEmitted.Some?)
  {
  }

  /** A delay is refused exactly if it is over the maximum, or an encoder whose bitrate is known
      would fill more than the memory there is with it and a fifth more. */
  lemma RefusesExactly(e: Engine, ms: nat)
    ensures var bytes := e.enc.bitrate / 8 * ms / 1000;
            5 * e.BytesFor(ms) <= 6 * bytes < 5 * e.BytesFor(ms) + 5
    ensures e.Refusal(ms).None? <==>
              && ms <= e.config.maxDelayMs
              && (e.enc.active && 0 < e.enc.bitrate ==> e.BytesFor(ms) <= e.config.ramCapBytes)
    ensures e.config.maxDelayMs < ms ==> e.Refusal(ms) == Some(TooLarge(ms, e.config.maxDelayMs))
    ensures ms <= e.config.maxDelayMs && e.Refusal(ms).Some? ==>
              e.Refusal(ms) == Some(NotEnoughMemory(e.BytesFor(ms), e.config.ramCapBytes))
  {
  }

  /** A delay more than an interval over the maximum comes down to that, and a dump goes on to the
      delay set since; all else of the plan stays. */
  lemma DelaysExactly(p: Plan, max: Time, interval: nat, d: Time)
    ensures var q := p.UnderMax(max, interval);
            && q == p.(target := q.target, pending := q.pending, hold := q.hold)
            && (q.pending.Idle? ==> q.delay <= max + interval)
            && (q != p ==>
                  && p.pending.Idle? && max + interval < p.delay && q.pending == Reduce(max) && q.hold.None?
                  && q.target == if p.target < max then p.target else max)
    ensures p.pending.AfterDump() ==>
              var q := p.WithDumpDelay(d);
              && q == p.(target := d, historyShort := false, pending := q.pending)
              && match p.pending
                 case Replay(from, _) => q.pending == Replay(from, d)
                 case Hold(from, _) => q.pending == Hold(from, d)
                 case Dump(_, began, from, shown) => q.pending == Dump(d, began, from, shown)
                 case Mask(_, began, anchor, mute, shown, dump) =>
                   q.pending == Mask(d, began, anchor, mute, shown, dump)
                 case _ => true
    ensures p.pending.AfterDump() <==> p.pending.Replay? || p.pending.Hold? || p.pending.Dump?
                                       || (p.pending.Mask? && p.pending.dump)
  {
  }
}
