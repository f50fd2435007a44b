/** What the egress does next: where each way a connection ends leads, and that nothing it can do
    is left out of the steps. */
module HandshakeSteps {
  import opened Wrappers
  import opened DumpHandshake

  /** A control message taken while publishing: stopping and aborting lead to idleness, a new
      destination to a connection to that, and a dump either to an answer at once, with the
      connection as it was, or to its reset. */
  lemma TakenWhilePublishing(s: Sys, clear: bool, held: nat)
    requires Enabled(s, TakeCtl(clear, held)) && s.phase.Publishing?
    ensures var s', c := Next(s, TakeCtl(clear, held)), s.ctl[0];
      && s'.ctl == s.ctl[1..] && s'.media == s.media
      && (c.Cut? && clear ==>
            s'.phase == s.phase && s'.events == s.events + [CutDone(c.n, false, s.phase.conn.lastWritten)])
      && (c.Cut? && !clear ==>
            && s'.phase.Resetting? && s'.phase.cut == c.n && s'.phase.conn == s.phase.conn && s'.events == s.events
            && s'.backlog == s.backlog - if s.phase.hand.Writing? then s.phase.hand.bytes else 0)
      && (!c.Cut? ==>
            && s'.phase.Closing?
            && var after := Next(s', Report);
               if c.Start? then after.phase.Connecting? && after.media == s.media
               else after.phase.Idle? && after.media == [])
  {
  }

  /** A control message taken with no connection up: a dump is answered at once, a start (also a new
      one) connects, and stopping or aborting leaves nothing to do and nothing queued. */
  lemma TakenElsewhere(s: Sys, clear: bool, held: nat)
    requires Enabled(s, TakeCtl(clear, held)) && !s.phase.Publishing?
    ensures var s', c := Next(s, TakeCtl(clear, held)), s.ctl[0];
      && s'.ctl == s.ctl[1..]
      && (c.Cut? ==> s'.phase == s.phase && s'.media == s.media && s'.events == s.events + [CutDone(c.n, false, None)])
      && (c.Start? ==> s'.phase.Connecting? && s'.media == s.media && s'.events == s.events)
      && (!c.Cut? && !c.Start? ==>
            s'.phase.Idle? && s'.events == s.events && s'.media == if s.phase.Idle? then s.media else [])
  {
  }

  /** A connection that fails is tried again after a while, with the rest of the media dropped
      meanwhile, and one reset for a dump at once. */
  lemma LostAgain(s: Sys)
    ensures Enabled(s, Fails) ==>
              var s' := Next(s, Fails); s'.phase.Closing? && s'.media == s.media && Next(s', Report).phase.Backoff?
    ensures Enabled(s, CloseReset) ==>
              var s' := Next(s, CloseReset);
              s'.phase.Closing? && s'.media == s.media && Next(s', Report).phase.Connecting?
    ensures s.phase.Backoff? ==> Next(s, BackoffOver).phase.Connecting?
    ensures s.phase.Connecting? ==> Next(s, ConnectFails).phase.Backoff? && Next(s, ConnectOk).phase.Awaiting?
  {
  }

  /** A dump begins with its number ahead of everything queued from then on; answered or not in time,
      it is over for the core, and another can begin. */
  lemma DumpBeginsAndEnds(s: Sys, bytes: nat, seqNo: Option<nat>)
    ensures Enabled(s, BeginDump) ==>
              var c := Next(s, BeginDump).core;
              c.waiting && c.mustSend && c.cut == s.core.cut + 1 == Next(s, BeginDump).counter
    ensures Enabled(s, TimeOut) ==>
              var s' := Next(s, TimeOut);
              !s'.core.waiting && Enabled(s', BeginDump) && s' == s.(core := s.core.(waiting := false))
    ensures Enabled(s, TakeEvent) && s.events[0].CutDone? ==>
              (Next(s, TakeEvent).core.waiting <==> s.core.waiting && s.events[0].cut != s.core.cut)
    ensures Enabled(s, Queue(bytes, seqNo)) ==>
              Next(s, Queue(bytes, seqNo)).media == s.media + [Item(s.core.generation, s.core.cut, seqNo, bytes)]
  {
  }

  /** What may happen is possible: a control message is taken whenever the egress waits, for anything
      or in the middle of a write; up to 64 messages are received at once, written in any pieces,
      and any of it leaves and is acknowledged; and a connection can fail whenever it is used. */
  lemma StepsArePossible(s: Sys, n: nat, outLen: nat, wireLen: nat)
    ensures s.ctl != [] && (s.phase.Idle? || s.phase.Connecting? || s.phase.Backoff?) ==> Enabled(s, TakeCtl(false, n))
    ensures s.ctl != [] && s.phase.Publishing? ==>
              var c := s.phase.conn;
              && (!s.phase.hand.Received? && c.accepted - c.acked <= n ==> Enabled(s, TakeCtl(false, n)))
              && (s.phase.hand.AtSelect? && c.left == c.accepted && c.accepted - c.acked <= n ==>
                    Enabled(s, TakeCtl(true, n)))
    ensures s.media != [] && (s.phase.Idle? || s.phase.Backoff?) ==> Enabled(s, DropMedia)
    ensures s.phase.Publishing? && s.phase.hand.AtSelect? && n <= |s.media| && 1 <= n < 65 ==> Enabled(s, Receive(n))
    ensures s.phase.Publishing? && s.phase.hand.Received? && wireLen >= outLen ==> Enabled(s, Load(outLen, wireLen))
    ensures s.phase.Publishing? && s.phase.hand.Writing? ==>
              var rest := s.phase.hand.base + s.phase.hand.wireLen - s.phase.conn.accepted;
              (n <= rest ==> Enabled(s, Accept(n))) && (rest == 0 ==> Enabled(s, WriteDone))
    ensures s.phase.Publishing? && !s.phase.hand.Received? ==> Enabled(s, Fails)
    ensures s.phase.Publishing? || s.phase.Resetting? ==>
              && (n <= s.phase.conn.accepted - s.phase.conn.left ==> Enabled(s, Leave(n)))
              && (n <= s.phase.conn.left - s.phase.conn.acked ==> Enabled(s, Ack(n)))
  {
  }
}
