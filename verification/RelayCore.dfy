/** The core's side of a dump as it runs: who asked, what it waits for, and what it hands to
    the delay engine once the egress has answered or has taken too long. */
module RelayCore {
  import DumpHandshake
  import opened EngineTypes
  import opened Wrappers

  /** How long the egress may take to answer, in microseconds. */
  const CUT_ANSWER_WAIT: Time := 2 * SEC

  datatype PendingDump = PendingDump(mode: DelayMode, cover: bool, replies: seq<nat>, since: Time)

  /** What the engine is asked to do, and who is told. */
  datatype Finish = Finish(mode: DelayMode, cover: bool, delivered: Option<nat>, replies: seq<nat>)

  class Core {
    var cut: nat
    var counter: nat
    var dump: Option<PendingDump>
    var generation: nat
    ghost var done: nat
    /** Everyone who asked for a dump, and everyone told of its end, in order. */
    ghost var asked: seq<nat>
    ghost var told: seq<nat>

    ghost function Waiting(): seq<nat>
      reads this
    {
      if dump.Some? then dump.value.replies else []
    }

    /** The core as the handshake's steps see it. */
    ghost function Side(): DumpHandshake.Core
      reads this
    {
      DumpHandshake.Core(cut, dump.Some?, false, generation, done)
    }

    /** Whoever asked was told, once, or is waiting; somebody waits while a dump is under way. */
    ghost predicate Valid()
      reads this
    {
      && asked == told + Waiting()
      && counter == cut
      && (dump.Some? ==> dump.value.replies != [] && 0 < cut)
    }

    constructor ()
      ensures Valid() && Side() == DumpHandshake.START.core && asked == []
    {
      cut, counter, dump, generation, done, asked, told := 0, 0, None, 0, 0, [], [];
    }

    /** The egress has a new connection. */
    method EgressConnected(generation: nat)
      requires Valid()
      modifies `generation
      ensures Valid() && Side() == old(Side()).(generation := generation)
    {
      this.generation := generation;
    }

    /** A dump is asked for: one under way is joined; otherwise a new one starts, which takes
        back what is queued and asks the egress (`send` is its number). */
    method StartDump(now: Time, mode: DelayMode, cover: bool, reply: nat) returns (send: Option<nat>)
      requires Valid()
      modifies this
      ensures Valid() && asked == old(asked) + [reply] && told == old(told)
      ensures old(dump).Some? ==> send == None && Side() == old(Side())
      ensures old(dump).Some? ==> dump == Some(old(dump).value.(replies := old(dump).value.replies + [reply]))
      ensures old(dump).None? ==>
        send == Some(cut) && Side() == old(Side()).(cut := old(cut) + 1, waiting := true)
      ensures old(dump).None? ==> dump == Some(PendingDump(mode, cover, [reply], now))
    {
      asked := asked + [reply];
      if dump.Some? {
        dump := Some(dump.value.(replies := dump.value.replies + [reply]));
        return None;
      }
      cut := cut + 1;
      counter := cut;
      dump := Some(PendingDump(mode, cover, [reply], now));
      send := Some(cut);
    }

    /** Ends the dump under way, if there is one: without a connection it does not replay, and
        everyone who asked is told. */
    method FinishDump(delivered: Option<nat>, connected: bool) returns (r: Option<Finish>)
      requires Valid()
      modifies this
      ensures Valid() && Side() == old(Side()).(waiting := false) && asked == old(asked) && told == old(asked)
      ensures r.Some? == old(dump).Some?
      ensures r.Some? ==>
        && r.value.replies == old(dump).value.replies && r.value.cover == old(dump).value.cover
        && r.value.delivered == delivered
        && r.value.mode == if connected then old(dump).value.mode else MaskMode
    {
      if dump.None? {
        return None;
      }
      var pending := dump.value;
      dump := None;
      told := told + pending.replies;
      r := Some(Finish(if connected then pending.mode else MaskMode, pending.cover, delivered, pending.replies));
    }

    /** The egress answers: only the answer to the latest dump counts. */
    method CutDone(n: nat, delivered: Option<nat>, connected: bool) returns (r: Option<Finish>)
      requires Valid()
      modifies this
      ensures Valid() && Side() == DumpHandshake.AnswerTaken(old(Side()), n) && asked == old(asked)
      ensures n != cut ==> r == None && dump == old(dump) && told == old(told)
      ensures n == cut ==> dump == None && told == old(asked) && r.Some? == old(dump).Some?
      ensures r.Some? ==>
        && r.value.replies == old(dump).value.replies && r.value.cover == old(dump).value.cover
        && r.value.delivered == delivered
        && r.value.mode == if connected then old(dump).value.mode else MaskMode
    {
      r := None;
      if n == cut {
        done := if dump.Some? then n else done;
        r := FinishDump(delivered, connected);
      }
    }

    /** A dump without an answer for too long finishes as if nothing was delivered, without a
        replay. */
    method CheckDump(now: Time, connected: bool) returns (r: Option<Finish>)
      requires Valid()
      modifies this
      ensures Valid() && asked == old(asked)
      ensures Side() == if r.Some? then old(Side()).(waiting := false) else old(Side())
      ensures r.Some? <==> old(dump).Some? && 2_000_000 <= now - old(dump).value.since
      ensures r.None? ==> dump == old(dump) && told == old(told)
      ensures r.Some? ==> dump == None && told == asked
      ensures r.Some? ==> r == Some(Finish(MaskMode, old(dump).value.cover, None, old(dump).value.replies))
    {
      r := None;
      if dump.Some? && CUT_ANSWER_WAIT <= now - dump.value.since {
        dump := Some(dump.value.(mode := MaskMode));
        r := FinishDump(None, connected);
      }
    }
  }
}
