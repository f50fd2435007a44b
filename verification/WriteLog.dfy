/** What one destination connection wrote, kept just long enough to say, at a dump, which
    message the destination surely has. */
module WriteLog {
  import opened Wrappers

  /** How far back the log reaches, in bytes. */
  const WRITTEN_KEPT: nat := 32 * 1024 * 1024

  /** A batch: its last message, and the count of bytes written at its end. */
  datatype Batch = Batch(seqNo: nat, end: nat)

  datatype Log = Log(total: nat, batches: seq<Batch>)

  const EMPTY := Log(0, [])

  /** The batches that end within the last `WRITTEN_KEPT` bytes; older ones come first. */
  function Kept(batches: seq<Batch>, total: nat): (r: seq<Batch>)
    decreases |batches|
  {
    if batches != [] && batches[0].end + WRITTEN_KEPT < total then Kept(batches[1..], total) else batches
  }

  function Added(batches: seq<Batch>, last: Option<nat>, total: nat): seq<Batch> {
    if last.Some? then batches + [Batch(last.value, total)] else batches
  }

  function Logged(log: Log, bytes: nat, last: Option<nat>): Log {
    var total := log.total + bytes;
    Log(total, Kept(Added(log.batches, last, total), total))
  }

  /** The last batch that ends at or before `sent`. */
  function LastBy(batches: seq<Batch>, sent: nat): Option<nat>
    decreases |batches|
  {
    if batches == [] then None
    else if batches[|batches| - 1].end <= sent then Some(batches[|batches| - 1].seqNo)
    else LastBy(batches[..|batches| - 1], sent)
  }

  /** The last message surely sent, when at most `unsent` bytes may be waiting. */
  function SureOf(log: Log, unsent: nat): Option<nat> {
    if log.total < unsent then None else LastBy(log.batches, log.total - unsent)
  }

  /** Batches in the order they were written. */
  ghost predicate InOrder(batches: seq<Batch>, total: nat) {
    && (forall i, j :: 0 <= i < j < |batches| ==> batches[i].end <= batches[j].end)
    && (forall i :: 0 <= i < |batches| ==> batches[i].end <= total)
  }

  /** What is kept is the end of the list, from the first batch within reach on. */
  lemma {:induction false} KeptIsEnd(batches: seq<Batch>, total: nat) returns (k: nat)
    requires InOrder(batches, total)
    ensures k <= |batches| && Kept(batches, total) == batches[k..]
    ensures forall i :: 0 <= i < k ==> batches[i].end + 33_554_432 < total
    ensures forall i :: k <= i < |batches| ==> total <= batches[i].end + 33_554_432
    decreases |batches|
  {
    if batches != [] && batches[0].end + WRITTEN_KEPT < total {
      var rest := KeptIsEnd(batches[1..], total);
      k := rest + 1;
      forall i | 0 <= i < k ensures batches[i].end + WRITTEN_KEPT < total {
        if 0 < i {
          assert batches[1..][i - 1] == batches[i];
        }
      }
      forall i | k <= i < |batches| ensures total <= batches[i].end + WRITTEN_KEPT {
        assert batches[1..][i - 1] == batches[i];
      }
    } else {
      k := 0;
    }
  }

  /** The batch found is the last one within `sent`; none is found only if none is. */
  lemma {:induction false} LastByIsLast(batches: seq<Batch>, sent: nat) returns (i: nat)
    ensures LastBy(batches, sent).Some? ==>
      i < |batches| && batches[i].end <= sent && LastBy(batches, sent) == Some(batches[i].seqNo)
    ensures LastBy(batches, sent).Some? ==> forall j :: i < j < |batches| ==> sent < batches[j].end
    ensures LastBy(batches, sent).None? ==> forall j :: 0 <= j < |batches| ==> sent < batches[j].end
    decreases |batches|
  {
    i := 0;
    if batches != [] {
      if batches[|batches| - 1].end <= sent {
        i := |batches| - 1;
      } else {
        i := LastByIsLast(batches[..|batches| - 1], sent);
      }
    }
  }

  /** `log` is what is left of everything written, all of it in `all`. */
  ghost predicate Logs(log: Log, all: seq<Batch>) {
    InOrder(all, log.total) && log.batches == Kept(all, log.total)
  }

  lemma LoggedKeeps(log: Log, all: seq<Batch>, bytes: nat, last: Option<nat>)
    requires Logs(log, all)
    ensures Logs(Logged(log, bytes, last), Added(all, last, log.total + bytes))
  {
    hide Kept, InOrder;
    var total := log.total + bytes;
    AddedInOrder(all, log.total, last, total);
    var k := KeptIsEnd(all, log.total);
    if last.Some? {
      KeptLater(all, k, [Batch(last.value, total)], total);
    } else {
      KeptLater(all, k, [], total);
      assert all + [] == all && all[k..] + [] == all[k..];
    }
  }

  lemma AddedInOrder(all: seq<Batch>, before: nat, last: Option<nat>, total: nat)
    requires InOrder(all, before) && before <= total
    ensures InOrder(Added(all, last, total), total)
  {
  }

  /** What was out of reach before stays so. */
  lemma {:induction false} KeptLater(all: seq<Batch>, k: nat, more: seq<Batch>, total: nat)
    requires k <= |all| && forall i :: 0 <= i < k ==> all[i].end + WRITTEN_KEPT < total
    ensures Kept(all + more, total) == Kept(all[k..] + more, total)
    decreases k
  {
    if k == 0 {
      assert all[0..] == all;
    } else {
      assert (all + more)[0] == all[0];
      assert (all + more)[1..] == all[1..] + more;
      assert all[1..][k - 1..] == all[k..];
      KeptLater(all[1..], k - 1, more, total);
    }
  }

  /** Leaving old batches out never claims too much: what is said to be surely sent is what the
      whole history says, or nothing, and nothing only when that lies out of reach. */
  lemma SureOfIsExact(log: Log, all: seq<Batch>, unsent: nat) returns (i: nat)
    requires Logs(log, all)
    ensures SureOf(log, unsent).Some? ==>
      && i < |all| && SureOf(log, unsent) == Some(all[i].seqNo)
      && all[i].end + unsent <= log.total
      && (forall j :: i < j < |all| ==> log.total < all[j].end + unsent)
    ensures SureOf(log, unsent).None? ==>
      forall j :: 0 <= j < |all| ==> log.total < all[j].end + unsent || all[j].end + WRITTEN_KEPT < log.total
  {
    i := 0;
    var k := KeptIsEnd(all, log.total);
    hide Kept, InOrder, LastBy;
    if unsent <= log.total {
      var sent := log.total - unsent;
      var at := LastByIsLast(log.batches, sent);
      if SureOf(log, unsent).Some? {
        i := k + at;
        forall j | i < j < |all| ensures log.total < all[j].end + unsent {
          assert all[j] == log.batches[j - k];
        }
      } else {
        forall j | k <= j < |all| ensures log.total < all[j].end + unsent {
          assert all[j] == log.batches[j - k];
        }
      }
    }
  }

  /** The log as it runs: batches go in at one end and out at the other. */
  class Writer {
    var total: nat
    var batches: seq<Batch>
    ghost var all: seq<Batch>

    ghost function Value(): Log
      reads this
    {
      Log(total, batches)
    }

    ghost predicate Valid()
      reads this
    {
      Logs(Value(), all)
    }

    constructor ()
      ensures Valid() && Value() == EMPTY && all == []
    {
      total, batches, all := 0, [], [];
    }

    method Written(bytes: nat, last: Option<nat>)
      requires Valid()
      modifies this
      ensures Valid() && Value() == Logged(old(Value()), bytes, last)
      ensures all == Added(old(all), last, total)
    {
      LoggedKeeps(Value(), all, bytes, last);
      hide InOrder, Logs;
      total := total + bytes;
      if last.Some? {
        batches := batches + [Batch(last.value, total)];
        all := all + [Batch(last.value, total)];
      }
      Prune();
    }

    method Prune()
      modifies `batches
      ensures batches == Kept(old(batches), total)
    {
      while batches != [] && WRITTEN_KEPT < total - batches[0].end
        invariant Kept(batches, total) == Kept(old(batches), total)
        decreases |batches|
      {
        batches := batches[1..];
      }
    }

    method SurelySent(unsent: nat) returns (r: Option<nat>)
      requires Valid()
      ensures r == SureOf(Value(), unsent)
    {
      if total < unsent {
        return None;
      }
      var i := |batches|;
      assert batches[..i] == batches;
      while 0 < i
        invariant 0 <= i <= |batches|
        invariant LastBy(batches, total - unsent) == LastBy(batches[..i], total - unsent)
      {
        i := i - 1;
        if batches[i].end <= total - unsent {
          return Some(batches[i].seqNo);
        }
        assert batches[..i + 1][..i] == batches[..i];
      }
      r := None;
    }
  }
}
