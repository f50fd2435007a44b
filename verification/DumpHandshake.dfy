/** A dump and the destination connection: the core takes back what it queued, the egress task
    answers once nothing of it can leave any more. Two tasks joined by first-in first-out
    control, media and event queues and one shared counter, as a relation over their steps in
    any interleaving; the network, the send queue of the operating system and the times at
    which things happen are free. */
module DumpHandshake {
  import opened Wrappers
  import opened WriteLog

  // ----- the state --------------------------------------------------------------------

  /** Media for the destination: the connection and the dump it was made after. */
  datatype Item = Item(generation: nat, cut: nat, seqNo: Option<nat>, bytes: nat)

  datatype Ctl = Start | Stop | Abort | Cut(n: nat)

  datatype Event =
    | Connected
    | CutDone(cut: nat, reset: bool, delivered: Option<nat>)
    | Disconnected(lastWritten: Option<nat>)

  /** `waiting`: a dump is under way; `mustSend`: its `Cut` message is not sent yet. `done`
      is the last dump that finished with an answer. */
  datatype Core = Core(cut: nat, waiting: bool, mustSend: bool, generation: nat, done: nat)

  /** An item on a connection's wire; its bytes lie from `from` to `end`. */
  datatype Placed = Placed(item: Item, from: nat, end: nat)

  /** Where a batch of the write log ends: on the wire, and among the items placed there. */
  datatype Mark = Mark(wireEnd: nat, count: nat)

  /** A connection: what it wrote, and how many of its bytes the operating system has accepted,
      has sent and knows to be acknowledged. `all` and `marks` are about every batch logged. */
  datatype Conn = Conn(
    generation: nat,
    log: Log,
    lastWritten: Option<nat>,
    placed: seq<Placed>,
    accepted: nat,
    left: nat,
    acked: nat,
    all: seq<Batch>,
    marks: seq<Mark>)

  /** What the egress has in hand: nothing, a batch just received, or a batch being written,
      its `outLen` bytes (`wireLen` on the wire) after the first `base` ones, its items placed
      from index `before` on. */
  datatype Hand =
    | AtSelect
    | Received(batch: seq<Item>)
    | Writing(base: nat, before: nat, outLen: nat, wireLen: nat, last: Option<nat>, bytes: nat)

  datatype After = ToIdle | ToConnecting | ToBackoff

  datatype Phase =
    | Idle
    | Connecting
    | Backoff
    | Awaiting
    | Publishing(conn: Conn, hand: Hand)
    | Resetting(conn: Conn, cut: nat, delivered: Option<nat>, whole: nat)
    | Closing(lastWritten: Option<nat>, next: After)

  /** A connection that ended, the first `whole` items on it in batches written to their end. */
  datatype Ended = Ended(conn: Conn, whole: nat)

  /** An answer, with the connection as it was then. */
  datatype Answer = Answer(reset: bool, delivered: Option<nat>, conn: Option<Conn>)

  /** `taken` is the last dump whose `Cut` the egress has taken; `answers`, `queued` and `ended` are
      the history. */
  datatype Sys = Sys(
    core: Core,
    counter: nat,
    ctl: seq<Ctl>,
    media: seq<Item>,
    events: seq<Event>,
    backlog: int,
    phase: Phase,
    taken: nat,
    answers: map<nat, Answer>,
    queued: seq<Item>,
    ended: seq<Ended>)

  const START := Sys(Core(0, false, false, 0, 0), 0, [], [], [], 0, Idle, 0, map[], [], [])

  // ----- the steps --------------------------------------------------------------------

  datatype Step =
    | Queue(bytes: nat, seqNo: Option<nat>)
    | BeginDump
    | SendCut
    | SendCtl(c: Ctl)
    | TakeEvent
    | TimeOut
    | TakeCtl(clear: bool, held: nat)
    | DropMedia
    | ConnectOk
    | ConnectFails
    | BackoffOver
    | OtherBytes(n: nat)
    | Receive(n: nat)
    | Load(outLen: nat, wireLen: nat)
    | Accept(n: nat)
    | WriteDone
    | Fails
    | CloseReset
    | Report
    | Leave(n: nat)
    | Ack(n: nat)

  function Bytes(items: seq<Item>): nat {
    if items == [] then 0 else items[0].bytes + Bytes(items[1..])
  }

  /** The items made for one connection since one dump. */
  function Of(items: seq<Item>, generation: nat, cut: nat): seq<Item> {
    if items == [] then []
    else
      (if items[0].generation == generation && items[0].cut == cut then [items[0]] else [])
      + Of(items[1..], generation, cut)
  }

  function Place(items: seq<Item>, from: nat, end: nat): (r: seq<Placed>)
    ensures |r| == |items|
    ensures forall i :: 0 <= i < |r| ==> r[i] == Placed(items[i], from, end)
  {
    seq(|items|, i requires 0 <= i < |items| => Placed(items[i], from, end))
  }

  /** The sequence number of the last item that has one. */
  function LastSeq(placed: seq<Placed>): Option<nat>
    decreases |placed|
  {
    if placed == [] then None
    else if placed[|placed| - 1].item.seqNo.Some? then placed[|placed| - 1].item.seqNo
    else LastSeq(placed[..|placed| - 1])
  }

  predicate Live(p: Phase) { p.Publishing? || p.Resetting? }

  /** What can happen. The core does nothing between a dump's first step and its `Cut`. The
      operating system never says less than what it holds: `clear` (nothing unsent) and `held`
      (unsent or not acknowledged) are sound. */
  predicate Enabled(s: Sys, step: Step) {
    match step
    case Queue(_, _) => !s.core.mustSend
    case BeginDump => !s.core.waiting
    case SendCut => s.core.mustSend
    case SendCtl(c) => !s.core.mustSend && !c.Cut?
    case TakeEvent => !s.core.mustSend && s.events != []
    case TimeOut => s.core.waiting && !s.core.mustSend
    case TakeCtl(clear, held) =>
      && s.ctl != []
      && (match s.phase
          case Idle => true
          case Connecting => true
          case Backoff => true
          case Publishing(c, hand) =>
            && !hand.Received?
            && (clear ==> hand.AtSelect? && c.left == c.accepted)
            && c.accepted <= c.acked + held
          case _ => false)
    case DropMedia => (s.phase.Idle? || s.phase.Backoff?) && s.media != []
    case ConnectOk => s.phase.Connecting?
    case ConnectFails => s.phase.Connecting?
    case BackoffOver => s.phase.Backoff?
    case OtherBytes(_) => s.phase.Publishing? && s.phase.hand.AtSelect?
    case Receive(n) => s.phase.Publishing? && s.phase.hand.AtSelect? && 0 < n <= 64 && n <= |s.media|
    case Load(outLen, wireLen) => s.phase.Publishing? && s.phase.hand.Received? && outLen <= wireLen
    case Accept(n) =>
      s.phase.Publishing? && s.phase.hand.Writing?
      && s.phase.conn.accepted + n <= s.phase.hand.base + s.phase.hand.wireLen
    case WriteDone =>
      s.phase.Publishing? && s.phase.hand.Writing?
      && s.phase.conn.accepted == s.phase.hand.base + s.phase.hand.wireLen
    case Fails => s.phase.Publishing? && !s.phase.hand.Received?
    case CloseReset => s.phase.Resetting?
    case Report => s.phase.Closing?
    case Leave(n) => Live(s.phase) && s.phase.conn.left + n <= s.phase.conn.accepted
    case Ack(n) => Live(s.phase) && s.phase.conn.acked + n <= s.phase.conn.left
  }

  function HandBytes(p: Phase): nat {
    if !p.Publishing? then 0
    else match p.hand
      case AtSelect => 0
      case Received(batch) => Bytes(batch)
      case Writing(_, _, _, _, _, bytes) => bytes
  }

  function Answered(s: Sys, cut: nat, a: Answer): Sys {
    s.(events := s.events + [CutDone(cut, a.reset, a.delivered)], answers := s.answers[cut := a])
  }

  /** The egress has stopped: what is queued for the connection that ended is dropped. */
  function Drained(s: Sys): Sys { s.(media := [], backlog := s.backlog - Bytes(s.media)) }

  function FreshConn(generation: nat): Conn { Conn(generation, EMPTY, None, [], 0, 0, 0, [], []) }

  /** An answer ends the dump under way if it is for the latest one. */
  function AnswerTaken(core: Core, n: nat): Core {
    if n == core.cut && core.waiting then core.(waiting := false, done := n) else core
  }

  /** The core takes what the egress reports. */
  function EventTaken(s: Sys): Sys
    requires s.events != []
  {
    var s' := s.(events := s.events[1..]);
    match s.events[0]
    case Connected =>
      var g := s.core.generation + 1;
      var phase := if s.phase.Awaiting? then Publishing(FreshConn(g), AtSelect) else s.phase;
      s'.(core := s.core.(generation := g), phase := phase)
    case CutDone(n, _, _) => s'.(core := AnswerTaken(s.core, n))
    case Disconnected(_) => s'
  }

  /** The egress takes a control message; a write under way is cut short. */
  function CtlTaken(s: Sys, clear: bool, held: nat): Sys
    requires Enabled(s, TakeCtl(clear, held))
  {
    var c := s.ctl[0];
    var s' := s.(ctl := s.ctl[1..], backlog := s.backlog - if s.phase.Publishing? then HandBytes(s.phase) else 0,
                 taken := if c.Cut? then c.n else s.taken);
    match s.phase
    case Publishing(conn, hand) =>
      (match c
       case Cut(n) =>
         if clear then Answered(s', n, Answer(false, conn.lastWritten, Some(conn)))
         else s'.(phase := Resetting(conn, n, SureOf(conn.log, held), Before(s.phase)))
       case Start =>
         s'.(phase := Closing(conn.lastWritten, ToConnecting), ended := s.ended + [Ended(conn, Before(s.phase))])
       case _ =>
         s'.(phase := Closing(conn.lastWritten, ToIdle), ended := s.ended + [Ended(conn, Before(s.phase))]))
    case _ =>
      match c
      case Cut(n) => Answered(s', n, Answer(false, None, None))
      case Start => s'.(phase := Connecting)
      case _ => if s.phase.Idle? then s' else Drained(s').(phase := Idle)
  }

  /** The batch received, with what a dump or another connection made stale left out. */
  function Loaded(s: Sys, outLen: nat, wireLen: nat): Sys
    requires Enabled(s, Load(outLen, wireLen))
  {
    var c, batch := s.phase.conn, s.phase.hand.batch;
    var placed := Place(Of(batch, c.generation, s.counter), c.accepted, c.accepted + wireLen);
    s.(phase := Publishing(c.(placed := c.placed + placed),
         Writing(c.accepted, |c.placed|, outLen, wireLen, LastSeq(placed), Bytes(batch))))
  }

  function Written(c: Conn, h: Hand): Conn
    requires h.Writing?
  {
    c.(log := Logged(c.log, h.outLen, h.last),
       lastWritten := if h.last.Some? then h.last else c.lastWritten,
       all := Added(c.all, h.last, c.log.total + h.outLen),
       marks := if h.last.Some? then c.marks + [Mark(c.accepted, |c.placed|)] else c.marks)
  }

  function WithConn(p: Phase, c: Conn): Phase
    requires Live(p)
  {
    match p
    case Publishing(_, hand) => Publishing(c, hand)
    case Resetting(_, cut, delivered, whole) => Resetting(c, cut, delivered, whole)
  }

  function Next(s: Sys, step: Step): Sys
    requires Enabled(s, step)
  {
    match step
    case Queue(bytes, seqNo) =>
      var x := Item(s.core.generation, s.core.cut, seqNo, bytes);
      s.(media := s.media + [x], queued := s.queued + [x], backlog := s.backlog + bytes)
    case BeginDump =>
      s.(core := s.core.(cut := s.core.cut + 1, waiting := true, mustSend := true), counter := s.core.cut + 1)
    case SendCut => s.(core := s.core.(mustSend := false), ctl := s.ctl + [Cut(s.core.cut)])
    case SendCtl(c) => s.(ctl := s.ctl + [c])
    case TakeEvent => EventTaken(s)
    case TimeOut => s.(core := s.core.(waiting := false))
    case TakeCtl(clear, held) => CtlTaken(s, clear, held)
    case DropMedia => s.(media := s.media[1..], backlog := s.backlog - s.media[0].bytes)
    case ConnectOk => s.(events := s.events + [Connected], phase := Awaiting)
    case ConnectFails => s.(phase := Backoff)
    case BackoffOver => s.(phase := Connecting)
    case OtherBytes(n) => s.(phase := WithConn(s.phase, s.phase.conn.(accepted := s.phase.conn.accepted + n)))
    case Receive(n) => s.(media := s.media[n..], phase := Publishing(s.phase.conn, Received(s.media[..n])))
    case Load(outLen, wireLen) => Loaded(s, outLen, wireLen)
    case Accept(n) => s.(phase := WithConn(s.phase, s.phase.conn.(accepted := s.phase.conn.accepted + n)))
    case WriteDone =>
      s.(phase := Publishing(Written(s.phase.conn, s.phase.hand), AtSelect), backlog := s.backlog - s.phase.hand.bytes)
    case Fails =>
      s.(phase := Closing(s.phase.conn.lastWritten, ToBackoff), backlog := s.backlog - HandBytes(s.phase),
         ended := s.ended + [Ended(s.phase.conn, Before(s.phase))])
    case CloseReset =>
      Answered(s, s.phase.cut, Answer(true, s.phase.delivered, Some(s.phase.conn)))
        .(phase := Closing(s.phase.conn.lastWritten, ToConnecting),
          ended := s.ended + [Ended(s.phase.conn, s.phase.whole)])
    case Report =>
      var s' := s.(events := s.events + [Disconnected(s.phase.lastWritten)]);
      (match s.phase.next
       case ToIdle => Drained(s').(phase := Idle)
       case ToConnecting => s'.(phase := Connecting)
       case ToBackoff => s'.(phase := Backoff))
    case Leave(n) => s.(phase := WithConn(s.phase, s.phase.conn.(left := s.phase.conn.left + n)))
    case Ack(n) => s.(phase := WithConn(s.phase, s.phase.conn.(acked := s.phase.conn.acked + n)))
  }

  // ----- what every step keeps --------------------------------------------------------

  predicate Bounded(items: seq<Item>, generation: nat, cut: nat) {
    forall i :: 0 <= i < |items| ==> items[i].generation <= generation && items[i].cut <= cut
  }

  predicate PlacedBounded(placed: seq<Placed>, generation: nat, cut: nat) {
    forall i :: 0 <= i < |placed| ==> placed[i].item.generation <= generation && placed[i].item.cut <= cut
  }

  /** Dumps are numbered in order, and each is answered at most once. */
  ghost predicate CutsOk(s: Sys) {
    && s.core.cut == s.counter
    && s.core.done <= s.taken <= s.counter
    && (s.core.mustSend ==> s.core.waiting && s.taken < s.counter)
    && (forall i :: 0 <= i < |s.ctl| && s.ctl[i].Cut? ==> CutAhead(s, s.ctl[i].n))
    && (forall i, j :: 0 <= i < j < |s.ctl| && s.ctl[i].Cut? && s.ctl[j].Cut? ==> s.ctl[i].n < s.ctl[j].n)
    && (forall n :: n in s.answers ==> 1 <= n <= s.taken)
    && (s.core.done == 0 || s.core.done in s.answers)
    && (s.phase.Resetting? ==> s.phase.cut == s.taken && 1 <= s.taken && s.taken !in s.answers)
  }

  predicate CutAhead(s: Sys, n: nat) {
    s.taken < n <= s.counter && (s.core.mustSend ==> n < s.counter)
  }

  /** Every answer under way is one that was given, and later than those taken. */
  ghost predicate EventsOk(s: Sys) {
    && (forall i :: 0 <= i < |s.events| && s.events[i].CutDone? ==> AnswerGiven(s, s.events[i]))
    && (forall i, j :: 0 <= i < j < |s.events| && s.events[i].CutDone? && s.events[j].CutDone? ==>
          s.events[i].cut < s.events[j].cut)
    && (forall i :: 0 <= i < |s.events| && s.events[i].Connected? ==> i == |s.events| - 1 && s.phase.Awaiting?)
    && (s.phase.Awaiting? ==> s.events != [] && s.events[|s.events| - 1].Connected?)
  }

  predicate AnswerGiven(s: Sys, e: Event)
    requires e.CutDone?
  {
    && e.cut in s.answers
    && s.answers[e.cut].reset == e.reset
    && s.answers[e.cut].delivered == e.delivered
    && s.core.done < e.cut
  }

  /** What an answer says is so. Without a reset, all that was written has left this computer
      and `delivered` is the last of it; with one, all up to `delivered` has been acknowledged.
      Without a connection nothing is claimed. */
  ghost predicate AnswerTrue(a: Answer) {
    match a.conn
    case None => !a.reset && a.delivered == None
    case Some(c) =>
      if !a.reset then a.delivered == LastSeq(c.placed) && HasLeft(c.placed, c.left)
      else a.delivered.Some? ==> Acknowledged(c, a.delivered)
  }

  predicate HasLeft(placed: seq<Placed>, left: nat) {
    forall i :: 0 <= i < |placed| ==> placed[i].end <= left
  }

  ghost predicate Acknowledged(c: Conn, delivered: Option<nat>) {
    exists n: nat :: n <= |c.placed| && LastSeq(c.placed[..n]) == delivered && HasLeft(c.placed[..n], c.acked)
  }

  /** What the reports under way say, in order. */
  function Told(events: seq<Event>): seq<Option<nat>> {
    if events == [] then []
    else (if events[0].Disconnected? then [events[0].lastWritten] else []) + Told(events[1..])
  }

  /** What is to be reported of a connection that ended: the last number in its batches written to
      their end. */
  function Due(e: Ended): Option<nat> {
    LastSeq(if e.whole <= |e.conn.placed| then e.conn.placed[..e.whole] else e.conn.placed)
  }

  /** The connections that ended, but for the one not reported yet. */
  function Reported(s: Sys): seq<Ended> {
    if s.phase.Closing? && s.ended != [] then s.ended[..|s.ended| - 1] else s.ended
  }

  /** Every connection that ended is reported once, in order, and as it ended. */
  ghost predicate ReportsOk(s: Sys) {
    && (s.phase.Resetting? ==>
          s.phase.whole <= |s.phase.conn.placed| && s.phase.conn.lastWritten == Due(Ended(s.phase.conn, s.phase.whole)))
    && (forall k :: 0 <= k < |s.ended| ==> s.ended[k].whole <= |s.ended[k].conn.placed|)
    && (s.phase.Closing? ==> s.ended != [] && s.phase.lastWritten == Due(s.ended[|s.ended| - 1]))
    && EndsWith(Reported(s), Told(s.events))
  }

  /** The last connections of `ended` are those `told` of. */
  predicate EndsWith(ended: seq<Ended>, told: seq<Option<nat>>) {
    && |told| <= |ended|
    && forall j :: 0 <= j < |told| ==> told[j] == Due(ended[|ended| - |told| + j])
  }

  /** How far the batches already logged reach on the wire. */
  function Base(p: Phase): nat
    requires Live(p)
  {
    if p.Publishing? && p.hand.Writing? then p.hand.base else p.conn.accepted
  }

  function Before(p: Phase): nat
    requires Live(p)
  {
    if p.Publishing? && p.hand.Writing? then p.hand.before else |p.conn.placed|
  }

  /** A connection's books: the log leaves nothing out that lies within reach, each batch ends
      where its mark says, and the bytes after it on the wire are at least those logged. */
  ghost predicate LogOk(c: Conn, base: nat, before: nat) {
    && Logs(c.log, c.all)
    && |c.marks| == |c.all|
    && before <= |c.placed|
    && c.lastWritten == LastSeq(c.placed[..before])
    && HasLeft(c.placed[..before], base)
    && forall i :: 0 <= i < |c.all| ==> MarkOk(c, base, before, i)
  }

  ghost predicate MarkOk(c: Conn, base: nat, before: nat, i: nat)
    requires i < |c.all| == |c.marks| && before <= |c.placed|
  {
    var m := c.marks[i];
    && m.count <= before
    && m.wireEnd <= base
    && c.log.total + m.wireEnd <= base + c.all[i].end
    && LastSeq(c.placed[..m.count]) == Some(c.all[i].seqNo)
    && HasLeft(c.placed[..m.count], m.wireEnd)
  }

  ghost predicate ConnOk(p: Phase) {
    p.Publishing? ==>
      && var c := p.conn;
      && c.acked <= c.left <= c.accepted
      && Base(p) <= c.accepted
      && LogOk(c, Base(p), Before(p))
      && (p.hand.Writing? ==>
            && p.hand.outLen <= p.hand.wireLen
            && c.accepted <= p.hand.base + p.hand.wireLen
            && LastSeq(c.placed[p.hand.before..]) == p.hand.last
            && InBatch(c.placed[p.hand.before..], p.hand.base, p.hand.base + p.hand.wireLen))
  }

  predicate InBatch(placed: seq<Placed>, from: nat, end: nat) {
    forall i :: 0 <= i < |placed| ==> placed[i].from == from && placed[i].end == end
  }

  /** Of a connection still open, nothing from before an answered dump is left to be sent. */
  ghost predicate PastOk(s: Sys) {
    Live(s.phase) ==>
      forall n, i :: n in s.answers && 0 <= i < |s.phase.conn.placed| && s.phase.conn.placed[i].item.cut < n ==>
        s.phase.conn.placed[i].end <= s.phase.conn.left
  }

  /** Nothing queued since the last dump for the connection in use is lost, repeated or out of
      order: it is written, in hand, or still queued. */
  ghost predicate FlowOk(s: Sys) {
    s.phase.Publishing? ==>
      var g, c := s.phase.conn.generation, s.counter;
      && g == s.core.generation
      && Of(s.queued, g, c) == Of(Items(s.phase.conn.placed), g, c) + InHand(s.phase.hand, g, c) + Of(s.media, g, c)
  }

  function Items(placed: seq<Placed>): (r: seq<Item>)
    ensures |r| == |placed|
  {
    seq(|placed|, i requires 0 <= i < |placed| => placed[i].item)
  }

  function InHand(h: Hand, generation: nat, cut: nat): seq<Item> {
    if h.Received? then Of(h.batch, generation, cut) else []
  }

  ghost predicate BoundsOk(s: Sys) {
    && Bounded(s.queued, s.core.generation, s.counter)
    && Bounded(s.media, s.core.generation, s.counter)
    && (s.phase.Publishing? && s.phase.hand.Received? ==> Bounded(s.phase.hand.batch, s.core.generation, s.counter))
    && (Live(s.phase) ==> PlacedBounded(s.phase.conn.placed, s.core.generation, s.counter))
  }

  ghost predicate AnswersOk(s: Sys) {
    && (forall n :: n in s.answers ==> AnswerTrue(s.answers[n]))
    && (s.phase.Resetting? ==> AnswerTrue(Answer(true, s.phase.delivered, Some(s.phase.conn))))
  }

  ghost predicate Inv(s: Sys) {
    && CutsOk(s)
    && EventsOk(s)
    && ConnOk(s.phase)
    && PastOk(s)
    && FlowOk(s)
    && BoundsOk(s)
    && AnswersOk(s)
    && BacklogOk(s)
    && ReportsOk(s)
  }

  // ----- the numbering of dumps -------------------------------------------------------

  lemma CutsSame(s: Sys, s': Sys)
    requires CutsOk(s)
    requires s'.core == s.core.(generation := s'.core.generation) && s'.counter == s.counter && s'.ctl == s.ctl
    requires s'.taken == s.taken && s'.answers == s.answers
    requires s'.phase.Resetting? ==> s.phase.Resetting? && s'.phase.cut == s.phase.cut
    ensures CutsOk(s')
  {
    forall i | 0 <= i < |s'.ctl| && s'.ctl[i].Cut? ensures CutAhead(s', s'.ctl[i].n) {
      assert CutAhead(s, s.ctl[i].n);
    }
  }

  lemma CutsByCore(s: Sys, step: Step)
    requires CutsOk(s) && Enabled(s, step)
    requires step.BeginDump? || step.SendCut? || step.SendCtl? || step.TimeOut?
    ensures CutsOk(Next(s, step))
  {
    var s' := Next(s, step);
    forall i | 0 <= i < |s'.ctl| && s'.ctl[i].Cut? ensures CutAhead(s', s'.ctl[i].n) {
      if i < |s.ctl| {
        assert CutAhead(s, s.ctl[i].n);
      }
    }
    if step.SendCut? {
      forall i | 0 <= i < |s.ctl| && s.ctl[i].Cut? ensures s.ctl[i].n < s.core.cut {
        assert CutAhead(s, s.ctl[i].n);
      }
    }
  }

  /** Taking an answer finishes a dump only if it is this dump's own. */
  lemma CutsAtEvent(s: Sys)
    requires CutsOk(s) && EventsOk(s) && Enabled(s, TakeEvent)
    ensures CutsOk(EventTaken(s))
  {
    var s' := EventTaken(s);
    if s.events[0].CutDone? {
      assert AnswerGiven(s, s.events[0]);
    }
    forall i | 0 <= i < |s'.ctl| && s'.ctl[i].Cut? ensures CutAhead(s', s'.ctl[i].n) {
      assert CutAhead(s, s.ctl[i].n);
    }
  }

  lemma CutsAtCtl(s: Sys, clear: bool, held: nat)
    requires CutsOk(s) && Enabled(s, TakeCtl(clear, held))
    ensures CutsOk(CtlTaken(s, clear, held))
    ensures s.ctl[0].Cut? ==> s.taken < s.ctl[0].n <= s.counter
  {
    hide Bytes;
    var s' := CtlTaken(s, clear, held);
    var c := s.ctl[0];
    if c.Cut? {
      assert CutAhead(s, c.n);
    }
    forall i | 0 <= i < |s'.ctl| && s'.ctl[i].Cut? ensures CutAhead(s', s'.ctl[i].n) {
      assert CutAhead(s, s.ctl[i + 1].n);
    }
  }

  lemma CutsAtClose(s: Sys)
    requires CutsOk(s) && s.phase.Resetting?
    ensures CutsOk(Next(s, CloseReset))
  {
    var s' := Next(s, CloseReset);
    forall i | 0 <= i < |s'.ctl| && s'.ctl[i].Cut? ensures CutAhead(s', s'.ctl[i].n) {
      assert CutAhead(s, s.ctl[i].n);
    }
  }

  lemma CutsKeep(s: Sys, step: Step)
    requires CutsOk(s) && EventsOk(s) && Enabled(s, step)
    ensures CutsOk(Next(s, step))
  {
    match step
    case BeginDump => CutsByCore(s, step);
    case SendCut => CutsByCore(s, step);
    case SendCtl(_) => CutsByCore(s, step);
    case TimeOut => CutsByCore(s, step);
    case TakeEvent => CutsAtEvent(s);
    case TakeCtl(clear, held) => CutsAtCtl(s, clear, held);
    case CloseReset => CutsAtClose(s);
    case _ => CutsLeftAlone(s, step);
  }

  /** Every other step leaves the numbering alone. */
  lemma CutsLeftAlone(s: Sys, step: Step)
    requires CutsOk(s) && Enabled(s, step) && !step.BeginDump? && !step.SendCut? && !step.SendCtl? && !step.TimeOut?
    requires !step.TakeEvent? && !step.TakeCtl? && !step.CloseReset?
    ensures CutsOk(Next(s, step))
  {
    hide CutsOk, Bytes, Logged, Added, LastSeq, Of, SureOf;
    CutsSame(s, Next(s, step));
  }

  // ----- the answers under way --------------------------------------------------------

  lemma EventsSame(s: Sys, s': Sys)
    requires EventsOk(s) && s'.answers == s.answers && s'.core.done == s.core.done
    requires s'.phase.Awaiting? == s.phase.Awaiting? && s'.events == s.events
    ensures EventsOk(s')
  {
    forall i | 0 <= i < |s'.events| && s'.events[i].CutDone? ensures AnswerGiven(s', s'.events[i]) {
      assert AnswerGiven(s, s.events[i]);
    }
  }

  lemma EventsMore(s: Sys, s': Sys, e: Event)
    requires EventsOk(s) && s'.answers == s.answers && s'.core.done == s.core.done && !s.phase.Awaiting?
    requires s'.events == s.events + [e] && !e.CutDone? && s'.phase.Awaiting? == e.Connected?
    ensures EventsOk(s')
  {
    forall i | 0 <= i < |s'.events| && s'.events[i].CutDone? ensures AnswerGiven(s', s'.events[i]) {
      assert AnswerGiven(s, s.events[i]);
    }
  }

  /** A new answer comes after all the others. */
  lemma EventsAnswered(s: Sys, n: nat, a: Answer, s': Sys)
    requires EventsOk(s) && CutsOk(s) && !s.phase.Awaiting?
    requires s.core.done < n && n !in s.answers && (forall k :: k in s.answers ==> k < n)
    requires s'.answers == s.answers[n := a] && s'.core.done == s.core.done && !s'.phase.Awaiting?
    requires s'.events == s.events + [CutDone(n, a.reset, a.delivered)]
    ensures EventsOk(s')
  {
    forall i | 0 <= i < |s'.events| && s'.events[i].CutDone? ensures AnswerGiven(s', s'.events[i]) {
      if i < |s.events| {
        assert AnswerGiven(s, s.events[i]);
      }
    }
    forall i | 0 <= i < |s.events| && s.events[i].CutDone? ensures s.events[i].cut < n {
      assert AnswerGiven(s, s.events[i]);
    }
  }

  lemma EventsAtEvent(s: Sys)
    requires EventsOk(s) && CutsOk(s) && Enabled(s, TakeEvent)
    ensures EventsOk(EventTaken(s))
  {
    var s' := EventTaken(s);
    forall i | 0 <= i < |s'.events| && s'.events[i].CutDone? ensures AnswerGiven(s', s'.events[i]) {
      assert AnswerGiven(s, s.events[i + 1]);
    }
  }

  lemma EventsKeep(s: Sys, step: Step)
    requires CutsOk(s) && EventsOk(s) && Enabled(s, step)
    ensures EventsOk(Next(s, step))
  {
    var s' := Next(s, step);
    match step
    case TakeEvent => EventsAtEvent(s);
    case ConnectOk => EventsMore(s, s', Connected);
    case Report => EventsMore(s, s', Disconnected(s.phase.lastWritten));
    case CloseReset => EventsAnswered(s, s.phase.cut, Answer(true, s.phase.delivered, Some(s.phase.conn)), s');
    case TakeCtl(clear, held) => EventsAtCtl(s, clear, held);
    case _ =>
      hide CutsOk, EventsOk, Bytes;
      EventsSame(s, s');
  }

  lemma EventsAtCtl(s: Sys, clear: bool, held: nat)
    requires CutsOk(s) && EventsOk(s) && Enabled(s, TakeCtl(clear, held))
    ensures EventsOk(CtlTaken(s, clear, held))
  {
    CutsAtCtl(s, clear, held);
    var s' := CtlTaken(s, clear, held);
    hide Bytes, SureOf;
    if s'.answers != s.answers || s'.events != s.events {
      var n := s.ctl[0].n;
      hide EventsOk;
      EventsAnswered(s, n, s'.answers[n], s');
    } else {
      hide EventsOk, CutsOk;
      EventsSame(s, s');
    }
  }

  lemma CounterIsCut(s: Sys)
    requires CutsOk(s)
    ensures s.counter == s.core.cut && s.taken <= s.counter && (s.core.mustSend ==> s.core.waiting)
    ensures forall n :: n in s.answers ==> n <= s.taken
  {
  }

  // ----- what items can be ------------------------------------------------------------

  lemma BoundsSame(s: Sys, s': Sys)
    requires BoundsOk(s) && s.core.generation <= s'.core.generation && s.counter <= s'.counter
    requires s'.queued == s.queued && s'.media <= s.media
    requires Live(s'.phase) ==> Live(s.phase) && s'.phase.conn.placed == s.phase.conn.placed
    requires s'.phase.Publishing? && s'.phase.hand.Received? ==> s.phase.Publishing? && s'.phase.hand == s.phase.hand
    ensures BoundsOk(s')
  {
  }

  lemma BoundsChanged(s: Sys, step: Step)
    requires CutsOk(s) && BoundsOk(s) && Enabled(s, step)
    requires step.Queue? || step.Receive? || step.DropMedia? || step.TakeEvent?
    ensures BoundsOk(Next(s, step))
  {
    CounterIsCut(s);
    hide CutsOk, Bytes;
  }

  lemma BoundsLoaded(s: Sys, outLen: nat, wireLen: nat)
    requires BoundsOk(s) && Enabled(s, Load(outLen, wireLen))
    ensures BoundsOk(Loaded(s, outLen, wireLen))
  {
    OfBounded(s.phase.hand.batch, s.phase.conn.generation, s.counter, s.core.generation, s.counter);
    hide Bytes, Of, LastSeq;
  }

  lemma BoundsKeep(s: Sys, step: Step)
    requires CutsOk(s) && BoundsOk(s) && Enabled(s, step)
    ensures BoundsOk(Next(s, step))
  {
    CounterIsCut(s);
    hide CutsOk, BoundsOk, Bytes, Logged, Added;
    match step
    case Load(outLen, wireLen) => BoundsLoaded(s, outLen, wireLen);
    case Queue(_, _) => BoundsChanged(s, step);
    case Receive(_) => BoundsChanged(s, step);
    case DropMedia => BoundsChanged(s, step);
    case TakeEvent => BoundsChanged(s, step);
    case _ => BoundsSame(s, Next(s, step));
  }

  lemma {:induction false} OfBounded(items: seq<Item>, generation: nat, cut: nat, g: nat, c: nat)
    requires Bounded(items, g, c)
    ensures Bounded(Of(items, generation, cut), g, c)
  {
    if items != [] {
      assert forall i :: 0 <= i < |items| - 1 ==> items[1..][i] == items[i + 1];
      OfBounded(items[1..], generation, cut, g, c);
    }
  }

  // ----- the connection's books -------------------------------------------------------

  /** The wire growing, or bytes leaving it, changes no book. */
  lemma LogGrows(c: Conn, base: nat, before: nat, c': Conn, base': nat)
    requires LogOk(c, base, before) && base <= base'
    requires c' == c.(accepted := c'.accepted, left := c'.left, acked := c'.acked, placed := c'.placed)
    requires before <= |c'.placed| && c'.placed[..before] == c.placed[..before]
    ensures LogOk(c', base', before)
  {
    hide Logs;
    forall i | 0 <= i < |c'.all| ensures MarkOk(c', base', before, i) {
      assert MarkOk(c, base, before, i);
      assert c'.placed[..c.marks[i].count] == c'.placed[..before][..c.marks[i].count];
      assert c.placed[..c.marks[i].count] == c.placed[..before][..c.marks[i].count];
    }
  }

  lemma {:induction false} LastSeqMore(a: seq<Placed>, b: seq<Placed>)
    ensures LastSeq(a + b) == if LastSeq(b).Some? then LastSeq(b) else LastSeq(a)
    decreases |b|
  {
    if b == [] {
      assert a + b == a;
    } else {
      assert (a + b)[..|a + b| - 1] == a + b[..|b| - 1];
      LastSeqMore(a, b[..|b| - 1]);
    }
  }

  /** A batch written to its end goes into the books. */
  lemma BatchLogged(c: Conn, h: Hand)
    requires ConnOk(Publishing(c, h)) && h.Writing? && c.accepted == h.base + h.wireLen
    ensures LogOk(Written(c, h), c.accepted, |c.placed|)
  {
    hide Logs, Logged;
    var c' := Written(c, h);
    LoggedKeeps(c.log, c.all, h.outLen, h.last);
    var old_, new_ := c.placed[..h.before], c.placed[h.before..];
    assert c.placed == old_ + new_ && c.placed[..|c.placed|] == c.placed;
    LastSeqMore(old_, new_);
    LoggedTotal(c.log, h.outLen, h.last);
    forall i | 0 <= i < |c'.all| ensures MarkOk(c', c.accepted, |c.placed|, i) {
      if i < |c.all| {
        assert MarkOk(c, h.base, h.before, i);
      }
    }
  }

  lemma LoggedTotal(log: Log, bytes: nat, last: Option<nat>)
    ensures Logged(log, bytes, last).total == log.total + bytes
  {
  }

  /** The same batch in hand or none, and at most bytes moving along the wire. */
  lemma ConnSame(p: Phase, p': Phase)
    requires ConnOk(p)
    requires p'.Publishing? ==>
      && p.Publishing?
      && (p'.hand == p.hand || !(p.hand.Writing? || p'.hand.Writing?))
      && p'.conn == p.conn.(accepted := p'.conn.accepted, left := p'.conn.left, acked := p'.conn.acked)
      && p.conn.accepted <= p'.conn.accepted
      && p'.conn.acked <= p'.conn.left <= p'.conn.accepted
      && (p.hand.Writing? ==> p'.conn.accepted <= p.hand.base + p.hand.wireLen)
    ensures ConnOk(p')
  {
    assert p.Publishing? ==> Before(p) <= |p.conn.placed|;
    hide LogOk;
    if p'.Publishing? {
      LogGrows(p.conn, Base(p), Before(p), p'.conn, Base(p'));
    }
  }

  lemma ConnAtEvent(s: Sys)
    requires ConnOk(s.phase) && Enabled(s, TakeEvent)
    ensures ConnOk(EventTaken(s).phase)
  {
    hide LogOk;
    FreshOk(s.core.generation + 1);
  }

  lemma ConnLoaded(s: Sys, outLen: nat, wireLen: nat)
    requires ConnOk(s.phase) && Enabled(s, Load(outLen, wireLen))
    ensures ConnOk(Loaded(s, outLen, wireLen).phase)
  {
    LoadedBatch(s, outLen, wireLen);
    var c, p' := s.phase.conn, Loaded(s, outLen, wireLen).phase;
    assert p'.conn.placed[..|c.placed|] == c.placed[..|c.placed|];
    hide LogOk, LastSeq, Bytes, Of;
    LogGrows(c, Base(s.phase), Before(s.phase), p'.conn, Base(p'));
  }

  lemma ConnWritten(s: Sys)
    requires ConnOk(s.phase) && Enabled(s, WriteDone)
    ensures ConnOk(Next(s, WriteDone).phase)
  {
    BatchLogged(s.phase.conn, s.phase.hand);
    hide LogOk, Logged, Added;
  }

  lemma ConnKeep(s: Sys, step: Step)
    requires ConnOk(s.phase) && Enabled(s, step)
    ensures ConnOk(Next(s, step).phase)
  {
    if s.phase.Publishing? {
      ConnInOrder(s.phase);
    }
    hide Bytes, ConnOk, SureOf, Logged, Added, LastSeq;
    match step
    case TakeEvent => ConnAtEvent(s);
    case Load(outLen, wireLen) => ConnLoaded(s, outLen, wireLen);
    case WriteDone => ConnWritten(s);
    case _ => ConnSame(s.phase, Next(s, step).phase);
  }

  lemma ConnInOrder(p: Phase)
    requires ConnOk(p) && p.Publishing?
    ensures p.conn.acked <= p.conn.left <= p.conn.accepted
    ensures p.hand.Writing? ==> p.conn.accepted <= p.hand.base + p.hand.wireLen
  {
  }

  lemma FreshOk(generation: nat)
    ensures LogOk(FreshConn(generation), 0, 0)
  {
  }

  lemma LoadedBatch(s: Sys, outLen: nat, wireLen: nat)
    requires Enabled(s, Load(outLen, wireLen))
    ensures var c, p := s.phase.conn, Loaded(s, outLen, wireLen).phase;
      var new_ := p.conn.placed[|c.placed|..];
      && LastSeq(new_) == p.hand.last
      && InBatch(new_, p.hand.base, p.hand.base + wireLen)
  {
    var c := s.phase.conn;
    var placed := Place(Of(s.phase.hand.batch, c.generation, s.counter), c.accepted, c.accepted + wireLen);
    assert (c.placed + placed)[|c.placed|..] == placed;
  }

  // ----- nothing from before a dump -------------------------------------------------

  lemma PastSame(s: Sys, s': Sys)
    requires PastOk(s) && (Live(s'.phase) ==> Live(s.phase))
    requires Live(s'.phase) ==>
      && s'.answers == s.answers
      && s'.phase.conn.placed == s.phase.conn.placed && s.phase.conn.left <= s'.phase.conn.left
    ensures PastOk(s')
  {
  }

  /** What is put on the wire was made after the latest dump, answered or not. */
  lemma PastLoaded(s: Sys, outLen: nat, wireLen: nat)
    requires CutsOk(s) && PastOk(s) && Enabled(s, Load(outLen, wireLen))
    ensures PastOk(Loaded(s, outLen, wireLen))
  {
    CounterIsCut(s);
    hide CutsOk, Bytes, LastSeq;
    OfIsOf(s.phase.hand.batch, s.phase.conn.generation, s.counter);
  }

  lemma {:induction false} OfIsOf(items: seq<Item>, generation: nat, cut: nat)
    ensures forall i :: 0 <= i < |Of(items, generation, cut)| ==>
      Of(items, generation, cut)[i].generation == generation && Of(items, generation, cut)[i].cut == cut
  {
    if items != [] {
      OfIsOf(items[1..], generation, cut);
    }
  }

  lemma PastAtCtl(s: Sys, clear: bool, held: nat)
    requires PastOk(s) && ConnOk(s.phase) && Enabled(s, TakeCtl(clear, held))
    ensures PastOk(CtlTaken(s, clear, held))
  {
    hide Bytes, SureOf;
    var s' := CtlTaken(s, clear, held);
    if clear && Live(s'.phase) {
      assert s.phase.conn.placed[..|s.phase.conn.placed|] == s.phase.conn.placed;
    } else {
      PastSame(s, s');
    }
  }

  lemma PastKeep(s: Sys, step: Step)
    requires CutsOk(s) && ConnOk(s.phase) && PastOk(s) && Enabled(s, step)
    ensures PastOk(Next(s, step))
  {
    hide CutsOk, ConnOk, PastOk, Bytes, Logged, Added;
    match step
    case Load(outLen, wireLen) => PastLoaded(s, outLen, wireLen);
    case TakeCtl(clear, held) => PastAtCtl(s, clear, held);
    case TakeEvent => PastAtEvent(s);
    case _ => PastSame(s, Next(s, step));
  }

  lemma PastAtEvent(s: Sys)
    requires PastOk(s) && Enabled(s, TakeEvent)
    ensures PastOk(EventTaken(s))
  {
  }

  // ----- the answers are true ---------------------------------------------------------

  lemma AnswersSame(s: Sys, s': Sys)
    requires AnswersOk(s) && s'.answers == s.answers
    requires s'.phase.Resetting? ==>
      && s.phase.Resetting? && s'.phase.delivered == s.phase.delivered
      && s'.phase.conn.placed == s.phase.conn.placed && s.phase.conn.acked <= s'.phase.conn.acked
    ensures AnswersOk(s')
  {
    if s'.phase.Resetting? && s.phase.delivered.Some? {
      var c, c' := s.phase.conn, s'.phase.conn;
      assert Acknowledged(c, s.phase.delivered);
      var n: nat :| n <= |c.placed| && LastSeq(c.placed[..n]) == s.phase.delivered && HasLeft(c.placed[..n], c.acked);
      assert HasLeft(c'.placed[..n], c'.acked);
    }
  }

  /** What the log calls surely sent has been acknowledged, however much of what was written
      is still held. */
  lemma SureIsAcknowledged(c: Conn, base: nat, before: nat, held: nat)
    requires LogOk(c, base, before) && base <= c.accepted <= c.acked + held
    ensures SureOf(c.log, held).Some? ==> Acknowledged(c, SureOf(c.log, held))
  {
    if SureOf(c.log, held).Some? {
      var i := SureOfIsExact(c.log, c.all, held);
      assert MarkOk(c, base, before, i);
      var n := c.marks[i].count;
      assert HasLeft(c.placed[..n], c.acked);
    }
  }

  lemma AnswersAtCtl(s: Sys, clear: bool, held: nat)
    requires AnswersOk(s) && ConnOk(s.phase) && Enabled(s, TakeCtl(clear, held))
    ensures AnswersOk(CtlTaken(s, clear, held))
  {
    hide Bytes, SureOf, AnswerTrue;
    var s' := CtlTaken(s, clear, held);
    if s.ctl[0].Cut? {
      if s.phase.Publishing? {
        CutAnswered(s, clear, held);
      } else {
        NothingClaimed();
      }
    }
  }

  lemma NothingClaimed()
    ensures AnswerTrue(Answer(false, None, None))
  {
  }

  lemma CutAnswered(s: Sys, clear: bool, held: nat)
    requires ConnOk(s.phase) && Enabled(s, TakeCtl(clear, held)) && s.phase.Publishing?
    ensures clear ==> AnswerTrue(Answer(false, s.phase.conn.lastWritten, Some(s.phase.conn)))
    ensures AnswerTrue(Answer(true, SureOf(s.phase.conn.log, held), Some(s.phase.conn)))
  {
    hide SureOf, Logs, MarkOk, Acknowledged;
    var c := s.phase.conn;
    SureIsAcknowledged(c, Base(s.phase), Before(s.phase), held);
    assert c.placed[..|c.placed|] == c.placed;
  }

  lemma AnswersKeep(s: Sys, step: Step)
    requires AnswersOk(s) && ConnOk(s.phase) && Enabled(s, step)
    ensures AnswersOk(Next(s, step))
  {
    hide ConnOk, AnswersOk, Bytes, Logged, Added, LastSeq;
    match step
    case TakeCtl(clear, held) => AnswersAtCtl(s, clear, held);
    case CloseReset => AnswersAtClose(s);
    case _ => AnswersSame(s, Next(s, step));
  }

  lemma AnswersAtClose(s: Sys)
    requires AnswersOk(s) && s.phase.Resetting?
    ensures AnswersOk(Next(s, CloseReset))
  {
    hide AnswerTrue;
  }

  // ----- nothing lost -----------------------------------------------------------------

  lemma {:induction false} OfMore(a: seq<Item>, b: seq<Item>, generation: nat, cut: nat)
    ensures Of(a + b, generation, cut) == Of(a, generation, cut) + Of(b, generation, cut)
  {
    if a == [] {
      assert a + b == b;
    } else {
      assert (a + b)[1..] == a[1..] + b;
      OfMore(a[1..], b, generation, cut);
    }
  }

  lemma {:induction false} OfNone(items: seq<Item>, generation: nat, cut: nat)
    requires forall i :: 0 <= i < |items| ==> items[i].generation != generation || items[i].cut != cut
    ensures Of(items, generation, cut) == []
  {
    if items != [] {
      assert forall i :: 0 <= i < |items| - 1 ==> items[1..][i] == items[i + 1];
      OfNone(items[1..], generation, cut);
    }
  }

  lemma {:induction false} OfAll(items: seq<Item>, generation: nat, cut: nat)
    requires forall i :: 0 <= i < |items| ==> items[i].generation == generation && items[i].cut == cut
    ensures Of(items, generation, cut) == items
  {
    if items != [] {
      assert forall i :: 0 <= i < |items| - 1 ==> items[1..][i] == items[i + 1];
      OfAll(items[1..], generation, cut);
      assert items == [items[0]] + items[1..];
    }
  }

  lemma FlowSame(s: Sys, s': Sys)
    requires FlowOk(s)
    requires s'.phase.Publishing? ==>
      && s.phase.Publishing?
      && (s'.phase.hand == s.phase.hand || !(s.phase.hand.Received? || s'.phase.hand.Received?))
      && s'.phase.conn.generation == s.phase.conn.generation && s'.phase.conn.placed == s.phase.conn.placed
      && s'.core.generation == s.core.generation && s'.counter == s.counter
      && s'.queued == s.queued && s'.media == s.media
    ensures FlowOk(s')
  {
  }

  lemma FlowQueued(s: Sys, bytes: nat, seqNo: Option<nat>)
    requires FlowOk(s) && Enabled(s, Queue(bytes, seqNo))
    ensures FlowOk(Next(s, Queue(bytes, seqNo)))
  {
    if s.phase.Publishing? {
      var x := Item(s.core.generation, s.core.cut, seqNo, bytes);
      var g, c := s.phase.conn.generation, s.counter;
      OfMore(s.queued, [x], g, c);
      OfMore(s.media, [x], g, c);
    }
  }

  /** A dump makes everything so far stale: nothing counts as queued since. */
  lemma FlowCut(s: Sys)
    requires FlowOk(s) && BoundsOk(s) && CutsOk(s) && !s.core.waiting
    ensures FlowOk(Next(s, BeginDump))
  {
    CounterIsCut(s);
    hide CutsOk;
    if s.phase.Publishing? {
      var g, c := s.phase.conn.generation, s.counter + 1;
      OfNone(s.queued, g, c);
      OfNone(s.media, g, c);
      OfNone(Items(s.phase.conn.placed), g, c);
      if s.phase.hand.Received? {
        OfNone(s.phase.hand.batch, g, c);
      }
    }
  }

  lemma FlowAtEvent(s: Sys)
    requires FlowOk(s) && BoundsOk(s) && EventsOk(s) && Enabled(s, TakeEvent)
    ensures FlowOk(EventTaken(s))
  {
    assert s.events[0].Connected? ==> s.phase.Awaiting?;
    hide Of, Items, EventsOk;
    if s.events[0].Connected? {
      NoneYet(s.queued, s.core.generation + 1, s.counter);
      NoneYet(s.media, s.core.generation + 1, s.counter);
      NoItems(s.core.generation + 1, s.counter);
    }
  }

  /** Nothing was queued for a connection there was not. */
  lemma NoneYet(items: seq<Item>, generation: nat, cut: nat)
    requires 0 < generation && Bounded(items, generation - 1, cut)
    ensures Of(items, generation, cut) == []
  {
    OfNone(items, generation, cut);
  }

  lemma NoItems(generation: nat, cut: nat)
    ensures Of(Items([]), generation, cut) == []
  {
  }

  lemma FlowReceived(s: Sys, n: nat)
    requires FlowOk(s) && Enabled(s, Receive(n))
    ensures FlowOk(Next(s, Receive(n)))
  {
    assert s.media == s.media[..n] + s.media[n..];
    OfMore(s.media[..n], s.media[n..], s.phase.conn.generation, s.counter);
  }

  lemma FlowLoaded(s: Sys, outLen: nat, wireLen: nat)
    requires FlowOk(s) && Enabled(s, Load(outLen, wireLen))
    ensures FlowOk(Loaded(s, outLen, wireLen))
  {
    var c, g := s.phase.conn, s.phase.conn.generation;
    var kept := Of(s.phase.hand.batch, g, s.counter);
    OfIsOf(s.phase.hand.batch, g, s.counter);
    OfAll(kept, g, s.counter);
    ItemsPlaced(c.placed, kept, c.accepted, c.accepted + wireLen);
    OfMore(Items(c.placed), kept, g, s.counter);
    hide Bytes, LastSeq, Of, Place, Items;
    FlowMoved(Of(Items(c.placed), g, s.counter), kept, Of(s.media, g, s.counter));
  }

  lemma FlowMoved(a: seq<Item>, b: seq<Item>, c: seq<Item>)
    ensures (a + b) + [] + c == a + b + c
  {
  }

  lemma ItemsPlaced(placed: seq<Placed>, kept: seq<Item>, from: nat, end: nat)
    ensures Items(placed + Place(kept, from, end)) == Items(placed) + kept
  {
  }

  lemma FlowKeep(s: Sys, step: Step)
    requires FlowOk(s) && BoundsOk(s) && CutsOk(s) && EventsOk(s) && Enabled(s, step)
    ensures FlowOk(Next(s, step))
  {
    CounterIsCut(s);
    hide FlowOk, BoundsOk, CutsOk, EventsOk, Bytes, Logged, Added;
    match step
    case Queue(bytes, seqNo) => FlowQueued(s, bytes, seqNo);
    case BeginDump => FlowCut(s);
    case TakeEvent => FlowAtEvent(s);
    case Receive(n) => FlowReceived(s, n);
    case Load(outLen, wireLen) => FlowLoaded(s, outLen, wireLen);
    case _ => FlowSame(s, Next(s, step));
  }

  // ----- the backlog ------------------------------------------------------------------

  lemma {:induction false} BytesMore(a: seq<Item>, b: seq<Item>)
    ensures Bytes(a + b) == Bytes(a) + Bytes(b)
  {
    if a == [] {
      assert a + b == b;
    } else {
      assert (a + b)[1..] == a[1..] + b;
      BytesMore(a[1..], b);
    }
  }

  ghost predicate BacklogOk(s: Sys) { s.backlog == Bytes(s.media) + HandBytes(s.phase) }

  lemma BacklogMoved(s: Sys, step: Step)
    requires BacklogOk(s) && Enabled(s, step) && (step.Queue? || step.Receive? || step.DropMedia?)
    ensures BacklogOk(Next(s, step))
  {
    match step
    case Queue(bytes, seqNo) =>
      var x := Item(s.core.generation, s.core.cut, seqNo, bytes);
      BytesMore(s.media, [x]);
      assert Bytes([x]) == bytes + Bytes([]);
    case Receive(n) =>
      assert s.media == s.media[..n] + s.media[n..];
      BytesMore(s.media[..n], s.media[n..]);
    case DropMedia =>
  }

  lemma BacklogAtCtl(s: Sys, clear: bool, held: nat)
    requires BacklogOk(s) && Enabled(s, TakeCtl(clear, held))
    ensures BacklogOk(CtlTaken(s, clear, held))
  {
    hide SureOf;
  }

  lemma BacklogKeep(s: Sys, step: Step)
    requires BacklogOk(s) && EventsOk(s) && Enabled(s, step)
    ensures BacklogOk(Next(s, step))
  {
    hide EventsOk, Logged, Added, LastSeq, SureOf, Of, Place;
    if step.Queue? || step.Receive? || step.DropMedia? {
      BacklogMoved(s, step);
    } else if step.TakeCtl? {
      BacklogAtCtl(s, step.clear, step.held);
    }
  }

  // ----- what is reported of a connection that ended ----------------------------------

  lemma {:induction false} ToldMore(events: seq<Event>, e: Event)
    ensures Told(events + [e]) == Told(events) + if e.Disconnected? then [e.lastWritten] else []
  {
    var more := events + [e];
    if events == [] {
      assert more == [e] && more[1..] == [];
    } else {
      var first := if events[0].Disconnected? then [events[0].lastWritten] else [];
      assert more[0] == events[0] && more[1..] == events[1..] + [e];
      ToldMore(events[1..], e);
      assert Told(events) == first + Told(events[1..]);
      assert Told(more) == first + Told(events[1..] + [e]);
    }
  }

  lemma ReportsSame(s: Sys, s': Sys)
    requires ReportsOk(s) && s'.events == s.events && s'.ended == s.ended
    requires s'.phase.Closing? == s.phase.Closing? && (s'.phase.Closing? ==> s'.phase == s.phase)
    requires s'.phase.Resetting? ==>
      && s.phase.Resetting? && s'.phase.whole == s.phase.whole
      && s'.phase.conn.placed == s.phase.conn.placed && s'.phase.conn.lastWritten == s.phase.conn.lastWritten
    ensures ReportsOk(s')
  {
  }

  /** Another event is under way. */
  lemma ReportsMore(s: Sys, s': Sys, e: Event)
    requires ReportsOk(s) && s'.events == s.events + [e] && !e.Disconnected? && s'.ended == s.ended
    requires !s.phase.Closing? && !s'.phase.Closing? && !s'.phase.Resetting?
    ensures ReportsOk(s')
  {
    ToldMore(s.events, e);
  }

  /** A connection ends, to be reported. */
  lemma ReportsEnded(s: Sys, s': Sys, e: Ended, next: After)
    requires ReportsOk(s) && Told(s'.events) == Told(s.events) && !s.phase.Closing?
    requires s'.ended == s.ended + [e] && s'.phase == Closing(Due(e), next) && e.whole <= |e.conn.placed|
    ensures ReportsOk(s')
  {
    assert Reported(s') == s.ended;
  }

  lemma ReportsAtEvent(s: Sys)
    requires ReportsOk(s) && Enabled(s, TakeEvent)
    ensures ReportsOk(EventTaken(s))
  {
    hide Due, Told, EndsWith;
    var s' := EventTaken(s);
    TakenOff(s.events);
    assert Reported(s') == Reported(s);
    if Told(s'.events) != Told(s.events) {
      ToldRest(Reported(s), Told(s.events));
    }
  }

  lemma TakenOff(events: seq<Event>)
    requires events != []
    ensures Told(events) == (if events[0].Disconnected? then [events[0].lastWritten] else []) + Told(events[1..])
    ensures Told(events[1..]) == Told(events) || (Told(events) != [] && Told(events[1..]) == Told(events)[1..])
  {
    if events[0].Disconnected? {
      assert Told(events)[1..] == Told(events[1..]);
    } else {
      assert [] + Told(events[1..]) == Told(events[1..]);
    }
  }

  lemma ToldRest(ended: seq<Ended>, told: seq<Option<nat>>)
    requires EndsWith(ended, told) && told != []
    ensures EndsWith(ended, told[1..])
  {
    hide Due;
  }

  lemma ToldNext(ended: seq<Ended>, told: seq<Option<nat>>, e: Ended)
    requires EndsWith(ended, told)
    ensures EndsWith(ended + [e], told + [Due(e)])
  {
    hide Due;
  }

  lemma WholeIsWritten(p: Phase)
    requires ConnOk(p) && p.Publishing?
    ensures Before(p) <= |p.conn.placed| && p.conn.lastWritten == Due(Ended(p.conn, Before(p)))
  {
    hide Logs, MarkOk;
  }

  lemma ReportsAtCtl(s: Sys, clear: bool, held: nat)
    requires ReportsOk(s) && ConnOk(s.phase) && Enabled(s, TakeCtl(clear, held))
    ensures ReportsOk(CtlTaken(s, clear, held))
  {
    var s' := CtlTaken(s, clear, held);
    hide Bytes, SureOf, ReportsOk, ConnOk, Due, LastSeq;
    if s.phase.Publishing? {
      WholeIsWritten(s.phase);
      if s'.phase.Closing? {
        ReportsEnded(s, s', s'.ended[|s.ended|], s'.phase.next);
      } else if s'.phase.Resetting? {
        ReportsAtReset(s, s');
      } else {
        ReportsMore(s, s', s'.events[|s.events|]);
      }
    } else if s'.events != s.events {
      ReportsMore(s, s', s'.events[|s.events|]);
    } else {
      ReportsSame(s, s');
    }
  }

  lemma ReportsAtReset(s: Sys, s': Sys)
    requires ReportsOk(s) && s'.events == s.events && s'.ended == s.ended && s.phase.Publishing? && s'.phase.Resetting?
    requires s'.phase.whole <= |s'.phase.conn.placed|
    requires s'.phase.conn.lastWritten == Due(Ended(s'.phase.conn, s'.phase.whole))
    ensures ReportsOk(s')
  {
  }

  lemma ReportsAtClose(s: Sys)
    requires ReportsOk(s) && s.phase.Resetting?
    ensures ReportsOk(Next(s, CloseReset))
  {
    var s', c := Next(s, CloseReset), s.phase.conn;
    ToldMore(s.events, CutDone(s.phase.cut, true, s.phase.delivered));
    ReportsEnded(s, s', Ended(c, s.phase.whole), ToConnecting);
  }

  lemma ReportsAtReport(s: Sys)
    requires ReportsOk(s) && s.phase.Closing?
    ensures ReportsOk(Next(s, Report))
  {
    hide Bytes, Due, Told, EndsWith;
    var last := |s.ended| - 1;
    ToldMore(s.events, Disconnected(s.phase.lastWritten));
    ToldNext(s.ended[..last], Told(s.events), s.ended[last]);
    assert s.ended[..last] + [s.ended[last]] == s.ended;
  }

  lemma ReportsKeep(s: Sys, step: Step)
    requires ReportsOk(s) && ConnOk(s.phase) && Enabled(s, step)
    ensures ReportsOk(Next(s, step))
  {
    var s' := Next(s, step);
    hide ReportsOk, ConnOk, Bytes, Logged, Added, LastSeq, Due, SureOf, Of;
    match step
    case TakeEvent => ReportsAtEvent(s);
    case TakeCtl(clear, held) => ReportsAtCtl(s, clear, held);
    case CloseReset => ReportsAtClose(s);
    case Report => ReportsAtReport(s);
    case ConnectOk => ReportsMore(s, s', Connected);
    case Fails =>
      WholeIsWritten(s.phase);
      ReportsEnded(s, s', s'.ended[|s.ended|], ToBackoff);
    case _ => ReportsSame(s, s');
  }

  // ----- every run --------------------------------------------------------------------

  lemma InvAtStart()
    ensures Inv(START)
  {
    hide ReportsOk;
    NothingToReport(START);
  }

  lemma NothingToReport(s: Sys)
    requires s.ended == [] && s.events == [] && s.phase.Idle?
    ensures ReportsOk(s)
  {
  }

  lemma InvKeep(s: Sys, step: Step)
    requires Inv(s) && Enabled(s, step)
    ensures Inv(Next(s, step))
  {
    hide CutsOk, EventsOk, ConnOk, PastOk, FlowOk, BoundsOk, AnswersOk, ReportsOk, Next, Enabled;
    ReportsKeep(s, step);
    CutsKeep(s, step);
    EventsKeep(s, step);
    ConnKeep(s, step);
    PastKeep(s, step);
    FlowKeep(s, step);
    BoundsKeep(s, step);
    AnswersKeep(s, step);
    BacklogKeep(s, step);
  }

  ghost predicate CanRun(s: Sys, steps: seq<Step>)
    decreases |steps|
  {
    steps == [] || (Enabled(s, steps[0]) && CanRun(Next(s, steps[0]), steps[1..]))
  }

  ghost function Run(s: Sys, steps: seq<Step>): Sys
    requires CanRun(s, steps)
    decreases |steps|
  {
    if steps == [] then s else Run(Next(s, steps[0]), steps[1..])
  }

  lemma {:induction false} InvInRun(s: Sys, steps: seq<Step>)
    requires Inv(s) && CanRun(s, steps)
    ensures Inv(Run(s, steps))
    decreases |steps|
  {
    if steps != [] {
      hide Inv, Next, Enabled;
      InvKeep(s, steps[0]);
      InvInRun(Next(s, steps[0]), steps[1..]);
    }
  }

  /** Some interleaving of the two tasks leads to `s`. */
  ghost predicate Reachable(s: Sys) {
    exists steps :: CanRun(START, steps) && Run(START, steps) == s
  }

  lemma ReachableKeeps(s: Sys)
    requires Reachable(s)
    ensures Inv(s)
  {
    hide CanRun, Run, Inv;
    var steps :| CanRun(START, steps) && Run(START, steps) == s;
    InvAtStart();
    InvInRun(START, steps);
  }

  // ----- the main results -------------------------------------------------------------

  /** Some of an item's bytes leave this computer at a step. */
  predicate Leaves(s: Sys, step: Step, p: Placed) {
    step.Leave? && Live(s.phase) && p in s.phase.conn.placed
    && p.from < s.phase.conn.left + step.n && s.phase.conn.left < p.end
  }

  /** The operating system accepts more of a write. */
  predicate IsWritten(s: Sys, step: Step, p: Placed) {
    step.Accept? && s.phase.Publishing? && p in s.phase.conn.placed && s.phase.conn.accepted < p.end
  }

  /** In every interleaving: once an answered dump has finished, no byte of media queued before
      it is written to any connection, nor leaves this computer on a connection that is open. */
  lemma DumpedMediaNeverAirs(s: Sys, step: Step, p: Placed)
    requires Reachable(s) && Enabled(s, step)
    requires IsWritten(s, step, p) || Leaves(s, step, p)
    ensures s.core.done <= p.item.cut
  {
    ReachableKeeps(s);
    hide Reachable;
    if Live(s.phase) && p in s.phase.conn.placed {
      var i :| 0 <= i < |s.phase.conn.placed| && s.phase.conn.placed[i] == p;
      hide FlowOk, BoundsOk, AnswersOk, EventsOk, BacklogOk;
      LeftBehind(s, i);
    }
  }

  lemma LeftBehind(s: Sys, i: nat)
    requires CutsOk(s) && PastOk(s) && ConnOk(s.phase) && Live(s.phase) && i < |s.phase.conn.placed|
    ensures s.phase.conn.placed[i].item.cut < s.core.done ==> s.phase.conn.placed[i].end <= s.phase.conn.left
    ensures s.phase.Publishing? ==> s.phase.conn.left <= s.phase.conn.accepted
  {
    hide LogOk;
  }

  /** A dump finishes with an answer only if that answer was given to this very dump; and what
      it says is so. An answer that comes after its dump has timed out finishes nothing. */
  lemma AnswersFinishTheirOwnDump(s: Sys)
    requires Reachable(s) && Enabled(s, TakeEvent)
    ensures var s' := Next(s, TakeEvent);
      && (s'.core.done != s.core.done ==>
            && var e := s.events[0];
            && e.CutDone? && e.cut == s.core.cut == s'.core.done && s.core.waiting
            && e.cut in s.answers && s.answers[e.cut].reset == e.reset && s.answers[e.cut].delivered == e.delivered
            && AnswerTrue(s.answers[e.cut]))
      && (s.events[0].CutDone? && s.events[0].cut != s.core.cut ==> s'.core == s.core)
  {
    ReachableKeeps(s);
    hide Reachable, FlowOk, BoundsOk, BacklogOk, PastOk, ConnOk, AnswerTrue;
    if s.events[0].CutDone? {
      assert AnswerGiven(s, s.events[0]);
    }
  }

  /** What was queued for the connection in use since the last dump has been written, is in hand
      or is still queued: all of it, once, in order. */
  lemma NothingIsLost(s: Sys)
    requires Reachable(s)
    ensures s.phase.Publishing? ==>
        && var g, c := s.core.generation, s.counter;
        && s.phase.conn.generation == g
        && Of(s.queued, g, c) == Of(Items(s.phase.conn.placed), g, c) + InHand(s.phase.hand, g, c) + Of(s.media, g, c)
  {
    ReachableKeeps(s);
    hide Reachable;
  }

  /** The backlog the core goes by is exactly what is queued or being written. */
  lemma BacklogIsExact(s: Sys)
    requires Reachable(s)
    ensures s.backlog == Bytes(s.media) + HandBytes(s.phase)
  {
    ReachableKeeps(s);
    hide Reachable;
  }

  /** Finished dumps are counted up; what held of media older than one holds from then on. */
  lemma {:induction false} DoneGrows(s: Sys, steps: seq<Step>)
    requires Inv(s) && CanRun(s, steps)
    ensures s.core.done <= Run(s, steps).core.done
    decreases |steps|
  {
    if steps != [] {
      var step := steps[0];
      if step.TakeEvent? && s.events[0].CutDone? {
        assert AnswerGiven(s, s.events[0]);
      }
      DoneAtStep(s, step);
      InvKeep(s, step);
      DoneGrows(Next(s, step), steps[1..]);
    }
  }

  lemma DoneAtStep(s: Sys, step: Step)
    requires CutsOk(s) && EventsOk(s) && Enabled(s, step)
    ensures s.core.done <= Next(s, step).core.done
  {
    if step.TakeEvent? && s.events[0].CutDone? {
      assert AnswerGiven(s, s.events[0]);
    }
    hide CutsOk, EventsOk, Bytes, Logged, Added, LastSeq, SureOf;
  }

  /** An answer without a reset covers everything: all that was written to the connection has
      left this computer, and the message reported delivered is the last one written. */
  lemma WithoutResetAllLeft(s: Sys, n: nat)
    requires Reachable(s) && n in s.answers && !s.answers[n].reset
    ensures var a := s.answers[n];
      match a.conn
      case None => a.delivered == None
      case Some(c) =>
        && (forall i :: 0 <= i < |c.placed| ==> c.placed[i].end <= c.left)
        && (a.delivered.None? ==> forall i :: 0 <= i < |c.placed| ==> c.placed[i].item.seqNo.None?)
        && (a.delivered.Some? ==> IsLastSeq(c.placed, a.delivered.value))
  {
    ReachableKeeps(s);
    hide Reachable, LastSeq, CutsOk, EventsOk, ConnOk, PastOk, FlowOk, BoundsOk, BacklogOk;
    assert AnswerTrue(s.answers[n]);
    if s.answers[n].conn.Some? {
      LastSeqIsLast(s.answers[n].conn.value.placed);
    }
  }

  /** An item has number `x`, and none after it has a number. */
  predicate IsLastSeq(placed: seq<Placed>, x: nat) {
    exists k :: 0 <= k < |placed| && placed[k].item.seqNo == Some(x)
      && forall i :: k < i < |placed| ==> placed[i].item.seqNo.None?
  }

  lemma {:induction false} LastSeqIsLast(placed: seq<Placed>)
    ensures LastSeq(placed).None? ==> forall i :: 0 <= i < |placed| ==> placed[i].item.seqNo.None?
    ensures LastSeq(placed).Some? ==> IsLastSeq(placed, LastSeq(placed).value)
    decreases |placed|
  {
    if placed != [] {
      var n := |placed| - 1;
      if placed[n].item.seqNo.None? {
        LastSeqIsLast(placed[..n]);
        if LastSeq(placed).Some? {
          var k :| 0 <= k < n && placed[..n][k].item.seqNo == LastSeq(placed)
                   && forall i :: k < i < n ==> placed[..n][i].item.seqNo.None?;
          assert forall i :: k < i < n ==> placed[i] == placed[..n][i];
          assert placed[k].item.seqNo == LastSeq(placed);
        }
      } else {
        assert placed[n].item.seqNo == LastSeq(placed);
      }
    }
  }

  // ----- where a broadcast goes on ----------------------------------------------------

  /** `x` is the number of the last message with one in the batches `e` wrote to their end; none
      only if there is no such message. */
  ghost predicate Tells(e: Ended, x: Option<nat>) {
    && e.whole <= |e.conn.placed|
    && (x.None? ==> forall i :: 0 <= i < e.whole ==> e.conn.placed[i].item.seqNo.None?)
    && (x.Some? ==> IsLastSeq(e.conn.placed[..e.whole], x.value))
  }

  /** Every report of a lost connection under way is about a connection that ended: the reports
      are in the order in which those did, and each says where it got to. */
  lemma ReportsAreTrue(s: Sys, i: nat)
    requires Reachable(s) && i < |s.events| && s.events[i].Disconnected?
    ensures var done, left := Reported(s), |Told(s.events[i..])|;
      0 < left <= |done| && Tells(done[|done| - left], s.events[i].lastWritten)
  {
    hide Reachable, LastSeq, Inv, ConnOk, Tells;
    ReachableReports(s);
    var done, told := Reported(s), Told(s.events);
    ToldSplit(s.events, i);
    var j := |told| - |Told(s.events[i..])|;
    assert told[j] == s.events[i].lastWritten;
    var e := done[|done| - |told| + j];
    assert EndsWith(done, told) && told[j] == Due(e);
    WholeInEnded(s, |done| - |told| + j);
    DueTells(e);
  }

  lemma ReachableReports(s: Sys)
    requires Reachable(s)
    ensures ReportsOk(s) && ConnOk(s.phase)
  {
    ReachableKeeps(s);
    hide Reachable, CutsOk, EventsOk, ConnOk, PastOk, FlowOk, BoundsOk, AnswersOk, BacklogOk, ReportsOk;
  }

  lemma ReportSends(s: Sys)
    requires s.phase.Closing?
    ensures Next(s, Report).events == s.events + [Disconnected(s.phase.lastWritten)]
  {
    hide Bytes;
  }

  lemma EndsRecorded(s: Sys, step: Step)
    requires Enabled(s, step) && Live(s.phase) && !Live(Next(s, step).phase)
    ensures var s' := Next(s, step);
      && s'.phase.Closing? && |s'.ended| == |s.ended| + 1 && s.ended <= s'.ended
      && var e := s'.ended[|s.ended|];
      && e.conn == s.phase.conn
      && (s.phase.Publishing? ==> e.whole == if s.phase.hand.Writing? then s.phase.hand.before else |e.conn.placed|)
  {
    hide Bytes, LastSeq, SureOf, Logged, Added, Of, Place;
  }

  lemma ClosingTells(s: Sys)
    requires ReportsOk(s) && s.phase.Closing?
    ensures s.ended != [] && Tells(s.ended[|s.ended| - 1], s.phase.lastWritten)
  {
    hide Tells, LastSeq, Told;
    DueTells(s.ended[|s.ended| - 1]);
  }

  lemma WholeInEnded(s: Sys, k: nat)
    requires ReportsOk(s) && k < |s.ended|
    ensures s.ended[k].whole <= |s.ended[k].conn.placed|
  {
  }

  lemma DueTells(e: Ended)
    requires e.whole <= |e.conn.placed|
    ensures Tells(e, Due(e))
  {
    LastSeqIsLast(e.conn.placed[..e.whole]);
    assert forall i :: 0 <= i < e.whole ==> e.conn.placed[..e.whole][i] == e.conn.placed[i];
  }

  lemma {:induction false} ToldSplit(events: seq<Event>, i: nat)
    requires i < |events| && events[i].Disconnected?
    ensures var told, rest := Told(events), Told(events[i..]);
      0 < |rest| <= |told| && told[|told| - |rest|] == events[i].lastWritten
  {
    if i == 0 {
      assert events[0..] == events;
    } else {
      assert events[1..][i - 1..] == events[i..];
      ToldSplit(events[1..], i - 1);
    }
  }

  /** However a connection ends, be it by failing, by a stop, an abort or a new start, in the middle
      of a write or not, or by a dump's reset, it is recorded, and what is reported next is where
      it got to. */
  lemma EndsAreReported(s: Sys, step: Step)
    requires Reachable(s) && Enabled(s, step) && Live(s.phase) && !Live(Next(s, step).phase)
    ensures var s' := Next(s, step);
      && s'.phase.Closing? && |s'.ended| == |s.ended| + 1 && s.ended <= s'.ended
      && var e := s'.ended[|s.ended|];
      && e.conn == s.phase.conn && Tells(e, s'.phase.lastWritten)
      && (s.phase.Publishing? ==> e.whole == if s.phase.hand.Writing? then s.phase.hand.before else |e.conn.placed|)
      && Next(s', Report).events == s'.events + [Disconnected(s'.phase.lastWritten)]
  {
    hide Reachable, LastSeq, Bytes, ConnOk, Inv, Tells, Due, EndsWith, SureOf, Logged, Added, Of, Place, Told;
    ReachableReports(s);
    ReportsKeep(s, step);
    EndsRecorded(s, step);
    hide Next, Enabled;
    ClosingTells(Next(s, step));
    ReportSends(Next(s, step));
  }

  // ----- what a reset does not promise -------------------------------------------------

  lemma {:induction false} RunMore(s: Sys, steps: seq<Step>, step: Step)
    requires CanRun(s, steps) && Enabled(Run(s, steps), step)
    ensures CanRun(s, steps + [step]) && Run(s, steps + [step]) == Next(Run(s, steps), step)
    decreases |steps|
  {
    hide Enabled, Next;
    var more := steps + [step];
    if steps == [] {
      assert more == [step] && more[1..] == [];
    } else {
      assert more[0] == steps[0] && more[1..] == steps[1..] + [step];
      RunMore(Next(s, steps[0]), steps[1..], step);
    }
  }

  lemma Reaches(s: Sys, step: Step)
    requires Reachable(s) && Enabled(s, step)
    ensures Reachable(Next(s, step))
  {
    hide Enabled, Next, CanRun, Run;
    var steps :| CanRun(START, steps) && Run(START, steps) == s;
    RunMore(START, steps, step);
  }

  lemma StartIsReachable()
    ensures Reachable(START)
  {
    assert CanRun(START, []) && Run(START, []) == START;
  }

  /** All of message `p` left this computer, on a connection whose reset answers dump `n`, and
      yet the answer does not count it as delivered. */
  predicate LeftUncounted(s: Sys, n: nat, p: Placed) {
    && n in s.answers && s.answers[n].reset && s.answers[n].conn.Some?
    && var c := s.answers[n].conn.value;
    && p in c.placed && p.from < p.end <= c.left && p.item.seqNo.Some?
    && (s.answers[n].delivered.Some? ==> s.answers[n].delivered.value < p.item.seqNo.value)
  }

  const ITEM := Item(1, 0, Some(0), 10)
  const PLACED := Placed(ITEM, 0, 12)

  /** A connection is up and a message queued for it, and then that is written. */
  const QUEUED := Sys(Core(0, false, false, 1, 0), 0, [], [ITEM], [], 10, Publishing(FreshConn(1), AtSelect), 0, map[],
                      [ITEM], [])
  const SENT := Conn(1, Log(10, [Batch(0, 10)]), Some(0), [PLACED], 12, 0, 0, [Batch(0, 10)], [Mark(12, 1)])
  const WRITTEN := QUEUED.(media := [], backlog := 0, phase := Publishing(SENT, AtSelect))

  /** What was emitted after the last message delivered may have aired all the same, when the
      answer comes with a reset: it left, but is not acknowledged yet. */
  lemma DeliveredIsNotAll()
    ensures exists s, n, p :: Reachable(s) && LeftUncounted(s, n, p)
  {
    hide Reachable, CanRun, Run;
    OneQueued();
    OneWritten();
    var c := SENT.(left := 12);
    var s1 := WRITTEN.(phase := Publishing(c, AtSelect));
    Leaving(s1);
    var s2 := s1.(core := Core(1, true, true, 1, 0), counter := 1);
    assert Next(s1, BeginDump) == s2;
    Reaches(s1, BeginDump);
    var s3 := s2.(core := Core(1, true, false, 1, 0), ctl := [Cut(1)]);
    assert Next(s2, SendCut) == s3;
    Reaches(s2, SendCut);
    var s4 := s3.(ctl := [], taken := 1, phase := Resetting(c, 1, None, 1));
    CutTaken(s3, s4);
    var answered := s4.(events := [CutDone(1, true, None)], answers := map[1 := Answer(true, None, Some(c))],
                        phase := Closing(Some(0), ToConnecting), ended := [Ended(c, 1)]);
    assert Next(s4, CloseReset) == answered;
    Reaches(s4, CloseReset);
    assert PLACED in c.placed;
    assert LeftUncounted(answered, 1, PLACED);
  }

  /** The message leaves this computer. */
  lemma Leaving(s: Sys)
    requires Reachable(WRITTEN) && s == WRITTEN.(phase := Publishing(SENT.(left := 12), AtSelect))
    ensures Reachable(s)
  {
    hide Reachable;
    assert Next(WRITTEN, Leave(12)) == s;
    Reaches(WRITTEN, Leave(12));
  }

  /** The dump's cut is taken while the message is not acknowledged. */
  lemma CutTaken(s: Sys, s': Sys)
    requires Reachable(s) && s.ctl == [Cut(1)] && s.phase == Publishing(SENT.(left := 12), AtSelect)
    requires s' == s.(ctl := [], taken := 1, phase := Resetting(SENT.(left := 12), 1, None, 1))
    ensures Reachable(s')
  {
    hide Reachable;
    assert [Cut(1)][1..] == [];
    assert CtlTaken(s, false, 12) == s';
    Reaches(s, TakeCtl(false, 12));
  }

  lemma OneQueued()
    ensures Reachable(QUEUED)
  {
    hide Reachable;
    StartIsReachable();
    var s1 := START.(ctl := [Start]);
    assert Next(START, SendCtl(Start)) == s1;
    Reaches(START, SendCtl(Start));
    var s2 := START.(phase := Connecting);
    assert Next(s1, TakeCtl(false, 0)) == s2;
    Reaches(s1, TakeCtl(false, 0));
    var s3 := START.(phase := Awaiting, events := [Connected]);
    assert Next(s2, ConnectOk) == s3;
    Reaches(s2, ConnectOk);
    var s4 := START.(core := Core(0, false, false, 1, 0), phase := Publishing(FreshConn(1), AtSelect));
    assert Next(s3, TakeEvent) == s4;
    Reaches(s3, TakeEvent);
    assert Next(s4, Queue(10, Some(0))) == QUEUED;
    Reaches(s4, Queue(10, Some(0)));
  }

  lemma OneWritten()
    requires Reachable(QUEUED)
    ensures Reachable(WRITTEN)
  {
    hide Reachable, Enabled, Next, LastSeq, Of;
    var c := FreshConn(1).(placed := [PLACED]);
    var s1 := QUEUED.(media := [], phase := Publishing(FreshConn(1), Received([ITEM])));
    OneReceived(s1);
    var s2 := s1.(phase := Publishing(c, Writing(0, 0, 10, 12, Some(0), 10)));
    OneLoaded(s1, s2);
    var s3 := s1.(phase := Publishing(c.(accepted := 12), Writing(0, 0, 10, 12, Some(0), 10)));
    OneAccepted(s2, s3);
    OneFinished(s3, WRITTEN);
  }

  lemma OneReceived(s: Sys)
    requires Reachable(QUEUED) && s == QUEUED.(media := [], phase := Publishing(FreshConn(1), Received([ITEM])))
    ensures Reachable(s)
  {
    hide Reachable;
    assert QUEUED.media[..1] == [ITEM] && QUEUED.media[1..] == [];
    assert Next(QUEUED, Receive(1)) == s;
    Reaches(QUEUED, Receive(1));
  }

  lemma OneAccepted(s: Sys, s': Sys)
    requires Reachable(s)
    requires
      var c := FreshConn(1).(placed := [PLACED]);
      && s.phase == Publishing(c, Writing(0, 0, 10, 12, Some(0), 10))
      && s' == s.(phase := Publishing(c.(accepted := 12), Writing(0, 0, 10, 12, Some(0), 10)))
    ensures Reachable(s')
  {
    hide Reachable;
    assert Next(s, Accept(12)) == s';
    Reaches(s, Accept(12));
  }

  lemma OneFinished(s: Sys, s': Sys)
    requires Reachable(s) && s.backlog == 10
    requires
      var c := FreshConn(1).(placed := [PLACED], accepted := 12);
      && s.phase == Publishing(c, Writing(0, 0, 10, 12, Some(0), 10))
      && s' == s.(phase := Publishing(SENT, AtSelect), backlog := 0)
    ensures Reachable(s')
  {
    hide Reachable;
    OneLogged(s.phase.conn);
    assert Next(s, WriteDone) == s';
    Reaches(s, WriteDone);
  }

  lemma OneLoaded(s: Sys, s': Sys)
    requires Reachable(s) && s.phase == Publishing(FreshConn(1), Received([ITEM])) && s.counter == 0
    requires s' == s.(phase := Publishing(FreshConn(1).(placed := [PLACED]), Writing(0, 0, 10, 12, Some(0), 10)))
    ensures Reachable(s')
  {
    hide Reachable;
    assert [ITEM][1..] == [];
    assert Of([ITEM], 1, 0) == [ITEM] && Bytes([ITEM]) == 10;
    assert Place([ITEM], 0, 12) == [PLACED];
    assert LastSeq([PLACED]) == Some(0);
    assert [] + [PLACED] == [PLACED];
    assert Loaded(s, 10, 12) == s';
    Reaches(s, Load(10, 12));
  }

  lemma OneLogged(c: Conn)
    requires c == FreshConn(1).(placed := [PLACED], accepted := 12)
    ensures Written(c, Writing(0, 0, 10, 12, Some(0), 10)) == SENT
  {
    assert Added([], Some(0), 10) == [Batch(0, 10)];
    assert Kept([Batch(0, 10)], 10) == [Batch(0, 10)];
  }
}
