/** What a peer may send: any mix of the four header formats, messages of several chunk
    streams interleaved chunk by chunk (section 5.3.1 of Adobe's RTMP 1.0 specification); and
    that the decoder gives back exactly the messages sent. */
module ChunkSending {
  import opened Bytes
  import opened Wrappers
  import opened ChunkFormat
  import opened ChunkDecoding

  // ----- the sender -------------------------------------------------------------------

  /** A chunk stream as its sender sees it: the last message begun on it, the timestamp its
      header carried, and how much of it was sent if it is still under way. */
  datatype Outgoing = Outgoing(last: Message, stamp: u32, sent: nat, active: bool)

  /** `repeats`: an extended timestamp is sent again with every chunk of its message. The
      length limits are those the receiver sets. */
  datatype Sender = Sender(
    chunkSize: nat,
    streams: map<nat, Outgoing>,
    repeats: bool,
    maxMediaLen: nat,
    maxOtherLen: nat)
  {
    function MaxLen(typeId: byte): nat {
      if typeId == AUDIO || typeId == VIDEO then maxMediaLen else maxOtherLen
    }
  }

  /** One chunk: the first of a message, with a header of format `fmt`, or the next of the
      message under way; `wide` picks the longer form of a basic header that has two. */
  datatype Op =
    | Begin(m: Message, fmt: nat, wide: bool)
    | Continue(csid: nat, wide: bool)

  function BasicOf(fmt: nat, csid: nat, wide: bool): seq<byte>
    requires fmt < 4
  {
    if wide && 64 <= csid <= LAST_CSID then PutWideBasic(fmt, csid) else PutBasic(fmt, csid)
  }

  /** The timestamp a header of format `fmt` carries: the message's own, or the difference. */
  function Stamp(s: Sender, m: Message, fmt: nat): u32 {
    if fmt == 0 || m.csid !in s.streams then m.timestamp
    else Sub32(m.timestamp, s.streams[m.csid].last.timestamp)
  }

  /** Timestamps from 0xFFFFFF on are sent in an extra field. */
  function StampField(stamp: u32): seq<byte> { if EXTENDED <= stamp then PutBe32(stamp) else [] }

  function MessageHeader(m: Message, fmt: nat, field: u24): (h: seq<byte>)
    requires fmt < 4 && |m.payload| < 0x100_0000
    ensures |h| == HeaderLen(fmt)
  {
    (if fmt <= 2 then Put24(field) else [])
    + (if fmt <= 1 then Put24(|m.payload|) + [m.typeId] else [])
    + (if fmt == 0 then PutLe32(m.streamId) else [])
  }

  function Min(a: nat, b: nat): nat { if a < b then a else b }

  /** The chunk's bytes up to its data. */
  function HeadBytes(s: Sender, op: Op): seq<byte>
    requires Allowed(s, op)
  {
    match op
    case Begin(m, fmt, wide) =>
      var stamp := Stamp(s, m, fmt);
      BasicOf(fmt, m.csid, wide) + (MessageHeader(m, fmt, Min(stamp, EXTENDED)) + StampField(stamp))
    case Continue(csid, wide) =>
      var o := s.streams[csid];
      BasicOf(3, csid, wide) + if s.repeats then StampField(o.stamp) else []
  }

  /** The chunk's data. */
  function DataBytes(s: Sender, op: Op): seq<byte>
    requires Allowed(s, op)
  {
    match op
    case Begin(m, _, _) => m.payload[..Min(|m.payload|, s.chunkSize)]
    case Continue(csid, _) =>
      var o := s.streams[csid];
      o.last.payload[o.sent..o.sent + Min(|o.last.payload| - o.sent, s.chunkSize)]
  }

  function OpBytes(s: Sender, op: Op): seq<byte>
    requires Allowed(s, op)
  {
    HeadBytes(s, op) + DataBytes(s, op)
  }

  /** The bytes each chunk stream's message under way has been sent of. */
  ghost function UnderWay(streams: map<nat, Outgoing>): map<nat, nat> {
    map k | k in streams :: streams[k].sent
  }

  /** What the specification and the receiver's limits allow: formats that leave a field out
      only when it repeats, format 3 for a new message only when none is under way and its
      time step repeats, and protocol messages that make sense. */
  ghost predicate Allowed(s: Sender, op: Op) {
    && WellFormed(s)
    && match op
       case Begin(m, fmt, _) =>
         && fmt < 4
         && FIRST_CSID <= m.csid <= LAST_CSID
         && |m.payload| < 0x100_0000
         && |m.payload| <= s.MaxLen(m.typeId)
         && (m.csid !in s.streams ==> fmt == 0 && |s.streams| < MAX_CHUNK_STREAMS)
         && (0 < fmt ==> Repeats(s.streams[m.csid], m, fmt))
         && (m.typeId == SET_CHUNK_SIZE ==> 4 <= |m.payload| && 1 <= SizeAsked(m.payload) <= MAX_CHUNK_SIZE)
         && Total(UnderWay(s.streams)[m.csid := Min(|m.payload|, s.chunkSize)]) <= MAX_PENDING_BYTES
       case Continue(csid, _) =>
         && csid in s.streams
         && s.streams[csid].active
         && var o := s.streams[csid];
            var sent := o.sent + Min(|o.last.payload| - o.sent, s.chunkSize);
            Total(UnderWay(s.streams)[csid := sent]) <= MAX_PENDING_BYTES
  }

  /** What a header of format `fmt` leaves out is as in the message before. */
  predicate Repeats(o: Outgoing, m: Message, fmt: nat) {
    && m.streamId == o.last.streamId
    && (2 <= fmt ==> |m.payload| == |o.last.payload| && m.typeId == o.last.typeId)
    && (fmt == 3 ==> !o.active && Sub32(m.timestamp, o.last.timestamp) == o.stamp)
  }

  ghost predicate WellFormed(s: Sender) {
    && 0 < s.chunkSize <= MAX_CHUNK_SIZE
    && forall k :: k in s.streams ==> FIRST_CSID <= k <= LAST_CSID && WellFormedStream(s.streams[k], k)
  }

  predicate WellFormedStream(o: Outgoing, csid: nat) {
    && o.last.csid == csid
    && |o.last.payload| < 0x100_0000
    && (o.active ==> o.sent < |o.last.payload|)
    && (!o.active ==> o.sent == 0)
    && (o.last.typeId == SET_CHUNK_SIZE ==>
          4 <= |o.last.payload| && 1 <= SizeAsked(o.last.payload) <= MAX_CHUNK_SIZE)
  }

  /** The message an op is about, and how its stream stands once the chunk is out (before
      anything the message itself changes). */
  function Sent(s: Sender, op: Op): (r: Outgoing)
    requires Allowed(s, op)
    ensures WellFormedStream(r, r.last.csid) && FIRST_CSID <= r.last.csid <= LAST_CSID
  {
    match op
    case Begin(m, fmt, _) =>
      var n := Min(|m.payload|, s.chunkSize);
      Outgoing(m, Stamp(s, m, fmt), if n < |m.payload| then n else 0, n < |m.payload|)
    case Continue(csid, _) =>
      var o := s.streams[csid];
      var n := o.sent + Min(|o.last.payload| - o.sent, s.chunkSize);
      o.(sent := if n < |o.last.payload| then n else 0, active := n < |o.last.payload|)
  }

  /** A complete protocol message changes how its sender goes on as well. */
  function Obeyed(s: Sender, m: Message): Sender {
    if m.typeId == SET_CHUNK_SIZE && 4 <= |m.payload| then s.(chunkSize := SizeAsked(m.payload))
    else if m.typeId == ABORT && 4 <= |m.payload| && Be32(m.payload[..4]) in s.streams then
      var csid: nat := Be32(m.payload[..4]);
      s.(streams := s.streams[csid := s.streams[csid].(sent := 0, active := false)])
    else s
  }

  function Next(s: Sender, op: Op): Sender
    requires Allowed(s, op)
  {
    var o := Sent(s, op);
    var s' := s.(streams := s.streams[o.last.csid := o]);
    if o.active then s' else Obeyed(s', o.last)
  }

  /** The message an op completes, if it does. */
  function Completed(s: Sender, op: Op): seq<Message>
    requires Allowed(s, op)
  {
    if Sent(s, op).active then [] else [Sent(s, op).last]
  }

  // ----- a run of chunks --------------------------------------------------------------

  ghost predicate AllAllowed(s: Sender, ops: seq<Op>)
    decreases |ops|
  {
    ops == [] || (Allowed(s, ops[0]) && AllAllowed(Next(s, ops[0]), ops[1..]))
  }

  function AllBytes(s: Sender, ops: seq<Op>): seq<byte>
    requires AllAllowed(s, ops)
    decreases |ops|
  {
    if ops == [] then [] else OpBytes(s, ops[0]) + AllBytes(Next(s, ops[0]), ops[1..])
  }

  /** The messages sent, in the order in which their last chunks were. */
  function Delivered(s: Sender, ops: seq<Op>): seq<Message>
    requires AllAllowed(s, ops)
    decreases |ops|
  {
    if ops == [] then [] else Completed(s, ops[0]) + Delivered(Next(s, ops[0]), ops[1..])
  }

  ghost function Final(s: Sender, ops: seq<Op>): Sender
    requires AllAllowed(s, ops)
    decreases |ops|
  {
    if ops == [] then s else Final(Next(s, ops[0]), ops[1..])
  }

  // ----- the receiver keeps in step ---------------------------------------------------

  predicate StreamMatches(o: Outgoing, st: Stream) {
    && st.timestamp == o.last.timestamp
    && st.delta == o.stamp
    && st.length == |o.last.payload|
    && st.typeId == o.last.typeId
    && st.streamId == o.last.streamId
    && st.extended == (EXTENDED <= o.stamp)
    && (st.extended ==> st.extValue == o.stamp)
    && o.sent <= |o.last.payload|
    && st.partial == o.last.payload[..o.sent]
    && st.inProgress == o.active
    && st.hasHeader
  }

  /** A peer that repeats extended timestamps has at most been seen to; one that does not has
      shown it. */
  ghost predicate Matches(s: Sender, d: State) {
    && Sound(d)
    && WellFormed(s)
    && d.chunkSize == s.chunkSize
    && d.maxMediaLen == s.maxMediaLen
    && d.maxOtherLen == s.maxOtherLen
    && d.streams.Keys == s.streams.Keys
    && (forall k :: k in s.streams ==> StreamMatches(s.streams[k], d.streams[k]))
    && (if s.repeats then d.repeatsExtended != Some(false) else d.repeatsExtended == Some(false))
  }

  /** A new connection's two ends are in step. */
  lemma FreshMatches(maxMediaLen: nat, maxOtherLen: nat)
    ensures Matches(Sender(DEFAULT_CHUNK_SIZE, map[], true, maxMediaLen, maxOtherLen),
                    State(DEFAULT_CHUNK_SIZE, map[], 0, maxMediaLen, maxOtherLen, None))
  {
    assert Unfinished(map[]) == map[];
  }

  lemma Middle(a: seq<byte>, m: seq<byte>, c: seq<byte>)
    ensures (a + (m + c))[|a|..|a| + |m|] == m
  {
  }

  lemma BasicOfRead(fmt: nat, csid: nat, wide: bool, tail: seq<byte>)
    requires fmt < 4 && FIRST_CSID <= csid <= LAST_CSID
    ensures ReadBasic(BasicOf(fmt, csid, wide) + tail) == Some(Basic(fmt, csid, |BasicOf(fmt, csid, wide)|))
  {
    BasicRoundTrip(fmt, csid, tail);
  }

  /** A message header is read back, field by field. */
  lemma HeaderRead(m: Message, fmt: nat, field: u24, st: Stream)
    requires fmt < 4 && |m.payload| < 0x100_0000
    ensures var h := MessageHeader(m, fmt, field);
      && (fmt <= 2 ==> U24(h[..3]) == field)
      && (fmt <= 1 ==> WithHeader(st, fmt, h).length == |m.payload| && WithHeader(st, fmt, h).typeId == m.typeId)
      && (fmt == 0 ==> WithHeader(st, fmt, h).streamId == m.streamId)
  {
    var h := MessageHeader(m, fmt, field);
    if fmt <= 2 {
      assert h[..3] == Put24(field);
    }
    if fmt <= 1 {
      assert h[3..6] == Put24(|m.payload|) && h[6] == m.typeId;
    }
    if fmt == 0 {
      assert h[7..11] == PutLe32(m.streamId);
    }
  }

  /** The first chunk of a message gives its stream the message's own fields, whatever the
      header left out. */
  lemma BeginRead(s: Sender, d: State, op: Op, tail: seq<byte>)
    requires op.Begin? && Allowed(s, op) && Matches(s, d)
    ensures var h := ReadHead(d, HeadBytes(s, op) + tail);
      && h.Head? && h.csid == op.m.csid && !h.continuation && h.learned == None
      && h.dataAt == |HeadBytes(s, op)|
      && StreamMatches(Outgoing(op.m, Stamp(s, op.m, op.fmt), 0, true), h.stream)
  {
    hide Sound, Total, MessageHeader, Put24, PutLe32, PutBe32, BasicOf, StreamMatches, ReadAfterBasic, WellFormedStream,
      Repeats;
    var m, fmt := op.m, op.fmt;
    var stamp := Stamp(s, m, fmt);
    var basic := BasicOf(fmt, m.csid, op.wide);
    var header := MessageHeader(m, fmt, Min(stamp, EXTENDED));
    var after := StampField(stamp) + tail;
    var b := HeadBytes(s, op) + tail;
    assert b == basic + (header + after);
    BasicOfRead(fmt, m.csid, op.wide, header + after);
    Middle(basic, header, after);
    var pos := |basic| + |header|;
    if EXTENDED <= stamp {
      assert b == (basic + header) + (PutBe32(stamp) + tail);
      Middle(basic + header, PutBe32(stamp), tail);
    }
    AfterBegin(s, d, op, b, pos);
  }

  lemma AfterBegin(s: Sender, d: State, op: Op, b: seq<byte>, pos: nat)
    requires op.Begin? && Allowed(s, op) && Matches(s, d) && pos <= |b|
    requires var stamp := Stamp(s, op.m, op.fmt);
      EXTENDED <= stamp ==> pos + 4 <= |b| && b[pos..pos + 4] == PutBe32(stamp)
    ensures var m, fmt, stamp := op.m, op.fmt, Stamp(s, op.m, op.fmt);
      var h := ReadAfterBasic(d, fmt, m.csid, MessageHeader(m, fmt, Min(stamp, EXTENDED)), b, pos);
      && h.Head? && h.csid == m.csid && !h.continuation && h.learned == None
      && h.dataAt == pos + |StampField(stamp)|
      && StreamMatches(Outgoing(m, stamp, 0, true), h.stream)
  {
    hide Sound, Total, U24, Le32, Be32, Put24, PutLe32, PutBe32;
    var m, fmt, stamp := op.m, op.fmt, Stamp(s, op.m, op.fmt);
    var st := d.Get(m.csid);
    HeaderRead(m, fmt, Min(stamp, EXTENDED), st);
    if m.csid in s.streams {
      var o := s.streams[m.csid];
      assert StreamMatches(o, st);
      AddSub32(m.timestamp, o.last.timestamp);
    } else {
      assert |d.streams| == |d.streams.Keys| == |s.streams.Keys| == |s.streams|;
    }
  }

  /** A later chunk is read as continuing its message, its data right after the header. */
  lemma ContinueRead(s: Sender, d: State, op: Op, tail: seq<byte>)
    requires op.Continue? && Allowed(s, op) && Matches(s, d)
    ensures var h := ReadHead(d, HeadBytes(s, op) + tail);
      && h.Head? && h.csid == op.csid && h.continuation
      && (h.learned.Some? ==> s.repeats && h.learned == Some(true))
      && h.dataAt == |HeadBytes(s, op)|
      && h.stream == d.streams[op.csid]
  {
    hide Sound, Total;
    var o := s.streams[op.csid];
    assert StreamMatches(o, d.streams[op.csid]);
    var basic := BasicOf(3, op.csid, op.wide);
    var stamp := if s.repeats then StampField(o.stamp) else [];
    var b := HeadBytes(s, op) + tail;
    assert b == basic + (stamp + tail);
    BasicOfRead(3, op.csid, op.wide, stamp + tail);
    assert b[|basic|..|basic|] == [];
    if s.repeats && EXTENDED <= o.stamp {
      assert b[|basic|..|basic| + 4] == PutBe32(o.stamp);
    }
  }

  /** One stream going on in step keeps sender and receiver in step. */
  lemma StillMatches(s: Sender, d: State, csid: nat, o: Outgoing, d': State)
    requires Matches(s, d) && Sound(d') && csid in d'.streams
    requires d' == d.(streams := d.streams[csid := d'.streams[csid]], pending := d'.pending,
      repeatsExtended := d'.repeatsExtended)
    requires d'.repeatsExtended == d.repeatsExtended || (s.repeats && d'.repeatsExtended == Some(true))
    requires FIRST_CSID <= csid <= LAST_CSID && WellFormedStream(o, csid) && StreamMatches(o, d'.streams[csid])
    ensures Matches(s.(streams := s.streams[csid := o]), d')
  {
    hide Sound, StreamMatches, WellFormedStream;
  }

  /** Once a chunk's data is in, the receiver has the message if the chunk was its last, and
      goes on in step with the sender. */
  lemma DataTaken(s: Sender, d: State, op: Op, h: Head, o: Outgoing, b: seq<byte>)
    requires Allowed(s, op) && Matches(s, d)
    requires h.Head? && h.csid == Sent(s, op).last.csid
    requires h.dataAt == |HeadBytes(s, op)| && OpBytes(s, op) <= b
    requires StreamMatches(o, h.stream) && o.active && o.last == Sent(s, op).last && o.stamp == Sent(s, op).stamp
    requires o.sent == if op.Begin? then 0 else s.streams[op.csid].sent
    requires h.continuation == op.Continue?
    requires h.learned.Some? ==> s.repeats && h.learned == Some(true)
    requires TakeData(d, h, b).Took? ==> Sound(TakeData(d, h, b).state)
    ensures var r := TakeData(d, h, b);
      && r.Took? && r.size == |OpBytes(s, op)|
      && r.message == (if Sent(s, op).active then None else Some(Sent(s, op).last))
      && Matches(s.(streams := s.streams[h.csid := Sent(s, op)]), r.state)
  {
    hide Total, Sound, HeadBytes, Discarded, WellFormedStream, SizeAsked, Repeats, UnderWay, Stamp;
    var n := |DataBytes(s, op)|;
    var o' := Sent(s, op);
    assert b[h.dataAt..h.dataAt + n] == DataBytes(s, op);
    assert DataLen(h, d.chunkSize) == n;
    RoomFor(s, d, op, h);
    var data := b[h.dataAt..h.dataAt + n];
    assert h.stream.partial + data == o.last.payload[..o.sent + n];
    assert !o'.active ==> h.stream.partial + data == o.last.payload;
    var d' := Commit(d, h, data).0;
    StillMatches(s, d, h.csid, o', d');
  }

  /** The sender's own count of what is under way is the receiver's. */
  lemma RoomFor(s: Sender, d: State, op: Op, h: Head)
    requires Allowed(s, op) && Matches(s, d)
    requires h.Head? && h.csid == Sent(s, op).last.csid && h.continuation == op.Continue?
    ensures d.pending - Discarded(d, h) + |DataBytes(s, op)| <= MAX_PENDING_BYTES
  {
    hide StreamMatches, SoundStream, Allowed, DataBytes, WellFormed, Total;
    SameUnderWay(s, d);
    RoomAsked(s, op);
    var csid := h.csid;
    var held := |d.Get(csid).partial|;
    TotalWith(Unfinished(d.streams), csid, (if op.Begin? then 0 else held) + |DataBytes(s, op)|);
    if op.Continue? {
      assert UnderWay(s.streams)[csid] == Unfinished(d.streams)[csid];
    }
  }

  /** What a chunk makes the receiver hold stays within the limit. */
  lemma RoomAsked(s: Sender, op: Op)
    requires Allowed(s, op)
    ensures var csid := Sent(s, op).last.csid;
      && (op.Continue? ==> csid in s.streams)
      && Total(UnderWay(s.streams)[csid := (if op.Continue? then s.streams[csid].sent else 0) + |DataBytes(s, op)|])
           <= MAX_PENDING_BYTES
  {
    hide Repeats, SizeAsked, Total, UnderWay;
  }

  lemma SameUnderWay(s: Sender, d: State)
    requires Matches(s, d)
    ensures UnderWay(s.streams) == Unfinished(d.streams)
  {
    hide Sound, Total;
    forall k | k in s.streams ensures UnderWay(s.streams)[k] == Unfinished(d.streams)[k] {
      assert StreamMatches(s.streams[k], d.streams[k]);
    }
  }

  /** A protocol message changes both ends alike. */
  lemma BothObey(s: Sender, d: State, m: Message)
    requires Matches(s, d)
    requires m.typeId == SET_CHUNK_SIZE ==> 4 <= |m.payload| && 1 <= SizeAsked(m.payload) <= MAX_CHUNK_SIZE
    ensures Controlled(d, m).Ok? && Matches(Obeyed(s, m), Controlled(d, m).value)
  {
    if m.typeId == SET_CHUNK_SIZE {
    } else if m.typeId == ABORT && 4 <= |m.payload| && Be32(m.payload[..4]) in s.streams {
      var csid: nat := Be32(m.payload[..4]);
      ControlledKeeps(d, m);
      var o := s.streams[csid];
      assert StreamMatches(o, d.streams[csid]);
      StillMatches(s, d, csid, o.(sent := 0, active := false), Controlled(d, m).value);
    }
  }

  /** One chunk of any form, with anything after it, is taken whole: it completes for the
      receiver exactly the message it completes for the sender. */
  lemma ChunkTaken(s: Sender, d: State, op: Op, tail: seq<byte>)
    requires Allowed(s, op) && Matches(s, d)
    ensures var r := NextChunk(d, OpBytes(s, op) + tail);
      && r.Took? && r.size == |OpBytes(s, op)|
      && r.message == (if Sent(s, op).active then None else Some(Sent(s, op).last))
      && Matches(s.(streams := s.streams[Sent(s, op).last.csid := Sent(s, op)]), r.state)
  {
    var b := OpBytes(s, op) + tail;
    assert b == HeadBytes(s, op) + (DataBytes(s, op) + tail);
    var h := HeadRead(s, d, op, DataBytes(s, op) + tail);
    hide Allowed, HeadBytes, DataBytes, Sound, TakeData, ReadHead, Sent, StreamMatches, Matches;
    if NextChunk(d, b).Took? {
      NextChunkKeeps(d, b);
    }
    DataTaken(s, d, op, ReadHead(d, b), h, b);
  }

  lemma HeadRead(s: Sender, d: State, op: Op, tail: seq<byte>) returns (o: Outgoing)
    requires Allowed(s, op) && Matches(s, d)
    ensures var h := ReadHead(d, HeadBytes(s, op) + tail);
      && h.Head? && h.csid == Sent(s, op).last.csid
      && h.dataAt == |HeadBytes(s, op)|
      && StreamMatches(o, h.stream) && o.active && o.last == Sent(s, op).last && o.stamp == Sent(s, op).stamp
      && o.sent == (if op.Begin? then 0 else s.streams[op.csid].sent)
      && h.continuation == op.Continue?
      && (h.learned.Some? ==> s.repeats && h.learned == Some(true))
  {
    hide ReadHead, HeadBytes, StreamMatches;
    match op
    case Begin(m, fmt, _) =>
      BeginRead(s, d, op, tail);
      o := Outgoing(m, Stamp(s, m, fmt), 0, true);
    case Continue(csid, _) =>
      ContinueRead(s, d, op, tail);
      o := s.streams[csid];
  }

  /** Whatever mix of header formats and chunk streams a peer sends within the limits, the
      decoder gives back exactly its messages, in the order in which they were completed, and
      leaves nothing over. */
  lemma {:induction false} RoundTrip(s: Sender, d: State, ops: seq<Op>)
    requires AllAllowed(s, ops) && Matches(s, d)
    ensures var r := Drain(d, AllBytes(s, ops));
      && r.error == None && r.rest == []
      && r.messages == Delivered(s, ops)
      && Matches(Final(s, ops), r.state)
    decreases |ops|
  {
    hide Allowed, Matches, OpBytes, NextChunk, Sent, Controlled, Obeyed;
    var b := AllBytes(s, ops);
    if ops == [] {
      EmptyDrain(d);
    } else {
      var op, rest := ops[0], AllBytes(Next(s, ops[0]), ops[1..]);
      ChunkTaken(s, d, op, rest);
      assert b == OpBytes(s, op) + rest;
      assert b[|OpBytes(s, op)|..] == rest;
      var r := NextChunk(d, b);
      if !Sent(s, op).active {
        SentIsSound(s, op);
        BothObey(s.(streams := s.streams[Sent(s, op).last.csid := Sent(s, op)]), r.state, Sent(s, op).last);
        RoundTrip(Next(s, op), Controlled(r.state, Sent(s, op).last).value, ops[1..]);
      } else {
        RoundTrip(Next(s, op), r.state, ops[1..]);
      }
    }
  }

  lemma SentIsSound(s: Sender, op: Op)
    requires Allowed(s, op)
    ensures var m := Sent(s, op).last;
      m.typeId == SET_CHUNK_SIZE ==> 4 <= |m.payload| && 1 <= SizeAsked(m.payload) <= MAX_CHUNK_SIZE
  {
  }

  /** The same, however the bytes arrive. */
  lemma RoundTripInPieces(s: Sender, d: State, ops: seq<Op>, pieces: seq<seq<byte>>)
    requires AllAllowed(s, ops) && Matches(s, d)
    ensures var r := DrainPieces(d, [], pieces);
      Concat(pieces) == AllBytes(s, ops) ==> r.error == None && r.rest == [] && r.messages == Delivered(s, ops)
  {
    RoundTrip(s, d, ops);
    SplitIndependent(d, [], pieces);
    assert [] + Concat(pieces) == Concat(pieces);
  }

  // ----- peers that do not repeat extended timestamps ---------------------------------

  lemma UnrepeatedHead(s: Sender, d: State, op: Op, data: seq<byte>)
    requires op.Continue? && op.csid in s.streams && EXTENDED <= s.streams[op.csid].stamp
    requires d.repeatsExtended == None && Matches(s, d.(repeatsExtended := Some(false))) && s.streams[op.csid].active
    ensures var basic, st := BasicOf(3, op.csid, op.wide), d.streams[op.csid];
      && ReadHead(d.(repeatsExtended := Some(false)), basic + data) == Head(op.csid, st, true, |basic|, None)
      && ReadHead(d, basic + data) ==
         if |data| < 4 then Short
         else if Be32(data[..4]) == s.streams[op.csid].stamp then Head(op.csid, st, true, |basic| + 4, Some(true))
         else Head(op.csid, st, true, |basic|, Some(false))
  {
    hide Sound, Total, Be32;
    var basic := BasicOf(3, op.csid, op.wide);
    var b := basic + data;
    assert StreamMatches(s.streams[op.csid], d.streams[op.csid]);
    BasicOfRead(3, op.csid, op.wide, data);
    assert b[|basic|..|basic|] == [];
    if 4 <= |data| {
      assert b[|basic|..|basic| + 4] == data[..4];
    }
  }

  lemma UnrepeatedBytes(s: Sender, op: Op, tail: seq<byte>)
    requires op.Continue? && Allowed(s, op) && !s.repeats
    ensures OpBytes(s, op) + tail == BasicOf(3, op.csid, op.wide) + (DataBytes(s, op) + tail)
  {
    hide DataBytes, BasicOf, Total;
    var basic := BasicOf(3, op.csid, op.wide);
    assert HeadBytes(s, op) == basic + [] == basic;
  }

  lemma LearnedIsKnown(d: State, h: Head, b: seq<byte>)
    requires h.Head? && d.repeatsExtended == None
    ensures h.learned == None ==>
      TakeData(d, h.(learned := Some(false)), b) == TakeData(d.(repeatsExtended := Some(false)), h, b)
    ensures TakeData(d, h, b).Took? ==> TakeData(d, h, b).size == h.dataAt + DataLen(h, d.chunkSize)
    ensures TakeData(d.(repeatsExtended := Some(false)), h, b).Took? ==>
      TakeData(d.(repeatsExtended := Some(false)), h, b).size == h.dataAt + DataLen(h, d.chunkSize)
  {
  }

  /** Such a peer's first continuation is read right exactly when four bytes are there to
      look at and they are not the timestamp itself; what it shows is then known. */
  lemma UnrepeatedTimestamp(s: Sender, d: State, op: Op, tail: seq<byte>)
    requires op.Continue? && Allowed(s, op) && !s.repeats && EXTENDED <= s.streams[op.csid].stamp
    requires d.repeatsExtended == None && Matches(s, d.(repeatsExtended := Some(false)))
    ensures var known, b := d.(repeatsExtended := Some(false)), OpBytes(s, op) + tail;
      var data := DataBytes(s, op) + tail;
      NextChunk(d, b) == NextChunk(known, b) <==> 4 <= |data| && Be32(data[..4]) != s.streams[op.csid].stamp
  {
    var known, basic, data := d.(repeatsExtended := Some(false)), BasicOf(3, op.csid, op.wide), DataBytes(s, op) + tail;
    UnrepeatedHead(s, d, op, data);
    UnrepeatedBytes(s, op, tail);
    hide ReadHead, Be32, DataBytes, BasicOf, Sound, StreamMatches, HeadBytes, OpBytes, Matches, Allowed, TakeData, Sent;
    ChunkTaken(s, known, op, tail);
    var h := ReadHead(known, basic + data);
    LearnedIsKnown(d, h, basic + data);
    LearnedIsKnown(d, h.(dataAt := h.dataAt + 4, learned := Some(true)), basic + data);
  }

  /** What the peer shows is not known yet; all else is in step. */
  ghost predicate Unshown(s: Sender, d: State) {
    !s.repeats && d.repeatsExtended == None && Matches(s, d.(repeatsExtended := Some(false)))
  }

  /** A chunk before which the receiver must decide: it continues a message with an extended
      timestamp. */
  predicate Decides(s: Sender, op: Op) {
    op.Continue? && op.csid in s.streams && EXTENDED <= s.streams[op.csid].stamp
  }

  /** At the first such chunk, if there is one, what follows its header is at least four bytes
      and they are not the timestamp. */
  ghost predicate ShownRight(s: Sender, ops: seq<Op>)
    requires AllAllowed(s, ops)
    decreases |ops|
  {
    ops == [] ||
    if Decides(s, ops[0]) then
      var data := DataBytes(s, ops[0]) + AllBytes(Next(s, ops[0]), ops[1..]);
      4 <= |data| && Be32(data[..4]) != s.streams[ops[0].csid].stamp
    else ShownRight(Next(s, ops[0]), ops[1..])
  }

  lemma OtherHeads(s: Sender, d: State, op: Op, tail: seq<byte>)
    requires Allowed(s, op) && Unshown(s, d) && !Decides(s, op)
    ensures var known, b := d.(repeatsExtended := Some(false)), HeadBytes(s, op) + tail;
      ReadHead(known, b).Head? && ReadHead(d, b) == ReadHead(known, b) && ReadHead(d, b).learned == None
  {
    hide Sound, WithHeader, WithTimestamp, HeadBytes, ReadHead, Total;
    var known := d.(repeatsExtended := Some(false));
    var o := HeadRead(s, known, op, tail);
    HeadAlike(d, known, HeadBytes(s, op) + tail);
  }

  /** Any other chunk is read the same, whether or not it is known what the peer shows. */
  lemma OthersAlike(s: Sender, d: State, op: Op, tail: seq<byte>)
    requires Allowed(s, op) && Unshown(s, d) && !Decides(s, op)
    ensures var known, b := d.(repeatsExtended := Some(false)), OpBytes(s, op) + tail;
      var r := NextChunk(known, b);
      r.Took? && NextChunk(d, b) == r.(state := r.state.(repeatsExtended := None))
  {
    hide Matches, Allowed, ReadHead, HeadBytes, DataBytes, StreamMatches, Sent, TakeData;
    var known := d.(repeatsExtended := Some(false));
    var b := OpBytes(s, op) + tail;
    assert b == HeadBytes(s, op) + (DataBytes(s, op) + tail);
    OtherHeads(s, d, op, DataBytes(s, op) + tail);
    ChunkTaken(s, known, op, tail);
    DataAlike(d, ReadHead(known, b), b);
  }

  lemma HeadAlike(d: State, known: State, b: seq<byte>)
    requires known == d.(repeatsExtended := Some(false)) && ReadHead(known, b).Head?
    requires ReadHead(known, b).continuation ==> !ReadHead(known, b).stream.extended
    ensures ReadHead(d, b) == ReadHead(known, b) && ReadHead(d, b).learned == None
  {
    hide WithHeader, WithTimestamp;
  }

  lemma DataAlike(d: State, h: Head, b: seq<byte>)
    requires d.repeatsExtended == None && h.Head? && h.learned == None
    ensures var r := TakeData(d.(repeatsExtended := Some(false)), h, b);
      r.Took? ==> TakeData(d, h, b) == r.(state := r.state.(repeatsExtended := None))
  {
  }

  /** Obeying a protocol message has nothing to do with what the peer shows. */
  lemma ControlledAlike(d: State, m: Message)
    ensures Controlled(d.(repeatsExtended := None), m) ==
      match Controlled(d, m)
      case Ok(d') => Ok(d'.(repeatsExtended := None))
      case Err(e) => Err(e)
    ensures Controlled(d, m).Ok? ==> Controlled(d, m).value.repeatsExtended == d.repeatsExtended
  {
  }

  lemma SameDrain(d: State, d': State, b: seq<byte>)
    requires NextChunk(d, b) == NextChunk(d', b) && NextChunk(d, b).Took?
    ensures Drain(d, b) == Drain(d', b)
  {
  }

  /** A peer that does not repeat extended timestamps, from before it has shown so: all its
      messages come back, if at the first chunk that shows it the data tell. */
  lemma {:induction false} UnrepeatedRoundTrip(s: Sender, d: State, ops: seq<Op>)
    requires AllAllowed(s, ops) && Unshown(s, d) && ShownRight(s, ops)
    ensures var r := Drain(d, AllBytes(s, ops));
      r.error == None && r.rest == [] && r.messages == Delivered(s, ops)
    decreases |ops|
  {
    hide Allowed, Matches, OpBytes, NextChunk, Sent, Controlled, Obeyed, DataBytes, Be32;
    var b, known := AllBytes(s, ops), d.(repeatsExtended := Some(false));
    if ops == [] {
      EmptyDrain(d);
    } else {
      var op, rest := ops[0], AllBytes(Next(s, ops[0]), ops[1..]);
      assert b == OpBytes(s, op) + rest;
      ChunkTaken(s, known, op, rest);
      if Decides(s, op) {
        UnrepeatedTimestamp(s, d, op, rest);
        SameDrain(d, known, b);
        RoundTrip(s, known, ops);
      } else {
        assert b[|OpBytes(s, op)|..] == rest;
        OthersAlike(s, d, op, rest);
        UnrepeatedStep(s, d, ops, NextChunk(known, b));
      }
    }
  }

  lemma {:induction false} UnrepeatedStep(s: Sender, d: State, ops: seq<Op>, r: Outcome)
    requires AllAllowed(s, ops) && Unshown(s, d) && ShownRight(s, ops) && ops != [] && !Decides(s, ops[0])
    requires var b, op := AllBytes(s, ops), ops[0];
      && r.Took? && r.size == |OpBytes(s, op)| <= |b|
      && NextChunk(d, b) == r.(state := r.state.(repeatsExtended := None))
      && b[r.size..] == AllBytes(Next(s, op), ops[1..])
      && r.message == (if Sent(s, op).active then None else Some(Sent(s, op).last))
      && Matches(s.(streams := s.streams[Sent(s, op).last.csid := Sent(s, op)]), r.state)
    ensures var all := Drain(d, AllBytes(s, ops));
      all.error == None && all.rest == [] && all.messages == Delivered(s, ops)
    decreases |ops|, 0
  {
    hide Allowed, OpBytes, NextChunk, Sent, Controlled, Obeyed, DataBytes, Be32, Sound, WellFormed, StreamMatches;
    var op := ops[0];
    var m, d' := Sent(s, op).last, r.state.(repeatsExtended := None);
    assert r.state == d'.(repeatsExtended := Some(false));
    if Sent(s, op).active {
      UnrepeatedRoundTrip(Next(s, op), d', ops[1..]);
    } else {
      SentIsSound(s, op);
      BothObey(s.(streams := s.streams[m.csid := Sent(s, op)]), r.state, m);
      ControlledAlike(r.state, m);
      var next := Controlled(r.state, m).value.(repeatsExtended := None);
      assert Controlled(r.state, m).value == next.(repeatsExtended := Some(false));
      ObeysAlike(s.(streams := s.streams[m.csid := Sent(s, op)]), m);
      UnrepeatedRoundTrip(Next(s, op), next, ops[1..]);
    }
  }

  lemma ObeysAlike(s: Sender, m: Message)
    ensures Obeyed(s, m).repeats == s.repeats
  {
  }

  /** A new connection to a peer that does not repeat extended timestamps, its two ends. */
  function Unrepeating(maxMediaLen: nat, maxOtherLen: nat): Sender {
    Sender(DEFAULT_CHUNK_SIZE, map[], false, maxMediaLen, maxOtherLen)
  }

  function Receiving(maxMediaLen: nat, maxOtherLen: nat): State {
    State(DEFAULT_CHUNK_SIZE, map[], 0, maxMediaLen, maxOtherLen, None)
  }

  lemma FreshUnshown(maxMediaLen: nat, maxOtherLen: nat)
    ensures Unshown(Unrepeating(maxMediaLen, maxOtherLen), Receiving(maxMediaLen, maxOtherLen))
  {
    assert Unfinished(map[]) == map[];
  }

  /** So it is from a new connection on. */
  lemma UnrepeatedFromStart(maxMediaLen: nat, maxOtherLen: nat, ops: seq<Op>)
    requires AllAllowed(Unrepeating(maxMediaLen, maxOtherLen), ops)
    requires ShownRight(Unrepeating(maxMediaLen, maxOtherLen), ops)
    ensures var s := Unrepeating(maxMediaLen, maxOtherLen);
      var r := Drain(Receiving(maxMediaLen, maxOtherLen), AllBytes(s, ops));
      r.error == None && r.rest == [] && r.messages == Delivered(s, ops)
  {
    FreshUnshown(maxMediaLen, maxOtherLen);
    UnrepeatedRoundTrip(Unrepeating(maxMediaLen, maxOtherLen), Receiving(maxMediaLen, maxOtherLen), ops);
  }

  const PADDING: seq<byte> := seq(DEFAULT_CHUNK_SIZE, _ => 0)

  /** A message of two chunks: the second one's data are its own timestamp. */
  const ALIKE := Message(4, EXTENDED, VIDEO, 1, PADDING + PutBe32(EXTENDED))

  /** That condition is needed: from such a peer, a message whose data begin with the timestamp
      where the second chunk does never comes. */
  lemma DataMayBeginAlike(max: nat)
    requires |ALIKE.payload| <= max
    ensures var s, ops := Unrepeating(max, max), [Begin(ALIKE, 0, false), Continue(4, false)];
      && AllAllowed(s, ops) && Delivered(s, ops) == [ALIKE]
      && Drain(Receiving(max, max), AllBytes(s, ops)).messages == []
  {
    hide OpBytes, NextChunk, Next, Completed, Drain, Sent, Matches, Allowed, PutBe32, Be32;
    var s, d, first, second := Unrepeating(max, max), Receiving(max, max), Begin(ALIKE, 0, false), Continue(4, false);
    var s1 := s.(streams := map[4 := Outgoing(ALIKE, EXTENDED, DEFAULT_CHUNK_SIZE, true)]);
    AlikeBegins(max, s1);
    AlikeGoesOn(max, s1);
    FreshUnshown(max, max);
    TwoOps(s, first, second);
    AlikeFirst(max, s1, d, OpBytes(s1, second));
  }

  lemma TwoOps(s: Sender, first: Op, second: Op)
    requires Allowed(s, first) && Allowed(Next(s, first), second)
    ensures var ops, s1 := [first, second], Next(s, first);
      && AllAllowed(s, ops)
      && AllBytes(s, ops) == OpBytes(s, first) + OpBytes(s1, second)
      && Delivered(s, ops) == Completed(s, first) + Completed(s1, second)
  {
    hide OpBytes, Next, Completed, Allowed;
    var ops, s1 := [first, second], Next(s, first);
    assert ops[1..] == [second] && ops[1..][1..] == [];
    assert AllAllowed(s1, [second]);
    assert AllBytes(s1, [second]) == OpBytes(s1, second) + [] == OpBytes(s1, second);
    assert Delivered(s1, [second]) == Completed(s1, second) + [] == Completed(s1, second);
  }

  /** After the first chunk the receiver still does not know what the peer shows. */
  lemma AlikeFirst(max: nat, s1: Sender, d: State, rest: seq<byte>)
    requires d == Receiving(max, max) && Unshown(Unrepeating(max, max), d)
    requires s1 == Unrepeating(max, max).(streams := map[4 := Outgoing(ALIKE, EXTENDED, DEFAULT_CHUNK_SIZE, true)])
    requires Allowed(Unrepeating(max, max), Begin(ALIKE, 0, false))
    requires Sent(Unrepeating(max, max), Begin(ALIKE, 0, false)) == s1.streams[4]
    requires Allowed(s1, Continue(4, false)) && rest == OpBytes(s1, Continue(4, false))
    ensures Drain(d, OpBytes(Unrepeating(max, max), Begin(ALIKE, 0, false)) + rest).messages == []
  {
    hide Allowed, Matches, OpBytes, NextChunk, Sent, PutBe32, Be32;
    var s, first := Unrepeating(max, max), Begin(ALIKE, 0, false);
    OthersAlike(s, d, first, rest);
    ChunkTaken(s, d.(repeatsExtended := Some(false)), first, rest);
    var b := OpBytes(s, first) + rest;
    var r := NextChunk(d, b);
    assert b[r.size..] == rest;
    assert s.streams[4 := s1.streams[4]] == s1.streams;
    var known := NextChunk(d.(repeatsExtended := Some(false)), b).state;
    assert known == r.state.(repeatsExtended := Some(false)) by {
      MatchesShown(s1, known);
    }
    AlikeWaits(s1, r.state);
  }

  lemma MatchesShown(s: Sender, d: State)
    requires Matches(s, d) && !s.repeats
    ensures d.repeatsExtended == Some(false)
  {
    hide Sound, WellFormed;
  }

  lemma AlikeBegins(max: nat, s1: Sender)
    requires |ALIKE.payload| <= max
    requires s1 == Unrepeating(max, max).(streams := map[4 := Outgoing(ALIKE, EXTENDED, DEFAULT_CHUNK_SIZE, true)])
    ensures var s, op := Unrepeating(max, max), Begin(ALIKE, 0, false);
      && Allowed(s, op) && Next(s, op) == s1 && Completed(s, op) == [] && Sent(s, op) == s1.streams[4]
  {
    var s := Unrepeating(max, max);
    TotalWith(map[], 4, DEFAULT_CHUNK_SIZE);
    assert Total(map[]) == 0;
    assert UnderWay(s.streams) == map[];
    hide Total, UnderWay;
    assert s.streams[4 := s1.streams[4]] == s1.streams;
  }

  lemma AlikeGoesOn(max: nat, s1: Sender)
    requires |ALIKE.payload| <= max
    requires s1 == Unrepeating(max, max).(streams := map[4 := Outgoing(ALIKE, EXTENDED, DEFAULT_CHUNK_SIZE, true)])
    ensures Allowed(s1, Continue(4, false)) && Completed(s1, Continue(4, false)) == [ALIKE]
  {
    TotalWith(map[], 4, |ALIKE.payload|);
    assert Total(map[]) == 0;
    assert UnderWay(s1.streams)[4 := |ALIKE.payload|] == map[][4 := |ALIKE.payload|];
    hide Total, UnderWay;
  }

  /** The second chunk's data are taken for the timestamp, and the data waited for. */
  lemma AlikeWaits(s: Sender, d: State)
    requires Allowed(s, Continue(4, false)) && Unshown(s, d)
    requires s.streams == map[4 := Outgoing(ALIKE, EXTENDED, DEFAULT_CHUNK_SIZE, true)]
    requires s.chunkSize == DEFAULT_CHUNK_SIZE
    ensures Drain(d, OpBytes(s, Continue(4, false))).messages == []
  {
    var op := Continue(4, false);
    var data := DataBytes(s, op);
    assert data == PutBe32(EXTENDED);
    UnrepeatedHead(s, d, op, data);
    UnrepeatedBytes(s, op, []);
    assert data + [] == data && OpBytes(s, op) + [] == OpBytes(s, op);
    assert data[..4] == data;
    assert StreamMatches(s.streams[4], d.streams[4]);
  }

  // ----- the encoder is one such sender -----------------------------------------------

  /** The chunks of `m` from its byte `from` on, each with a format 3 header. */
  function LaterChunks(m: Message, size: nat, from: nat): seq<byte>
    requires 0 < size
    decreases |m.payload| - from
  {
    if |m.payload| <= from then []
    else
      PutBasic(3, m.csid) + StampField(m.timestamp) + m.payload[from..Min(from + size, |m.payload|)]
      + LaterChunks(m, size, from + size)
  }

  /** A message's full header (its length field keeps only the low 24 bits). */
  function FullHeader(m: Message): seq<byte> {
    PutBasic(0, m.csid) + Put24(Min(m.timestamp, EXTENDED)) + Put24(|m.payload| % 0x100_0000) + [m.typeId]
    + PutLe32(m.streamId) + StampField(m.timestamp)
  }

  /** What the encoder writes for `m`. */
  function Encoded(m: Message, size: nat): seq<byte>
    requires 0 < size
  {
    FullHeader(m) + m.payload[..Min(size, |m.payload|)] + LaterChunks(m, size, size)
  }

  lemma LaterChunksStep(m: Message, size: nat, from: nat, before: seq<byte>)
    requires 0 < size && from < |m.payload|
    ensures before + PutBasic(3, m.csid) + StampField(m.timestamp) + m.payload[from..Min(from + size, |m.payload|)]
      + LaterChunks(m, size, from + size) == before + LaterChunks(m, size, from)
  {
    hide PutBasic, StampField;
  }

  /** The same as chunks: one that begins the message, and as many more as it needs. */
  function LaterOps(m: Message, size: nat, from: nat): seq<Op>
    requires 0 < size
    decreases |m.payload| - from
  {
    if |m.payload| <= from then [] else [Continue(m.csid, false)] + LaterOps(m, size, from + size)
  }

  function EncoderOps(m: Message, size: nat): seq<Op>
    requires 0 < size
  {
    [Begin(m, 0, false)] + LaterOps(m, size, size)
  }

  /** What the encoder's caller sees to: ids in range, lengths the format and the receiver
      allow, and Set Chunk Size messages that make sense. */
  ghost predicate CanWrite(s: Sender, m: Message) {
    && WellFormed(s) && s.repeats
    && FIRST_CSID <= m.csid <= LAST_CSID
    && |m.payload| < 0x100_0000 && |m.payload| <= s.MaxLen(m.typeId)
    && (m.csid in s.streams || |s.streams| < MAX_CHUNK_STREAMS)
    && (m.typeId == SET_CHUNK_SIZE ==> 4 <= |m.payload| && 1 <= SizeAsked(m.payload) <= MAX_CHUNK_SIZE)
    && Total(UnderWay(s.streams)[m.csid := |m.payload|]) <= MAX_PENDING_BYTES
  }

  /** The sender once `m` is written: nothing of it is under way, and it has been obeyed. */
  function Wrote(s: Sender, m: Message): Sender {
    Obeyed(s.(streams := s.streams[m.csid := Outgoing(m, m.timestamp, 0, false)]), m)
  }

  lemma OneMore(s: Sender, op: Op, ops: seq<Op>)
    requires Allowed(s, op) && AllAllowed(Next(s, op), ops)
    ensures AllAllowed(s, [op] + ops)
    ensures AllBytes(s, [op] + ops) == OpBytes(s, op) + AllBytes(Next(s, op), ops)
    ensures Delivered(s, [op] + ops) == Completed(s, op) + Delivered(Next(s, op), ops)
    ensures Final(s, [op] + ops) == Final(Next(s, op), ops)
  {
    hide Allowed, Next, OpBytes, Completed;
    assert ([op] + ops)[1..] == ops;
  }

  lemma ContinueSends(s: Sender, m: Message, from: nat)
    requires CanWrite(s, m) && 0 < from < |m.payload|
    requires m.csid in s.streams && s.streams[m.csid] == Outgoing(m, m.timestamp, from, true)
    ensures var op, n := Continue(m.csid, false), Min(|m.payload| - from, s.chunkSize);
      && 0 < s.chunkSize
      && Allowed(s, op)
      && OpBytes(s, op) == PutBasic(3, m.csid) + StampField(m.timestamp) + m.payload[from..from + n]
  {
    hide Total, SizeAsked;
    TotalWith(UnderWay(s.streams), m.csid, from + Min(|m.payload| - from, s.chunkSize));
    TotalWith(UnderWay(s.streams), m.csid, |m.payload|);
  }

  lemma BeginAllowed(s: Sender, m: Message)
    requires CanWrite(s, m)
    ensures 0 < s.chunkSize && Allowed(s, Begin(m, 0, false)) && |m.payload| < 0x100_0000
  {
    hide Total, SizeAsked;
    TotalWith(UnderWay(s.streams), m.csid, Min(|m.payload|, s.chunkSize));
    TotalWith(UnderWay(s.streams), m.csid, |m.payload|);
  }

  lemma BeginSends(s: Sender, m: Message)
    requires CanWrite(s, m)
    ensures var op, size := Begin(m, 0, false), s.chunkSize;
      && 0 < size && Allowed(s, op)
      && OpBytes(s, op) + LaterChunks(m, size, size) == Encoded(m, size)
  {
    hide Allowed, CanWrite, HeadBytes, FullHeader, LaterChunks;
    BeginAllowed(s, m);
    FullHead(s, m);
  }

  /** A message's first chunk, written in full, begins with its full header. */
  lemma FullHead(s: Sender, m: Message)
    requires Allowed(s, Begin(m, 0, false)) && |m.payload| < 0x100_0000
    ensures HeadBytes(s, Begin(m, 0, false)) == FullHeader(m)
  {
    hide Allowed, PutBasic, Put24, PutLe32, StampField;
    var field := Min(m.timestamp, EXTENDED);
    assert |m.payload| % 0x100_0000 == |m.payload|;
    Rejoined(PutBasic(0, m.csid), Put24(field), Put24(|m.payload|), [m.typeId], PutLe32(m.streamId),
             StampField(m.timestamp));
  }

  lemma Rejoined(a: seq<byte>, b: seq<byte>, c: seq<byte>, d: seq<byte>, e: seq<byte>, f: seq<byte>)
    ensures a + ((b + (c + d) + e) + f) == a + b + c + d + e + f
  {
  }

  /** A message under way can still be written to its end. */
  lemma StillCanWrite(s: Sender, m: Message, from: nat)
    requires CanWrite(s, m) && from < |m.payload|
    ensures CanWrite(s.(streams := s.streams[m.csid := Outgoing(m, m.timestamp, from, true)]), m)
    ensures Wrote(s.(streams := s.streams[m.csid := Outgoing(m, m.timestamp, from, true)]), m) == Wrote(s, m)
  {
    hide Total, Obeyed, SizeAsked;
    var s' := s.(streams := s.streams[m.csid := Outgoing(m, m.timestamp, from, true)]);
    assert UnderWay(s'.streams)[m.csid := |m.payload|] == UnderWay(s.streams)[m.csid := |m.payload|];
    var done := Outgoing(m, m.timestamp, 0, false);
    assert s'.streams[m.csid := done] == s.streams[m.csid := done];
  }

  lemma {:induction false} LaterOpsSend(s: Sender, m: Message, from: nat)
    requires CanWrite(s, m) && 0 < from < |m.payload|
    requires m.csid in s.streams && s.streams[m.csid] == Outgoing(m, m.timestamp, from, true)
    ensures var ops := LaterOps(m, s.chunkSize, from);
      && AllAllowed(s, ops)
      && AllBytes(s, ops) == LaterChunks(m, s.chunkSize, from)
      && Delivered(s, ops) == [m]
      && Final(s, ops) == Wrote(s, m)
    decreases |m.payload| - from
  {
    hide Obeyed, Allowed, CanWrite, OpBytes, Next, Wrote, Completed, PutBasic, StampField, WellFormed, UnderWay;
    var size, op := s.chunkSize, Continue(m.csid, false);
    ContinueSends(s, m, from);
    ContinueNext(s, m, from);
    if from + size < |m.payload| {
      StillCanWrite(s, m, from + size);
      LaterOpsSend(Next(s, op), m, from + size);
    } else {
      LaterChunksEnd(m, size, from);
    }
    OneMore(s, op, LaterOps(m, size, from + size));
  }

  lemma ContinueNext(s: Sender, m: Message, from: nat)
    requires from < |m.payload| && m.csid in s.streams && s.streams[m.csid] == Outgoing(m, m.timestamp, from, true)
    requires Allowed(s, Continue(m.csid, false)) && 0 < s.chunkSize && m.csid == s.streams[m.csid].last.csid
    ensures var op := Continue(m.csid, false);
      if from + s.chunkSize < |m.payload| then
        && Next(s, op) == s.(streams := s.streams[m.csid := Outgoing(m, m.timestamp, from + s.chunkSize, true)])
        && Completed(s, op) == []
      else Next(s, op) == Wrote(s, m) && Completed(s, op) == [m]
  {
    hide Obeyed, Total, SizeAsked;
  }

  lemma LaterChunksEnd(m: Message, size: nat, from: nat)
    requires 0 < size && |m.payload| <= from + size
    ensures LaterChunks(m, size, from + size) == [] && LaterOps(m, size, from + size) == []
  {
  }

  /** Writing a message is sending its chunks one after the other. */
  lemma EncoderSends(s: Sender, m: Message)
    requires CanWrite(s, m)
    ensures 0 < s.chunkSize
    ensures var ops := EncoderOps(m, s.chunkSize);
      && AllAllowed(s, ops)
      && AllBytes(s, ops) == Encoded(m, s.chunkSize)
      && Delivered(s, ops) == [m]
      && Final(s, ops) == Wrote(s, m)
  {
    BeginSends(s, m);
    hide Obeyed, Allowed, OpBytes, Encoded, CanWrite;
    var size, op := s.chunkSize, Begin(m, 0, false);
    if size < |m.payload| {
      StillCanWrite(s, m, size);
      LaterOpsSend(Next(s, op), m, size);
    } else {
      LaterChunksEnd(m, size, 0);
    }
    OneMore(s, op, LaterOps(m, size, size));
  }

  /** Messages written one after the other, each at the chunk size then in force. */
  ghost predicate AllCanWrite(s: Sender, ms: seq<Message>)
    decreases |ms|
  {
    ms == [] || (CanWrite(s, ms[0]) && AllCanWrite(Wrote(s, ms[0]), ms[1..]))
  }

  function AllEncoded(s: Sender, ms: seq<Message>): seq<byte>
    requires AllCanWrite(s, ms)
    decreases |ms|
  {
    if ms == [] then [] else Encoded(ms[0], s.chunkSize) + AllEncoded(Wrote(s, ms[0]), ms[1..])
  }

  /** Whatever the encoder writes, changing its chunk size as it announces it, the decoder
      gives back, and nothing else, however the bytes arrive. */
  lemma {:induction false} EncoderRoundTrip(s: Sender, d: State, ms: seq<Message>)
    requires AllCanWrite(s, ms) && Matches(s, d)
    ensures var r := Drain(d, AllEncoded(s, ms));
      r.error == None && r.rest == [] && r.messages == ms
    decreases |ms|
  {
    hide CanWrite, Matches, Encoded, Wrote, AllAllowed, Drain, EncoderOps;
    if ms == [] {
      EmptyDrain(d);
    } else {
      var m, rest := ms[0], ms[1..];
      EncoderSends(s, m);
      RoundTrip(s, d, EncoderOps(m, s.chunkSize));
      var first := Drain(d, Encoded(m, s.chunkSize));
      EncoderRoundTrip(Wrote(s, m), first.state, rest);
      var more := AllEncoded(Wrote(s, m), rest);
      DrainSplit(d, Encoded(m, s.chunkSize), more);
      assert first.rest + more == more;
    }
  }
}
