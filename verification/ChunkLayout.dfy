/** RTMP chunks byte by byte, with the numbers of Adobe's RTMP 1.0 specification written out
    (sections 5.3.1 and 5.4): where each field lies in what the encoder writes and in what the
    decoder reads, what is refused, and what protocol messages do. */
module ChunkLayout {
  import opened Bytes
  import opened Wrappers
  import opened ChunkFormat
  import opened ChunkDecoding
  import opened ChunkSending

  // ----- basic headers ----------------------------------------------------------------

  /** `b` begins with a basic header of `n` bytes: the format in the top two bits, and in the rest
      the chunk stream, or how many bytes follow for it. */
  predicate BasicAt(b: seq<byte>, fmt: nat, csid: nat, n: nat) {
    && n <= |b|
    && match n
       case 1 => 2 <= csid < 64 && b[0] as int == fmt * 64 + csid
       case 2 => 64 <= csid < 320 && b[0] as int == fmt * 64 && b[1] as int == csid - 64
       case 3 => 64 <= csid < 65_600 && b[0] as int == fmt * 64 + 1 && b[1] as int + b[2] as int * 256 == csid - 64
       case _ => false
  }

  lemma BasicPut(fmt: nat, csid: nat, tail: seq<byte>)
    requires fmt < 4 && FIRST_CSID <= csid <= LAST_CSID
    ensures BasicAt(PutBasic(fmt, csid) + tail, fmt, csid, |PutBasic(fmt, csid)|)
  {
    var b := PutBasic(fmt, csid);
    assert forall i :: 0 <= i < |b| ==> (b + tail)[i] == b[i];
  }

  /** A chunk stream id no peer can use is moved to the nearest one with a three-byte header. */
  lemma OutOfRangeMoved(fmt: nat, csid: nat)
    requires fmt < 4
    ensures csid < 2 ==> BasicAt(PutBasic(fmt, csid), fmt, 64, 3)
    ensures 65_599 < csid ==> BasicAt(PutBasic(fmt, csid), fmt, 65_599, 3)
  {
  }

  // ----- what the encoder writes ------------------------------------------------------

  /** The message header of the first chunk, all fields in full, at `i`: three bytes each for the
      timestamp and the length, one for the type, four for the message stream, lowest first; and
      four more for a timestamp that does not fit below 0xFFFFFF. */
  predicate FullHeaderAt(b: seq<byte>, i: nat, m: Message) {
    && i + 11 <= |b|
    && Num3(b, i) == (if m.timestamp < 16_777_215 then m.timestamp else 16_777_215)
    && Num3(b, i + 3) == |m.payload|
    && b[i + 6] == m.typeId
    && Num4Reversed(b, i + 7) == m.streamId
    && (16_777_215 <= m.timestamp ==> i + 15 <= |b| && Num4(b, i + 11) == m.timestamp)
  }

  /** What the encoder writes of a message that fits the format: a full header, at most one chunk
      size of data, and the rest in chunks of their own. */
  lemma EncodedLayout(m: Message, size: nat)
    requires 0 < size && FIRST_CSID <= m.csid <= LAST_CSID && |m.payload| < 16_777_216
    ensures var b, n := Encoded(m, size), |PutBasic(0, m.csid)|;
      var data, len := n + 11 + (if m.timestamp < 16_777_215 then 0 else 4), Min(size, |m.payload|);
      && BasicAt(b, 0, m.csid, n) && FullHeaderAt(b, n, m)
      && data + len <= |b| && b[data..data + len] == m.payload[..len] && b[data + len..] == LaterChunks(m, size, size)
  {
    hide PutBasic, LaterChunks, BasicAt, FullHeaderAt, StampField;
    var data, later := m.payload[..Min(size, |m.payload|)], LaterChunks(m, size, size);
    var b := Encoded(m, size);
    assert b == FullHeader(m) + data + later;
    hide Encoded, FullHeader;
    assert FullHeader(m) + data + [] == FullHeader(m) + data && [] + later == later;
    HeaderWritten(m, data + later);
    Pieces(FullHeader(m), data, [], later, b);
  }

  /** The full header, whatever follows. */
  lemma HeaderWritten(m: Message, rest: seq<byte>)
    requires FIRST_CSID <= m.csid <= LAST_CSID && |m.payload| < 16_777_216
    ensures var b, n := FullHeader(m) + rest, |PutBasic(0, m.csid)|;
      && BasicAt(b, 0, m.csid, n) && FullHeaderAt(b, n, m)
      && |FullHeader(m)| == n + 11 + if m.timestamp < 16_777_215 then 0 else 4
  {
    hide PutBasic, BasicAt, FullHeaderAt, StampField;
    var basic, field := PutBasic(0, m.csid), StampField(m.timestamp);
    var stamp, length, stream := Put24(Min(m.timestamp, EXTENDED)), Put24(|m.payload|), PutLe32(m.streamId);
    Nested(basic, stamp, length, [m.typeId], stream, field, rest);
    BasicPut(0, m.csid, stamp + length + [m.typeId] + stream + field + rest);
    FullFields(m, basic, rest);
  }

  lemma Nested(a: seq<byte>, b: seq<byte>, c: seq<byte>, d: seq<byte>, e: seq<byte>, f: seq<byte>, r: seq<byte>)
    ensures a + b + c + d + e + f + r == a + (b + c + d + e + f + r)
    ensures |a + b + c + d + e + f| == |a| + |b| + |c| + |d| + |e| + |f|
  {
  }

  lemma FullFields(m: Message, basic: seq<byte>, rest: seq<byte>)
    requires |m.payload| < 16_777_216
    ensures var b := basic
        + (Put24(Min(m.timestamp, EXTENDED)) + Put24(|m.payload|) + [m.typeId] + PutLe32(m.streamId)
           + StampField(m.timestamp) + rest);
      FullHeaderAt(b, |basic|, m)
      && |StampField(m.timestamp)| == if m.timestamp < 16_777_215 then 0 else 4
  {
    hide Put24, PutLe32, StampField;
    var stamp, length, stream := Put24(Min(m.timestamp, EXTENDED)), Put24(|m.payload|), PutLe32(m.streamId);
    var field := StampField(m.timestamp);
    var fields := stamp + length + [m.typeId] + stream + field + rest;
    FieldValue(m.timestamp);
    FieldsAt(stamp, length, m.typeId, stream, field, rest, fields);
    FieldsMean(m, fields);
    Shifted(basic, fields, m);
  }

  lemma FieldsAt(stamp: seq<byte>, length: seq<byte>, typeId: byte, stream: seq<byte>, field: seq<byte>,
                 rest: seq<byte>, y: seq<byte>)
    requires y == stamp + length + [typeId] + stream + field + rest && |stamp| == |length| == 3 && |stream| == 4
    ensures 11 + |field| <= |y| && y[..3] == stamp && y[3..6] == length && y[6] == typeId && y[7..11] == stream
    ensures y[11..11 + |field|] == field
  {
    var front := stamp + length + [typeId] + stream;
    assert front[..3] == stamp && front[3..6] == length && front[6] == typeId && front[7..11] == stream;
    assert y[..11] == front;
  }

  lemma FieldsMean(m: Message, y: seq<byte>)
    requires |m.payload| < 16_777_216 && 11 + |StampField(m.timestamp)| <= |y|
    requires y[..3] == Put24(Min(m.timestamp, EXTENDED)) && y[3..6] == Put24(|m.payload|) && y[6] == m.typeId
    requires y[7..11] == PutLe32(m.streamId) && y[11..11 + |StampField(m.timestamp)|] == StampField(m.timestamp)
    ensures FullHeaderAt(y, 0, m)
  {
    FieldValue(m.timestamp);
    hide Put24, PutLe32, StampField;
    FourRead(y, 11);
    assert y[..3] == [y[0], y[1], y[2]] && y[3..6] == [y[3], y[4], y[5]];
    assert y[7..11] == [y[7], y[8], y[9], y[10]];
  }

  lemma Shifted(a: seq<byte>, y: seq<byte>, m: Message)
    requires FullHeaderAt(y, 0, m)
    ensures FullHeaderAt(a + y, |a|, m)
  {
  }

  /** A later chunk: a header of format 3, the timestamp again if it is an extended one, and the
      next data. */
  lemma LaterLayout(m: Message, size: nat, from: nat)
    requires 0 < size && FIRST_CSID <= m.csid <= LAST_CSID && from < |m.payload|
    ensures var b, n := LaterChunks(m, size, from), |PutBasic(3, m.csid)|;
      var data, end := n + (if m.timestamp < 16_777_215 then 0 else 4), Min(from + size, |m.payload|);
      && BasicAt(b, 3, m.csid, n) && (16_777_215 <= m.timestamp ==> n + 4 <= |b| && Num4(b, n) == m.timestamp)
      && data + (end - from) <= |b| && b[data..data + (end - from)] == m.payload[from..end]
      && b[data + (end - from)..] == LaterChunks(m, size, from + size)
  {
    hide PutBasic, BasicAt, Num4, Be32, StampField;
    var basic, field, end := PutBasic(3, m.csid), StampField(m.timestamp), Min(from + size, |m.payload|);
    var data, later := m.payload[from..end], LaterChunks(m, size, from + size);
    var b := LaterChunks(m, size, from);
    assert b == basic + field + data + later;
    hide LaterChunks;
    Pieces(basic, field, data, later, b);
    BasicPut(3, m.csid, field + (data + later));
    FieldValue(m.timestamp);
    FourRead(b, |basic|);
  }

  lemma FieldValue(timestamp: u32)
    ensures |StampField(timestamp)| == if timestamp < 16_777_215 then 0 else 4
    ensures |StampField(timestamp)| == 4 ==> Be32(StampField(timestamp)) == timestamp
  {
  }

  /** Where the pieces of `x` are. */
  lemma Pieces(a: seq<byte>, b: seq<byte>, c: seq<byte>, d: seq<byte>, x: seq<byte>)
    requires x == a + b + c + d
    ensures x == a + (b + (c + d)) && |x| == |a| + |b| + |c| + |d|
    ensures x[|a|..|a| + |b|] == b && x[|a| + |b|..|a| + |b| + |c|] == c && x[|a| + |b| + |c|..] == d
  {
  }

  lemma FourRead(b: seq<byte>, i: nat)
    ensures i + 4 <= |b| ==> Be32(b[i..i + 4]) == Num4(b, i)
  {
    if i + 4 <= |b| {
      assert b[i..i + 4] == [b[i], b[i + 1], b[i + 2], b[i + 3]];
    }
  }

  // ----- what the decoder reads -------------------------------------------------------

  /** A basic header is read as the chunk stream it is for, and awaited until all of it is there. */
  lemma BasicExactly(b: seq<byte>, fmt: nat, csid: nat, n: nat)
    ensures fmt < 4 && BasicAt(b, fmt, csid, n) <==> ReadBasic(b) == Some(Basic(fmt, csid, n))
    ensures ReadBasic(b).None? <==>
      b == [] || (b[0] as int % 64 == 0 && |b| < 2) || (b[0] as int % 64 == 1 && |b| < 3)
  {
  }

  /** How many bytes of message header each format has. */
  function FieldBytes(fmt: nat): nat { if fmt == 0 then 11 else if fmt == 1 then 7 else if fmt == 2 then 3 else 0 }

  /** The length and type the chunk's message is to have: in the header, or as the last on its
      stream. */
  function LengthOf(st: Stream, fmt: nat, b: seq<byte>, n: nat): nat
    requires n + FieldBytes(fmt) <= |b|
  {
    if fmt <= 1 then Num3(b, n + 3) else st.length
  }

  function TypeOf(st: Stream, fmt: nat, b: seq<byte>, n: nat): byte
    requires n + FieldBytes(fmt) <= |b|
  {
    if fmt <= 1 then b[n + 6] else st.typeId
  }

  /** The timestamp comes in four bytes of its own. */
  predicate IsExtended(st: Stream, fmt: nat, b: seq<byte>, n: nat)
    requires n + FieldBytes(fmt) <= |b|
  {
    if fmt < 3 then Num3(b, n) == 16_777_215 else st.extended
  }

  /** Audio and video have a limit of their own. */
  function LimitOf(d: State, typeId: byte): nat { if typeId == 8 || typeId == 9 then d.maxMediaLen else d.maxOtherLen }

  /** A header that does not continue a message is refused exactly if it leaves out what was never
      sent, is on one chunk stream more than 64, or announces more than the limit. */
  lemma RefusedExactly(d: State, b: seq<byte>, fmt: nat, csid: nat, n: nat)
    requires fmt < 4 && BasicAt(b, fmt, csid, n) && n + FieldBytes(fmt) <= |b|
    requires !(fmt == 3 && d.Get(csid).inProgress)
    requires csid in d.streams ==> d.streams[csid].hasHeader
    ensures var st, h := d.Get(csid), ReadHead(d, b);
      var length, typeId := LengthOf(st, fmt, b, n), TypeOf(st, fmt, b, n);
      && (h == Bad(MissingHeader(csid)) <==> fmt != 0 && csid !in d.streams)
      && (h == Bad(TooManyStreams) <==> fmt == 0 && csid !in d.streams && 64 <= |d.streams|)
      && (h == Bad(MessageTooLarge(typeId, length, LimitOf(d, typeId))) <==>
            LimitOf(d, typeId) < length && (csid in d.streams || (fmt == 0 && |d.streams| < 64)))
      && (h.Bad? ==> h.error.MissingHeader? || h.error.TooManyStreams? || h.error.MessageTooLarge?)
  {
    BasicExactly(b, fmt, csid, n);
    FieldsRead(d.Get(csid), fmt, b, n);
    hide ReadNew;
  }

  lemma FieldsRead(st: Stream, fmt: nat, b: seq<byte>, n: nat)
    requires fmt < 4 && n + FieldBytes(fmt) <= |b|
    ensures FieldBytes(fmt) == HeaderLen(fmt)
    ensures var h := b[n..n + FieldBytes(fmt)];
      && WithHeader(st, fmt, h) ==
         st.(length := LengthOf(st, fmt, b, n), typeId := TypeOf(st, fmt, b, n),
             streamId := if fmt == 0 then Num4Reversed(b, n + 7) else st.streamId)
      && (fmt < 3 ==> U24(h[..3]) == Num3(b, n))
  {
    var h := b[n..n + FieldBytes(fmt)];
    assert forall i :: 0 <= i < |h| ==> h[i] == b[n + i];
    if fmt < 3 {
      assert h[..3] == [b[n], b[n + 1], b[n + 2]];
    }
    if fmt <= 1 {
      assert h[3..6] == [b[n + 3], b[n + 4], b[n + 5]];
    }
    if fmt == 0 {
      assert h[7..11] == [b[n + 7], b[n + 8], b[n + 9], b[n + 10]];
    }
  }

  /** What is read of a header that does not continue a message and is not refused. Its stream then
      has the message's fields, its timestamp exact or, if the header gives a difference (or
      leaves it out: the one before again), that much later, in 32 bits. */
  lemma HeadLayout(d: State, b: seq<byte>, fmt: nat, csid: nat, n: nat)
    requires fmt < 4 && BasicAt(b, fmt, csid, n) && n + FieldBytes(fmt) <= |b|
    requires !(fmt == 3 && d.Get(csid).inProgress) && !ReadHead(d, b).Bad?
    ensures var st, i := d.Get(csid), n + FieldBytes(fmt);
      if IsExtended(st, fmt, b, n) && |b| < i + 4 then ReadHead(d, b) == Short
      else
        && var h := ReadHead(d, b);
        && h.Head? && h.csid == csid && !h.continuation && h.learned == None
        && h.dataAt == (if IsExtended(st, fmt, b, n) then i + 4 else i)
        && h.stream.length == LengthOf(st, fmt, b, n) && h.stream.typeId == TypeOf(st, fmt, b, n)
        && h.stream.streamId == (if fmt == 0 then Num4Reversed(b, n + 7) else st.streamId)
        && var given := if IsExtended(st, fmt, b, n) then Num4(b, i) else if fmt < 3 then Num3(b, n) else st.delta;
        && h.stream.timestamp ==
           (if fmt == 0 then given
            else if st.timestamp + given < 4_294_967_296 then st.timestamp + given
            else st.timestamp + given - 4_294_967_296)
        && h.stream.delta == given && h.stream.extended == IsExtended(st, fmt, b, n)
        && h.stream.extValue == (if h.stream.extended then Num4(b, i) else st.extValue)
        && h.stream.partial == [] && h.stream.inProgress && h.stream.hasHeader
  {
    HeadIsNew(d, b, fmt, csid, n);
    FieldsRead(d.Get(csid), fmt, b, n);
    var st, h, i := d.Get(csid), b[n..n + FieldBytes(fmt)], n + FieldBytes(fmt);
    FourRead(b, i);
    NewRead(WithHeader(st, fmt, h), fmt, csid, h, b, i);
    hide WithHeader, Num3, Num4, Num4Reversed, BasicAt, ReadHead, LengthOf, TypeOf, ReadNew, Be32, U24;
  }

  /** The header of a new message, once length, type and stream are known. */
  lemma NewRead(st: Stream, fmt: nat, csid: nat, h: seq<byte>, b: seq<byte>, i: nat)
    requires fmt < 4 && |h| == HeaderLen(fmt) && i <= |b|
    ensures var given, r := if fmt < 3 then U24(h[..3]) else st.delta, ReadNew(st, fmt, csid, h, b, i);
      var extended := if fmt < 3 then given == 16_777_215 else st.extended;
      if extended && |b| < i + 4 then r == Short
      else
        && r.Head? && r.csid == csid && !r.continuation && r.learned == None
        && r.dataAt == (if extended then i + 4 else i)
        && var raw := if extended then Be32(b[i..i + 4]) else given;
        && r.stream == st.(timestamp := r.stream.timestamp, delta := raw, extended := extended,
                           extValue := if extended then raw else st.extValue, partial := [], inProgress := true,
                           hasHeader := true)
        && r.stream.timestamp ==
           (if fmt == 0 then raw
            else if st.timestamp + raw < 4_294_967_296 then st.timestamp + raw
            else st.timestamp + raw - 4_294_967_296)
  {
    hide Be32, U24;
  }

  lemma HeadIsNew(d: State, b: seq<byte>, fmt: nat, csid: nat, n: nat)
    requires fmt < 4 && BasicAt(b, fmt, csid, n) && n + FieldBytes(fmt) <= |b|
    requires !(fmt == 3 && d.Get(csid).inProgress) && !ReadHead(d, b).Bad?
    ensures var h, i := b[n..n + FieldBytes(fmt)], n + FieldBytes(fmt);
      |h| == HeaderLen(fmt) && ReadHead(d, b) == ReadNew(WithHeader(d.Get(csid), fmt, h), fmt, csid, h, b, i)
  {
    BasicExactly(b, fmt, csid, n);
    hide WithHeader, ReadNew, ReadBasic, BasicAt;
  }

  /** A chunk whose header is there waits for all of its data, and is refused exactly if unfinished
      messages would then take more than 64 MiB. */
  lemma PendingExactly(d: State, h: Head, b: seq<byte>)
    requires h.Head? && |h.stream.partial| <= h.stream.length
    ensures var r := TakeData(d, h, b);
      var left := h.stream.length - |h.stream.partial|;
      var n := if left < d.chunkSize then left else d.chunkSize;
      var freed := if h.continuation || h.csid !in d.streams then 0 else |d.streams[h.csid].partial|;
      && (r == NeedMore <==> |b| < h.dataAt + n)
      && (r == Fail(TooMuchPending) <==> h.dataAt + n <= |b| && 67_108_864 < d.pending - freed + n)
      && (r.Took? ==>
            && r.size == h.dataAt + n <= |b|
            && r.message == if n < left then None
                            else Some(Message(h.csid, h.stream.timestamp, h.stream.typeId, h.stream.streamId,
                                              h.stream.partial + b[h.dataAt..h.dataAt + n])))
  {
  }

  // ----- protocol messages ------------------------------------------------------------

  /** Message type 1 sets the size of later chunks, its top bit apart, if that is between 1 byte
      and 16 MiB; type 2 drops the unfinished message of the chunk stream it names, and nothing
      else; no other type changes anything. */
  lemma ControlExactly(d: State, m: Message)
    ensures m.typeId == 1 && |m.payload| < 4 ==> Controlled(d, m) == Err(ShortSetChunkSize)
    ensures m.typeId == 1 && 4 <= |m.payload| ==>
      var size := Num4(m.payload, 0) % 2_147_483_648;
      Controlled(d, m) == if 1 <= size <= 16_777_216 then Ok(d.(chunkSize := size)) else Err(InvalidChunkSize(size))
    ensures m.typeId == 2 && 4 <= |m.payload| && Num4(m.payload, 0) in d.streams ==>
      var csid, c := Num4(m.payload, 0), Controlled(d, m);
      && c.Ok? && c.value.streams.Keys == d.streams.Keys
      && (forall k :: k in d.streams && k != csid ==> c.value.streams[k] == d.streams[k])
      && c.value.streams[csid] == d.streams[csid].(partial := [], inProgress := false)
      && c.value.pending == d.pending - |d.streams[csid].partial|
      && c.value == d.(streams := c.value.streams, pending := c.value.pending)
    ensures m.typeId != 1 && !(m.typeId == 2 && 4 <= |m.payload| && Num4(m.payload, 0) in d.streams) ==>
      Controlled(d, m) == Ok(d)
  {
    if 4 <= |m.payload| {
      assert Be32(m.payload[..4]) == Num4(m.payload, 0);
    }
  }

  /** A new connection's chunks are of 128 bytes. */
  lemma FreshSizes(maxMediaLen: nat, maxOtherLen: nat)
    ensures Receiving(maxMediaLen, maxOtherLen).chunkSize == Unrepeating(maxMediaLen, maxOtherLen).chunkSize == 128
  {
  }
}
