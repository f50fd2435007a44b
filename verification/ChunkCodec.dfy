/** The chunk encoder and decoder as they run: one appends to an output buffer, the other
    consumes an input buffer and updates its streams chunk by chunk. */
module ChunkCodec {
  import opened Bytes
  import opened Wrappers
  import opened ChunkFormat
  import opened ChunkDecoding
  import opened ChunkSending

  // ----- decoding ---------------------------------------------------------------------

  datatype ChunkResult = NeedMore | Partial | Complete(message: Message)

  class ChunkDecoder {
    var chunkSize: nat
    var streams: map<nat, Stream>
    var buf: seq<byte>
    var pending: int
    var maxMediaLen: nat
    var maxOtherLen: nat
    var repeatsExtended: Option<bool>

    ghost function Value(): State
      reads this
    {
      State(chunkSize, streams, pending, maxMediaLen, maxOtherLen, repeatsExtended)
    }

    ghost predicate Valid()
      reads this
    {
      Sound(Value())
    }

    constructor (maxMediaLen: nat, maxOtherLen: nat)
      ensures Valid() && buf == []
      ensures Value() == State(128, map[], 0, maxMediaLen, maxOtherLen, None)
    {
      chunkSize, streams, buf, pending := DEFAULT_CHUNK_SIZE, map[], [], 0;
      this.maxMediaLen, this.maxOtherLen, repeatsExtended := maxMediaLen, maxOtherLen, None;
      new;
      assert Unfinished(streams) == map[];
    }

    method Push(data: seq<byte>)
      modifies `buf
      ensures buf == old(buf) + data
    {
      buf := buf + data;
    }

    method SetChunkSize(size: nat) returns (r: Result<(), ChunkError>)
      requires Valid()
      modifies `chunkSize
      ensures Valid()
      ensures r.Ok? <==> 1 <= size <= MAX_CHUNK_SIZE
      ensures r.Ok? ==> chunkSize == size
      ensures r.Err? ==> r.error == InvalidChunkSize(size) && chunkSize == old(chunkSize)
    {
      if size == 0 || MAX_CHUNK_SIZE < size {
        return Err(InvalidChunkSize(size));
      }
      ghost var before := Value();
      chunkSize := size;
      assert Unfinished(Value().streams) == Unfinished(before.streams);
      r := Ok(());
    }

    method Abort(csid: nat)
      requires Valid()
      modifies `streams, `pending
      ensures Valid() && Value() == Aborted(old(Value()), csid)
    {
      ghost var before := Value();
      if csid in streams {
        var st := streams[csid];
        pending := pending - |st.partial|;
        streams := streams[csid := st.(partial := [], inProgress := false)];
        StreamChanged(before, csid, streams[csid], Value());
      }
    }

    /** Reads the header of the next chunk, changing nothing. */
    method Header() returns (r: Head)
      ensures r == ReadHead(Value(), buf)
    {
      var basic := ReadBasic(buf);
      if basic.None? {
        return Short;
      }
      var fmt, csid, pos := basic.value.fmt, basic.value.csid, basic.value.size;
      if |buf| < pos + HeaderLen(fmt) {
        return Short;
      }
      var h := buf[pos..pos + HeaderLen(fmt)];
      pos := pos + HeaderLen(fmt);
      var st := if csid in streams then streams[csid] else NO_STREAM;
      if fmt != 0 && !st.hasHeader {
        return Bad(MissingHeader(csid));
      }
      if csid !in streams && MAX_CHUNK_STREAMS <= |streams| {
        return Bad(TooManyStreams);
      }
      if fmt == 3 && st.inProgress {
        r := Continuation(csid, st, pos);
      } else {
        r := NewMessage(fmt, csid, st, h, pos);
      }
    }

    method NewMessage(fmt: nat, csid: nat, known: Stream, h: seq<byte>, at: nat) returns (r: Head)
      requires |h| == HeaderLen(fmt) && at <= |buf|
      ensures var next := WithHeader(known, fmt, h);
        var max := Value().MaxLen(next.typeId);
        if max < next.length then r == Bad(MessageTooLarge(next.typeId, next.length, max))
        else r == ReadNew(next, fmt, csid, h, buf, at)
    {
      var st, pos := known, at;
      var field: u32 := 0;
      if fmt <= 2 {
        field := U24(h[..3]);
      }
      if fmt <= 1 {
        st := st.(length := U24(h[3..6]), typeId := h[6]);
      }
      if fmt == 0 {
        st := st.(streamId := Le32(h[7..11]));
      }
      var max := if st.typeId == AUDIO || st.typeId == VIDEO then maxMediaLen else maxOtherLen;
      if max < st.length {
        return Bad(MessageTooLarge(st.typeId, st.length, max));
      }
      if fmt <= 2 {
        st := st.(extended := field == EXTENDED);
      }
      var raw := field;
      if st.extended {
        if |buf| < pos + 4 {
          return Short;
        }
        raw := Be32(buf[pos..pos + 4]);
        st := st.(extValue := raw);
        pos := pos + 4;
      }
      if fmt == 0 {
        st := st.(timestamp := raw, delta := raw);
      } else {
        if fmt < 3 || st.extended {
          st := st.(delta := raw);
        }
        st := st.(timestamp := Add32(st.timestamp, st.delta));
      }
      r := Head(csid, st.(hasHeader := true, partial := [], inProgress := true), false, pos, None);
    }

    method Continuation(csid: nat, st: Stream, pos: nat) returns (r: Head)
      requires pos <= |buf|
      ensures r == ReadContinuation(st, csid, buf, pos, repeatsExtended)
    {
      if !st.extended {
        return Head(csid, st, true, pos, None);
      }
      match repeatsExtended
      case Some(false) =>
        r := Head(csid, st, true, pos, None);
      case Some(true) =>
        r := if |buf| < pos + 4 then Short else Head(csid, st, true, pos + 4, None);
      case None =>
        if |buf| < pos + 4 {
          return Short;
        }
        var repeated := Be32(buf[pos..pos + 4]) == st.extValue;
        r := Head(csid, st, true, if repeated then pos + 4 else pos, Some(repeated));
    }

    /** Moves a chunk's data, all of it there, into its stream's message. */
    method Take(head: Head, take: nat, dropped: nat) returns (r: Result<ChunkResult, ChunkError>)
      requires head.Head? && head.dataAt + take <= |buf| && dropped == Discarded(Value(), head)
      modifies `streams, `buf, `pending, `repeatsExtended
      ensures var (d, m) := Commit(old(Value()), head, old(buf)[head.dataAt..head.dataAt + take]);
        && Value() == d && buf == old(buf)[head.dataAt + take..]
        && r == Ok(if m.Some? then Complete(m.value) else Partial)
    {
      var st, csid := head.stream, head.csid;
      if head.learned.Some? {
        repeatsExtended := head.learned;
      }
      pending := pending - dropped + take;
      st := st.(partial := st.partial + buf[head.dataAt..head.dataAt + take]);
      buf := buf[head.dataAt + take..];
      if st.length <= |st.partial| {
        pending := pending - |st.partial|;
        r := Ok(Complete(Message(csid, st.timestamp, st.typeId, st.streamId, st.partial)));
        st := st.(partial := [], inProgress := false);
      } else {
        r := Ok(Partial);
      }
      streams := streams[csid := st];
    }

    /** Takes the next chunk off the buffer, or leaves everything as it is. */
    method NextChunk() returns (r: Result<ChunkResult, ChunkError>)
      requires Valid()
      modifies `streams, `buf, `pending, `repeatsExtended
      ensures Valid()
      ensures match ChunkDecoding.NextChunk(old(Value()), old(buf))
        case NeedMore => r == Ok(ChunkResult.NeedMore) && Value() == old(Value()) && buf == old(buf)
        case Fail(e) => r == Err(e) && Value() == old(Value()) && buf == old(buf)
        case Took(d, size, m) =>
          && Value() == d && buf == old(buf)[size..]
          && r == Ok(if m.Some? then Complete(m.value) else Partial)
    {
      hide Sound, ReadHead;
      ghost var before := Value();
      var head := Header();
      if head.Short? {
        return Ok(ChunkResult.NeedMore);
      } else if head.Bad? {
        return Err(head.error);
      }
      var st, csid := head.stream, head.csid;
      var remaining := if st.length < |st.partial| then 0 else st.length - |st.partial|;
      var take := if remaining < chunkSize then remaining else chunkSize;
      if |buf| < head.dataAt + take {
        return Ok(ChunkResult.NeedMore);
      }
      var dropped := if !head.continuation && csid in streams then |streams[csid].partial| else 0;
      if MAX_PENDING_BYTES < pending - dropped + take {
        return Err(TooMuchPending);
      }
      r := Take(head, take, dropped);
      NextChunkKeeps(before, old(buf));
    }

    /** The next complete message, if all of one is there. */
    method NextMessage() returns (r: Result<Option<Message>, ChunkError>)
      requires Valid()
      modifies `streams, `buf, `pending, `repeatsExtended
      ensures Valid()
      ensures var (d, rest, result) := FirstMessage(old(Value()), old(buf));
        Value() == d && buf == rest && r == result
    {
      hide Sound, ChunkDecoding.NextChunk;
      while true
        invariant Valid()
        invariant chunkSize == old(chunkSize) && maxMediaLen == old(maxMediaLen) && maxOtherLen == old(maxOtherLen)
        invariant FirstMessage(Value(), buf) == FirstMessage(old(Value()), old(buf))
        decreases |buf|
      {
        var chunk := NextChunk();
        match chunk
        case Err(e) => return Err(e);
        case Ok(NeedMore) => return Ok(None);
        case Ok(Partial) =>
        case Ok(Complete(m)) => return Ok(Some(m));
      }
    }

    method HandleControl(m: Message) returns (r: Result<(), ChunkError>)
      requires Valid()
      modifies this
      ensures Valid() && buf == old(buf)
      ensures match Controlled(old(Value()), m)
        case Ok(d) => r.Ok? && Value() == d
        case Err(e) => r == Err(e) && Value() == old(Value())
    {
      r := Ok(());
      if m.typeId == SET_CHUNK_SIZE {
        if |m.payload| < 4 {
          return Err(ShortSetChunkSize);
        }
        r := SetChunkSize(SizeAsked(m.payload));
      } else if m.typeId == ABORT && 4 <= |m.payload| {
        Abort(Be32(m.payload[..4]));
      }
    }

    /** The session's read loop: every message there is, protocol messages taking effect
        before the next is read. */
    method Feed(data: seq<byte>) returns (messages: seq<Message>, error: Option<ChunkError>)
      requires Valid()
      modifies this
      ensures Valid()
      ensures Drained(Value(), buf, messages, error) == Drain(old(Value()), old(buf) + data)
    {
      hide Sound, ChunkDecoding.NextChunk, Controlled;
      Push(data);
      messages := [];
      ghost var d, b := Value(), buf;
      while true
        invariant Valid()
        invariant Drain(d, b) == Prefixed(messages, Drain(Value(), buf))
        decreases |buf|
      {
        DrainFirst(Value(), buf);
        var next := NextMessage();
        match next
        case Err(e) => return messages, Some(e);
        case Ok(None) => return messages, None;
        case Ok(Some(m)) =>
          messages := messages + [m];
          var handled := HandleControl(m);
          if handled.Err? {
            return messages, Some(handled.error);
          }
      }
    }

    /** Fed in any pieces, the decoder gives what it gives for all the bytes at once. */
    method FeedAll(pieces: seq<seq<byte>>) returns (messages: seq<Message>, error: Option<ChunkError>)
      requires Valid() && buf == []
      modifies this
      ensures Valid()
      ensures var whole := Drain(old(Value()), Concat(pieces));
        && messages == whole.messages && error == whole.error && Value() == whole.state
        && (error.None? ==> buf == whole.rest)
    {
      hide Sound, Drain;
      messages, error := [], None;
      ghost var d := Value();
      assert Drained(Value(), buf, messages, error) == DrainPieces(d, [], []) by {
        EmptyDrain(d);
      }
      for i := 0 to |pieces|
        invariant Valid() && error.None?
        invariant Drained(Value(), buf, messages, error) == DrainPieces(d, [], pieces[..i])
      {
        assert pieces[..i + 1][..i] == pieces[..i];
        var more;
        more, error := Feed(pieces[i]);
        messages := messages + more;
        if error.Some? {
          ErrorStays(d, pieces, i + 1);
          SplitIndependent(d, [], pieces);
          assert [] + Concat(pieces) == Concat(pieces);
          return;
        }
      }
      assert pieces[..|pieces|] == pieces;
      SplitIndependent(d, [], pieces);
      assert [] + Concat(pieces) == Concat(pieces);
    }
  }

  /** The first message in `b`, and what is left. */
  ghost function FirstMessage(d: State, b: seq<byte>): (State, seq<byte>, Result<Option<Message>, ChunkError>)
    decreases |b|
  {
    match ChunkDecoding.NextChunk(d, b)
    case NeedMore => (d, b, Ok(None))
    case Fail(e) => (d, b, Err(e))
    case Took(d', size, None) => FirstMessage(d', b[size..])
    case Took(d', size, Some(m)) => (d', b[size..], Ok(Some(m)))
  }

  ghost function Prefixed(messages: seq<Message>, r: Drained): Drained {
    r.(messages := messages + r.messages)
  }

  /** Draining is taking the first message, obeying it, and draining the rest. */
  lemma {:induction false} DrainFirst(d: State, b: seq<byte>)
    ensures var (d', rest, r) := FirstMessage(d, b);
      match r
      case Err(e) => Drain(d, b) == Drained(d', rest, [], Some(e))
      case Ok(None) => Drain(d, b) == Drained(d', rest, [], None)
      case Ok(Some(m)) =>
        && |rest| < |b|
        && match Controlled(d', m)
           case Err(e) => Drain(d, b) == Drained(d', rest, [m], Some(e))
           case Ok(next) => Drain(d, b) == After(m, Drain(next, rest))
    decreases |b|
  {
    hide ChunkDecoding.NextChunk, Controlled;
    var r := ChunkDecoding.NextChunk(d, b);
    if r.Took? && r.message.None? {
      DrainFirst(r.state, b[r.size..]);
    }
  }

  lemma {:induction false} ErrorStays(d: State, pieces: seq<seq<byte>>, n: nat)
    requires n <= |pieces| && DrainPieces(d, [], pieces[..n]).error.Some?
    ensures DrainPieces(d, [], pieces) == DrainPieces(d, [], pieces[..n])
    decreases |pieces| - n
  {
    if n == |pieces| {
      assert pieces[..n] == pieces;
    } else {
      assert pieces[..n + 1][..n] == pieces[..n];
      ErrorStays(d, pieces, n + 1);
    }
  }

  // ----- encoding ---------------------------------------------------------------------

  class ChunkEncoder {
    var chunkSize: nat

    ghost predicate Valid()
      reads this
    {
      0 < chunkSize <= MAX_CHUNK_SIZE
    }

    constructor ()
      ensures Valid() && chunkSize == 128
    {
      chunkSize := DEFAULT_CHUNK_SIZE;
    }

    method SetChunkSize(size: nat)
      modifies this
      ensures Valid()
      ensures 1 <= size <= 16_777_216 ==> chunkSize == size
      ensures size == 0 ==> chunkSize == 1
      ensures 16_777_216 < size ==> chunkSize == 16_777_216
    {
      chunkSize := if size < 1 then 1 else if MAX_CHUNK_SIZE < size then MAX_CHUNK_SIZE else size;
    }

    /** Appends a message to `out`: a full header and its first bytes, then chunk after chunk
        with the shortest header. */
    method Write(out: seq<byte>, m: Message) returns (r: seq<byte>)
      requires Valid()
      ensures r == out + Encoded(m, chunkSize)
    {
      r := WriteHeader(out, m);
      hide PutBasic, StampField, PutBe32, LaterChunks, FullHeader;
      var from := Min(chunkSize, |m.payload|);
      r := r + m.payload[..from];
      ghost var first := r;
      assert out + Encoded(m, chunkSize) == first + LaterChunks(m, chunkSize, chunkSize);
      from := chunkSize;
      while from < |m.payload|
        invariant r + LaterChunks(m, chunkSize, from) == first + LaterChunks(m, chunkSize, chunkSize)
      {
        LaterChunksStep(m, chunkSize, from, r);
        r := r + PutBasic(3, m.csid);
        r := r + StampField(m.timestamp);
        r := r + m.payload[from..Min(from + chunkSize, |m.payload|)];
        from := from + chunkSize;
      }
      LaterChunksDone(m, chunkSize, from);
      assert r + [] == r;
    }

    method WriteHeader(out: seq<byte>, m: Message) returns (r: seq<byte>)
      ensures r == out + FullHeader(m)
    {
      hide PutBasic, Put24, PutBe32, PutLe32;
      r := out + PutBasic(0, m.csid);
      r := r + Put24(if EXTENDED <= m.timestamp then EXTENDED else m.timestamp);
      r := r + Put24(|m.payload| % 0x100_0000) + [m.typeId] + PutLe32(m.streamId);
      if EXTENDED <= m.timestamp {
        r := r + PutBe32(m.timestamp);
      }
    }
  }

  lemma LaterChunksDone(m: Message, size: nat, from: nat)
    requires 0 < size && |m.payload| <= from
    ensures LaterChunks(m, size, from) == []
  {
  }
}
