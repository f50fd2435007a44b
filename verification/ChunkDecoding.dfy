/** The chunk decoder: from a byte stream that arrives in any pieces to messages, over any
    number of interleaved chunk streams. */
module ChunkDecoding {
  import opened Bytes
  import opened Wrappers
  import opened ChunkFormat

  // ----- the decoder's state ----------------------------------------------------------

  /** What is known of one chunk stream: its last header, and the message under way. */
  datatype Stream = Stream(
    timestamp: u32,
    delta: u32,
    length: u24,
    typeId: byte,
    streamId: u32,
    extended: bool,
    extValue: u32,
    partial: seq<byte>,
    inProgress: bool,
    hasHeader: bool)

  const NO_STREAM := Stream(0, 0, 0, 0, 0, false, 0, [], false, false)

  datatype State = State(
    chunkSize: nat,
    streams: map<nat, Stream>,
    pending: int,
    maxMediaLen: nat,
    maxOtherLen: nat,
    repeatsExtended: Option<bool>)
  {
    function Get(csid: nat): Stream { if csid in streams then streams[csid] else NO_STREAM }

    function MaxLen(typeId: byte): nat {
      if typeId == AUDIO || typeId == VIDEO then maxMediaLen else maxOtherLen
    }
  }

  /** The bytes each chunk stream's unfinished message has so far. */
  ghost function Unfinished(streams: map<nat, Stream>): map<nat, nat> {
    map k | k in streams :: |streams[k].partial|
  }

  ghost function Total(m: map<nat, nat>): nat
    decreases |m|
  {
    if m == map[] then 0 else
      var k :| k in m;
      m[k] + Total(m - {k})
  }

  lemma {:induction false} TotalWithout(m: map<nat, nat>, k: nat)
    requires k in m
    ensures Total(m) == m[k] + Total(m - {k})
    decreases |m|
  {
    var j :| j in m && Total(m) == m[j] + Total(m - {j});
    if j != k {
      TotalWithout(m - {j}, k);
      TotalWithout(m - {k}, j);
      assert (m - {j}) - {k} == (m - {k}) - {j};
    }
  }

  lemma TotalWith(m: map<nat, nat>, k: nat, v: nat)
    ensures Total(m[k := v]) == Total(m) - (if k in m then m[k] else 0) + v
  {
    TotalWithout(m[k := v], k);
    if k in m {
      TotalWithout(m, k);
      assert m[k := v] - {k} == m - {k};
    } else {
      assert m[k := v] - {k} == m;
    }
  }

  /** What the decoder keeps true: `pending` is exactly what unfinished messages hold and is
      within its limit, as is the number of chunk streams. */
  ghost predicate Sound(d: State) {
    && 0 < d.chunkSize <= MAX_CHUNK_SIZE
    && d.pending == Total(Unfinished(d.streams))
    && d.pending <= MAX_PENDING_BYTES
    && |d.streams| <= MAX_CHUNK_STREAMS
    && forall k :: k in d.streams ==> FIRST_CSID <= k <= LAST_CSID && SoundStream(d.streams[k])
  }

  ghost predicate SoundStream(st: Stream) {
    && st.hasHeader
    && (st.extended ==> st.extValue == st.delta)
    && (!st.inProgress ==> st.partial == [])
    && (st.inProgress ==> |st.partial| < st.length)
  }

  // ----- one chunk --------------------------------------------------------------------

  /** A chunk's header, read: what its stream becomes, where its data starts, and what it
      shows about repeated extended timestamps. */
  datatype Head =
    | Short
    | Bad(error: ChunkError)
    | Head(csid: nat, stream: Stream, continuation: bool, dataAt: nat, learned: Option<bool>)

  datatype Outcome =
    | NeedMore
    | Fail(error: ChunkError)
    | Took(state: State, size: nat, message: Option<Message>)

  /** The stream's fields as message header `h` gives them (the timestamp field apart). */
  function WithHeader(st: Stream, fmt: nat, h: seq<byte>): Stream
    requires |h| == HeaderLen(fmt)
  {
    var st1 := if fmt <= 1 then st.(length := U24(h[3..6]), typeId := h[6]) else st;
    if fmt == 0 then st1.(streamId := Le32(h[7..11])) else st1
  }

  /** The stream's timestamps once a new message's timestamp `raw` has come. */
  function WithTimestamp(st: Stream, fmt: nat, raw: u32, extended: bool): Stream {
    if fmt == 0 then st.(timestamp := raw, delta := raw)
    else
      var delta := if fmt < 3 || extended then raw else st.delta;
      st.(timestamp := Add32(st.timestamp, delta), delta := delta)
  }

  /** The header of a chunk that starts a new message; an extended timestamp comes at `pos`. */
  function ReadNew(st: Stream, fmt: nat, csid: nat, h: seq<byte>, b: seq<byte>, pos: nat): Head
    requires |h| == HeaderLen(fmt) && pos <= |b|
  {
    var field: u32 := if fmt <= 2 then U24(h[..3]) else 0;
    var extended := if fmt <= 2 then field == EXTENDED else st.extended;
    if extended && |b| < pos + 4 then Short
    else
      var extValue := if extended then Be32(b[pos..pos + 4]) else st.extValue;
      var timed := WithTimestamp(st, fmt, if extended then extValue else field, extended);
      Head(csid,
           timed.(extended := extended, extValue := extValue, partial := [], inProgress := true, hasHeader := true),
           false, if extended then pos + 4 else pos, None)
  }

  /** The header of a chunk that continues a message: whether the extended timestamp is
      repeated is taken from what the peer has shown, or else from whether it matches. */
  function ReadContinuation(st: Stream, csid: nat, b: seq<byte>, pos: nat, repeats: Option<bool>): Head
    requires pos <= |b|
  {
    if !st.extended || repeats == Some(false) then Head(csid, st, true, pos, None)
    else if |b| < pos + 4 then Short
    else if repeats == Some(true) then Head(csid, st, true, pos + 4, None)
    else
      var repeated := Be32(b[pos..pos + 4]) == st.extValue;
      Head(csid, st, true, if repeated then pos + 4 else pos, Some(repeated))
  }

  function ReadHead(d: State, b: seq<byte>): Head {
    match ReadBasic(b)
    case None => Short
    case Some(Basic(fmt, csid, size)) =>
      var pos := size + HeaderLen(fmt);
      if |b| < pos then Short
      else ReadAfterBasic(d, fmt, csid, b[size..pos], b, pos)
  }

  /** The rest of a chunk header, its basic header and its message header `h` being there. */
  function ReadAfterBasic(d: State, fmt: nat, csid: nat, h: seq<byte>, b: seq<byte>, pos: nat): Head
    requires |h| == HeaderLen(fmt) && pos <= |b|
  {
    var st := d.Get(csid);
    if fmt != 0 && !st.hasHeader then Bad(MissingHeader(csid))
    else if csid !in d.streams && MAX_CHUNK_STREAMS <= |d.streams| then Bad(TooManyStreams)
    else if fmt == 3 && st.inProgress then ReadContinuation(st, csid, b, pos, d.repeatsExtended)
    else
      var next := WithHeader(st, fmt, h);
      var max := d.MaxLen(next.typeId);
      if max < next.length then Bad(MessageTooLarge(next.typeId, next.length, max))
      else ReadNew(next, fmt, csid, h, b, pos)
  }

  /** How much data the chunk with header `h` has. */
  function DataLen(h: Head, chunkSize: nat): nat
    requires h.Head?
  {
    var remaining := if h.stream.length < |h.stream.partial| then 0 else h.stream.length - |h.stream.partial|;
    if remaining < chunkSize then remaining else chunkSize
  }

  /** What a new message on its stream discards: the unfinished one it replaces. */
  function Discarded(d: State, h: Head): nat
    requires h.Head?
  {
    if h.continuation then 0 else |d.Get(h.csid).partial|
  }

  /** The state once the chunk with header `h` and data `data` is in. */
  function Commit(d: State, h: Head, data: seq<byte>): (r: (State, Option<Message>))
    requires h.Head?
  {
    var partial := h.stream.partial + data;
    var pending := d.pending - Discarded(d, h) + |data|;
    var d' := d.(repeatsExtended := if h.learned.Some? then h.learned else d.repeatsExtended);
    if h.stream.length <= |partial| then
      (d'.(streams := d.streams[h.csid := h.stream.(partial := [], inProgress := false)],
           pending := pending - |partial|),
       Some(Message(h.csid, h.stream.timestamp, h.stream.typeId, h.stream.streamId, partial)))
    else
      (d'.(streams := d.streams[h.csid := h.stream.(partial := partial)], pending := pending), None)
  }

  /** The chunk whose header is `h`, once all of it is in `b`. */
  function TakeData(d: State, h: Head, b: seq<byte>): Outcome
    requires h.Head?
  {
    var end := h.dataAt + DataLen(h, d.chunkSize);
    if |b| < end then NeedMore
    else if MAX_PENDING_BYTES < d.pending - Discarded(d, h) + DataLen(h, d.chunkSize) then Fail(TooMuchPending)
    else
      var committed := Commit(d, h, b[h.dataAt..end]);
      Took(committed.0, end, committed.1)
  }

  /** The next chunk in `b`. */
  function NextChunk(d: State, b: seq<byte>): (r: Outcome)
    ensures r.Took? ==> 0 < r.size <= |b|
  {
    match ReadHead(d, b)
    case Short => NeedMore
    case Bad(e) => Fail(e)
    case Head(csid, st, continuation, pos, learned) =>
      HeadHasSize(d, b);
      TakeData(d, Head(csid, st, continuation, pos, learned), b)
  }

  lemma HeadHasSize(d: State, b: seq<byte>)
    ensures ReadHead(d, b).Head? ==> 0 < ReadHead(d, b).dataAt
  {
  }

  // ----- between messages -------------------------------------------------------------

  function Resized(d: State, size: nat): Result<State, ChunkError> {
    if size == 0 || MAX_CHUNK_SIZE < size then Err(InvalidChunkSize(size)) else Ok(d.(chunkSize := size))
  }

  /** Drops the unfinished message of a chunk stream. */
  function Aborted(d: State, csid: nat): State {
    if csid !in d.streams then d
    else
      var st := d.streams[csid];
      d.(streams := d.streams[csid := st.(partial := [], inProgress := false)], pending := d.pending - |st.partial|)
  }

  /** The protocol messages that change how later chunks are read. */
  function Controlled(d: State, m: Message): Result<State, ChunkError> {
    if m.typeId == SET_CHUNK_SIZE then
      if |m.payload| < 4 then Err(ShortSetChunkSize) else Resized(d, SizeAsked(m.payload))
    else if m.typeId == ABORT && 4 <= |m.payload| then Ok(Aborted(d, Be32(m.payload[..4])))
    else Ok(d)
  }

  // ----- what the state keeps ---------------------------------------------------------

  lemma ReadHeadKeeps(d: State, b: seq<byte>)
    requires Sound(d) && ReadHead(d, b).Head?
    ensures var h := ReadHead(d, b);
      && FIRST_CSID <= h.csid <= LAST_CSID
      && (h.csid in d.streams || |d.streams| < MAX_CHUNK_STREAMS)
      && (h.continuation ==> h.csid in d.streams && h.stream == d.streams[h.csid])
      && (!h.continuation ==> h.stream.partial == [])
      && h.stream.inProgress && h.stream.hasHeader
      && (h.stream.extended ==> h.stream.extValue == h.stream.delta)
  {
  }

  lemma UnfinishedWith(streams: map<nat, Stream>, csid: nat, st: Stream)
    ensures Unfinished(streams[csid := st]) == Unfinished(streams)[csid := |st.partial|]
    ensures csid in Unfinished(streams) <==> csid in streams
    ensures csid in streams ==> Unfinished(streams)[csid] == |streams[csid].partial|
  {
  }

  lemma CountWith(streams: map<nat, Stream>, csid: nat, st: Stream)
    ensures |streams[csid := st]| == |streams| + if csid in streams then 0 else 1
  {
    assert streams[csid := st].Keys == streams.Keys + {csid};
    assert |streams[csid := st]| == |streams[csid := st].Keys| && |streams| == |streams.Keys|;
  }

  /** One stream changed, and `pending` with it. */
  lemma StreamChanged(d: State, csid: nat, st: Stream, d': State)
    requires Sound(d) && SoundStream(st) && FIRST_CSID <= csid <= LAST_CSID
    requires csid in d.streams || |d.streams| < MAX_CHUNK_STREAMS
    requires d'.streams == d.streams[csid := st] && d'.chunkSize == d.chunkSize
    requires d'.pending == d.pending - |d.Get(csid).partial| + |st.partial| <= MAX_PENDING_BYTES
    ensures Sound(d')
  {
    UnfinishedWith(d.streams, csid, st);
    TotalWith(Unfinished(d.streams), csid, |st.partial|);
    CountWith(d.streams, csid, st);
    hide SoundStream, Unfinished, Total;
  }

  lemma CommitKeeps(d: State, h: Head, data: seq<byte>)
    requires Sound(d) && h.Head?
    requires FIRST_CSID <= h.csid <= LAST_CSID
    requires h.csid in d.streams || |d.streams| < MAX_CHUNK_STREAMS
    requires h.continuation ==> h.csid in d.streams && h.stream == d.streams[h.csid]
    requires !h.continuation ==> h.stream.partial == []
    requires h.stream.hasHeader && h.stream.inProgress
    requires h.stream.extended ==> h.stream.extValue == h.stream.delta
    requires d.pending - Discarded(d, h) + |data| <= MAX_PENDING_BYTES
    ensures Sound(Commit(d, h, data).0)
  {
    hide Sound;
    var d' := Commit(d, h, data).0;
    StreamChanged(d, h.csid, d'.streams[h.csid], d');
  }

  /** Every chunk taken keeps `pending` exact and within its limit. */
  lemma NextChunkKeeps(d: State, b: seq<byte>)
    requires Sound(d) && NextChunk(d, b).Took?
    ensures Sound(NextChunk(d, b).state)
  {
    hide Sound, ReadHead, Commit, SoundStream;
    var h := ReadHead(d, b);
    ReadHeadKeeps(d, b);
    CommitKeeps(d, h, b[h.dataAt..h.dataAt + DataLen(h, d.chunkSize)]);
  }

  lemma ControlledKeeps(d: State, m: Message)
    requires Sound(d) && Controlled(d, m).Ok?
    ensures Sound(Controlled(d, m).value)
  {
    if m.typeId == ABORT && 4 <= |m.payload| && Be32(m.payload[..4]) in d.streams {
      var csid: nat := Be32(m.payload[..4]);
      var st := d.streams[csid];
      StreamChanged(d, csid, st.(partial := [], inProgress := false), Aborted(d, csid));
    }
  }

  // ----- all there is to read ---------------------------------------------------------

  datatype Drained = Drained(state: State, rest: seq<byte>, messages: seq<Message>, error: Option<ChunkError>)

  /** Every message in `b`, up to the first error: each chunk in turn, with protocol messages
      taking effect before the next chunk is read. */
  function Drain(d: State, b: seq<byte>): Drained
    decreases |b|
  {
    match NextChunk(d, b)
    case NeedMore => Drained(d, b, [], None)
    case Fail(e) => Drained(d, b, [], Some(e))
    case Took(d', size, None) => Drain(d', b[size..])
    case Took(d', size, Some(m)) =>
      match Controlled(d', m)
      case Err(e) => Drained(d', b[size..], [m], Some(e))
      case Ok(next) => After(m, Drain(next, b[size..]))
  }

  function After(m: Message, r: Drained): Drained { r.(messages := [m] + r.messages) }

  lemma EmptyDrain(d: State)
    ensures Drain(d, []) == Drained(d, [], [], None)
  {
  }

  lemma {:induction false} DrainKeeps(d: State, b: seq<byte>)
    requires Sound(d)
    ensures Sound(Drain(d, b).state)
    decreases |b|
  {
    hide Sound, NextChunk, Controlled;
    var r := NextChunk(d, b);
    if r.Took? {
      NextChunkKeeps(d, b);
      if r.message.None? {
        DrainKeeps(r.state, b[r.size..]);
      } else if Controlled(r.state, r.message.value).Ok? {
        ControlledKeeps(r.state, r.message.value);
        DrainKeeps(Controlled(r.state, r.message.value).value, b[r.size..]);
      }
    }
  }

  // ----- however the bytes are split --------------------------------------------------

  lemma ReadHeadStable(d: State, b: seq<byte>, more: seq<byte>)
    requires !ReadHead(d, b).Short?
    ensures ReadHead(d, b + more) == ReadHead(d, b)
  {
    BasicStable(b, more);
    var basic := ReadBasic(b).value;
    var pos := basic.size + HeaderLen(basic.fmt);
    assert (b + more)[basic.size..pos] == b[basic.size..pos];
    if pos + 4 <= |b| {
      assert (b + more)[pos..pos + 4] == b[pos..pos + 4];
    }
  }

  /** Bytes that come later change neither a chunk that is all there nor an error already there. */
  lemma NextChunkStable(d: State, b: seq<byte>, more: seq<byte>)
    requires !NextChunk(d, b).NeedMore?
    ensures NextChunk(d, b + more) == NextChunk(d, b)
  {
    hide ReadHead, Commit, DataLen;
    ReadHeadStable(d, b, more);
    var h := ReadHead(d, b);
    if h.Head? {
      var end := h.dataAt + DataLen(h, d.chunkSize);
      if end <= |b| {
        assert (b + more)[h.dataAt..end] == b[h.dataAt..end];
      }
    }
  }

  /** Draining what is there and then what comes is draining all of it. */
  function Then(r: Drained, more: seq<byte>): Drained {
    if r.error.Some? then r.(rest := r.rest + more)
    else
      var r' := Drain(r.state, r.rest + more);
      r'.(messages := r.messages + r'.messages)
  }

  lemma {:induction false} DrainSplit(d: State, b: seq<byte>, more: seq<byte>)
    ensures Drain(d, b + more) == Then(Drain(d, b), more)
    decreases |b|
  {
    hide NextChunk, Controlled;
    var r := NextChunk(d, b);
    if !r.NeedMore? {
      NextChunkStable(d, b, more);
    }
    if r.Took? {
      assert (b + more)[r.size..] == b[r.size..] + more;
      if r.message.None? {
        DrainSplit(r.state, b[r.size..], more);
      } else {
        match Controlled(r.state, r.message.value)
        case Err(_) =>
        case Ok(next) =>
          DrainSplit(next, b[r.size..], more);
          var tail := Drain(next, b[r.size..]);
          if tail.error.None? {
            var later := Drain(tail.state, tail.rest + more);
            assert [r.message.value] + (tail.messages + later.messages)
                == ([r.message.value] + tail.messages) + later.messages;
          }
      }
    }
  }

  function Concat(pieces: seq<seq<byte>>): seq<byte> {
    if pieces == [] then [] else Concat(pieces[..|pieces| - 1]) + pieces[|pieces| - 1]
  }

  /** Draining after each piece, and stopping at the first error. */
  function DrainPieces(d: State, b: seq<byte>, pieces: seq<seq<byte>>): Drained {
    if pieces == [] then Drain(d, b)
    else
      var r := DrainPieces(d, b, pieces[..|pieces| - 1]);
      if r.error.Some? then r else Then(r, pieces[|pieces| - 1])
  }

  /** The same bytes in any pieces give the same messages, the same first error and the same
      state; without an error, the same bytes are left over. */
  lemma {:induction false} SplitIndependent(d: State, b: seq<byte>, pieces: seq<seq<byte>>)
    ensures var whole, split := Drain(d, b + Concat(pieces)), DrainPieces(d, b, pieces);
      && split.messages == whole.messages
      && split.error == whole.error
      && split.state == whole.state
      && (whole.error.None? ==> split.rest == whole.rest)
    decreases |pieces|
  {
    hide Drain;
    if pieces == [] {
      assert b + Concat(pieces) == b;
    } else {
      var front, last := pieces[..|pieces| - 1], pieces[|pieces| - 1];
      SplitIndependent(d, b, front);
      assert b + Concat(pieces) == (b + Concat(front)) + last;
      DrainSplit(d, b + Concat(front), last);
    }
  }
}
