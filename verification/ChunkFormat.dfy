/** The bytes of an RTMP chunk: numbers, basic headers and message headers
    (section 5.3.1 of Adobe's RTMP 1.0 specification). */
module ChunkFormat {
  import opened Bytes
  import opened Wrappers

  const DEFAULT_CHUNK_SIZE: nat := 128
  const MAX_CHUNK_SIZE: nat := 0x100_0000
  const MAX_CHUNK_STREAMS: nat := 64
  const MAX_PENDING_BYTES: nat := 64 * 1024 * 1024
  const EXTENDED: u24 := 0xFF_FFFF
  const FIRST_CSID: nat := 2
  const LAST_CSID: nat := 65599

  const SET_CHUNK_SIZE: byte := 1
  const ABORT: byte := 2
  const AUDIO: byte := 8
  const VIDEO: byte := 9

  datatype Message = Message(csid: nat, timestamp: u32, typeId: byte, streamId: u32, payload: seq<byte>)

  datatype ChunkError =
    | MissingHeader(csid: nat)
    | InvalidChunkSize(size: nat)
    | TooManyStreams
    | TooMuchPending
    | MessageTooLarge(typeId: byte, length: nat, max: nat)
    | ShortSetChunkSize

  /** Timestamps wrap at 32 bits. */
  function Add32(a: u32, b: u32): u32 { (a as int + b as int) % 0x1_0000_0000 }

  function Sub32(a: u32, b: u32): u32 { (a as int - b as int) % 0x1_0000_0000 }

  lemma AddSub32(a: u32, b: u32)
    ensures Add32(b, Sub32(a, b)) == a
  {
  }

  // ----- basic headers ----------------------------------------------------------------

  datatype Basic = Basic(fmt: nat, csid: nat, size: nat)

  /** A chunk's first one to three bytes: its header format and its chunk stream. */
  function ReadBasic(b: seq<byte>): (r: Option<Basic>)
    ensures r.Some? ==> r.value.fmt < 4 && 0 < r.value.size <= |b|
    ensures r.Some? ==> FIRST_CSID <= r.value.csid <= LAST_CSID
  {
    if b == [] then None
    else
      var fmt: nat, low: nat := b[0] / 64, b[0] % 64;
      if low == 0 then
        if |b| < 2 then None else Some(Basic(fmt, 64 + b[1] as int, 2))
      else if low == 1 then
        if |b| < 3 then None else Some(Basic(fmt, 64 + b[1] as int + (b[2] as int) * 0x100, 3))
      else Some(Basic(fmt, low, 1))
  }

  function Clamp(csid: nat): nat { if csid < 64 then 64 else if LAST_CSID < csid then LAST_CSID else csid }

  /** The shortest basic header for a chunk stream; ids a peer cannot use are moved into range. */
  function PutBasic(fmt: nat, csid: nat): (b: seq<byte>)
    requires fmt < 4
  {
    if FIRST_CSID <= csid < 64 then [fmt * 64 + csid]
    else if 64 <= csid < 320 then [fmt * 64, csid - 64]
    else [fmt * 64 + 1, (Clamp(csid) - 64) % 0x100, (Clamp(csid) - 64) / 0x100]
  }

  /** Streams 64 to 319 also have a three-byte form. */
  function PutWideBasic(fmt: nat, csid: nat): (b: seq<byte>)
    requires fmt < 4 && 64 <= csid <= LAST_CSID
  {
    [fmt * 64 + 1, (csid - 64) % 0x100, (csid - 64) / 0x100]
  }

  /** Both forms are read back as the stream they were written for, whatever follows. */
  lemma BasicRoundTrip(fmt: nat, csid: nat, tail: seq<byte>)
    requires fmt < 4
    ensures FIRST_CSID <= csid <= LAST_CSID ==>
      ReadBasic(PutBasic(fmt, csid) + tail) == Some(Basic(fmt, csid, |PutBasic(fmt, csid)|))
    ensures 64 <= csid <= LAST_CSID ==>
      ReadBasic(PutWideBasic(fmt, csid) + tail) == Some(Basic(fmt, csid, 3))
  {
    var short := PutBasic(fmt, csid) + tail;
    assert short[..|PutBasic(fmt, csid)|] == PutBasic(fmt, csid);
    if FIRST_CSID <= csid < 64 {
      assert short[0] == fmt * 64 + csid;
    } else if 64 <= csid < 320 {
      assert short[0] == fmt * 64 && short[1] == csid - 64;
    } else if csid <= LAST_CSID && 64 <= csid {
      var v := csid - 64;
      assert short[0] == fmt * 64 + 1 && short[1] == v % 0x100 && short[2] == v / 0x100;
    }
    if 64 <= csid <= LAST_CSID {
      var wide := PutWideBasic(fmt, csid) + tail;
      assert wide[0] == fmt * 64 + 1 && wide[1] == (csid - 64) % 0x100 && wide[2] == (csid - 64) / 0x100;
    }
  }

  /** More bytes do not change a basic header already read. */
  lemma BasicStable(b: seq<byte>, more: seq<byte>)
    requires ReadBasic(b).Some?
    ensures ReadBasic(b + more) == ReadBasic(b)
  {
    assert forall i :: 0 <= i < |b| ==> (b + more)[i] == b[i];
  }

  // ----- message headers --------------------------------------------------------------

  function HeaderLen(fmt: nat): nat {
    match fmt case 0 => 11 case 1 => 7 case 2 => 3 case _ => 0
  }

  /** What a Set Chunk Size message asks for (its top bit is ignored). */
  function SizeAsked(payload: seq<byte>): nat
    requires 4 <= |payload|
  {
    Be32(payload[..4]) % 0x8000_0000
  }
}
