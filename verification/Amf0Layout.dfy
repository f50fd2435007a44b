/** AMF0 byte by byte, with the markers of Adobe's AMF 0 specification written out (section 2.1):
    how each value begins and ends, and what is read of any bytes. */
module Amf0Layout {
  import opened Bytes
  import opened Amf0

  // ----- what is written --------------------------------------------------------------

  /** The marker a value begins with; strings of more than 65,535 bytes are long strings. */
  function MarkerOf(v: Value): byte {
    match v
    case Number(_) => 0
    case Boolean(_) => 1
    case String(s) => if |s| < 65_536 then 2 else 12
    case Object(_) => 3
    case Null => 5
    case Undefined => 6
    case EcmaArray(_) => 8
    case StrictArray(_) => 10
    case Date(_, _) => 11
    case LongString(_) => 12
    case TypedObject(_, _) => 16
  }

  /** What follows the marker, highest byte first: eight bytes of a number; one of a boolean; the
      length in two bytes or in four, and a string; the count in four, and an array; eight bytes
      of a time and two of its zone, as a negative number counting down from 65,536. */
  predicate Holds(v: Value, b: seq<byte>) {
    match v
    case Number(n) => |b| == 9 && b[1..] == n
    case Boolean(x) => |b| == 2 && b[1] == if x then 1 else 0
    case String(s) => if |s| < 65_536 then ShortAt(b, s) && |b| == 3 + |s| else LongAt(b, s)
    case LongString(s) => LongAt(b, s)
    case Date(millis, tz) =>
      |b| == 11 && b[1..9] == millis && Num2(b, 9) == if tz < 0 then 65_536 + tz else tz
    case Object(_) => EndsProps(b)
    case EcmaArray(props) => EndsProps(b) && 5 <= |b| && Num4(b, 1) == |props| % 4_294_967_296
    case TypedObject(name, _) => EndsProps(b) && ShortAt(b, if |name| < 65_536 then name else name[..65_535])
    case StrictArray(items) => 5 <= |b| && Num4(b, 1) == |items|
    case _ => |b| == 1
  }

  predicate ShortAt(b: seq<byte>, s: seq<byte>) {
    3 + |s| <= |b| && Num2(b, 1) == |s| && b[3..3 + |s|] == s
  }

  predicate LongAt(b: seq<byte>, s: seq<byte>) { |b| == 5 + |s| && Num4(b, 1) == |s| && b[5..] == s }

  /** Properties end with an empty name and the end marker. */
  predicate EndsProps(b: seq<byte>) { 3 <= |b| && b[|b| - 3..] == [0, 0, 9] }

  lemma WrittenLayout(v: Value)
    requires Sized(v)
    ensures Encode(v) != [] && Encode(v)[0] == MarkerOf(v) && Holds(v, Encode(v))
  {
    hide EncodeProps, EncodeItems, PutBe16, PutBe32, EncodeLong, ShortString, EndsProps, SizedProps, SizedItems,
      ShortAt, LongAt, Cut;
    match v
    case String(s) =>
      if |s| < 65_536 {
        NameWritten(2, s, []);
      } else {
        LongWritten(12, s);
      }
    case LongString(s) => LongWritten(12, s);
    case Date(millis, tz) => DateWritten(millis, tz);
    case Object(props) => PropsWritten([3], props);
    case EcmaArray(props) =>
      CountWritten(8, |props| % 0x1_0000_0000, EncodeProps(props));
      PropsWritten([8] + PutBe32(|props| % 0x1_0000_0000), props);
    case StrictArray(items) => CountWritten(10, |items| % 0x1_0000_0000, EncodeItems(items));
    case TypedObject(name, props) => NamedWritten(name, props);
    case _ =>
  }

  lemma NamedWritten(name: seq<byte>, props: seq<Property>)
    ensures var v := TypedObject(name, props); Encode(v)[0] == 16 && Holds(v, Encode(v))
  {
    hide EncodeProps, PutBe16, EndsProps, ShortAt, ShortString;
    NameWritten(16, name, EncodeProps(props));
    PropsWritten([16] + ShortString(name), props);
  }

  lemma NameWritten(marker: byte, name: seq<byte>, rest: seq<byte>)
    ensures var b := [marker] + ShortString(name) + rest;
      ShortAt(b, if |name| < 65_536 then name else name[..65_535])
    ensures |name| < 65_536 ==>
              |[marker] + ShortString(name)| == 3 + |name| && ShortAt([marker] + ShortString(name), name)
  {
    var n, s := PutBe16(|Cut(name)|), Cut(name);
    assert n == [n[0], n[1]];
    NameAt(marker, n, s, rest);
    NameAt(marker, n, s, []);
    assert [marker] + ShortString(name) == [marker] + (n + s) + [];
  }

  lemma NameAt(marker: byte, n: seq<byte>, s: seq<byte>, rest: seq<byte>)
    requires |n| == 2 && Be16(n) == |s|
    ensures ShortAt([marker] + (n + s) + rest, s)
  {
    assert n == [n[0], n[1]];
  }

  lemma LongWritten(marker: byte, s: seq<byte>)
    requires |s| < 0x1_0000_0000
    ensures LongAt([marker] + EncodeLong(s), s)
  {
    hide PutBe32;
    CountWritten(marker, |s|, s);
    assert [marker] + EncodeLong(s) == [marker] + PutBe32(|s|) + s;
  }

  lemma CountWritten(marker: byte, n: u32, rest: seq<byte>)
    ensures var b := [marker] + PutBe32(n) + rest; Num4(b, 1) == n && b[5..] == rest
  {
    var four := PutBe32(n);
    assert four == [four[0], four[1], four[2], four[3]];
  }

  lemma DateWritten(millis: double, tz: i16)
    ensures var b := [11] + millis + PutBe16(tz % 0x1_0000);
      |b| == 11 && b[1..9] == millis && Num2(b, 9) == if tz < 0 then 65_536 + tz else tz
  {
    var z := PutBe16(tz % 0x1_0000);
    assert z == [z[0], z[1]];
  }

  lemma PropsWritten(front: seq<byte>, props: seq<Property>)
    ensures EndsProps(front + EncodeProps(props))
  {
    WrittenEnd(props);
    EndStays(front, EncodeProps(props));
  }

  lemma {:induction false} WrittenEnd(props: seq<Property>)
    ensures EndsProps(EncodeProps(props))
  {
    if props != [] {
      hide Encode, ShortString, EndsProps;
      WrittenEnd(props[1..]);
      EndStays(ShortString(props[0].name) + Encode(props[0].value), EncodeProps(props[1..]));
    }
  }

  lemma EndStays(front: seq<byte>, rest: seq<byte>)
    requires EndsProps(rest)
    ensures EndsProps(front + rest)
  {
    assert (front + rest)[|front + rest| - 3..] == rest[|rest| - 3..];
  }

  // ----- what is read -----------------------------------------------------------------

  /** The marker says what a value is, and no other marker is known. */
  lemma MarkersExactly(b: seq<byte>, depth: nat)
    requires b != [] && depth <= 64
    ensures b[0] !in {0, 1, 2, 3, 5, 6, 8, 10, 11, 12, 15, 16} ==>
      ReadValue(b, depth) == Failed(UnsupportedMarker(b[0]))
    ensures ReadValue(b, depth).Got? ==>
      match ReadValue(b, depth).value
      case Number(_) => b[0] == 0
      case Boolean(_) => b[0] == 1
      case String(_) => b[0] == 2
      case Object(_) => b[0] == 3
      case Null => b[0] == 5
      case Undefined => b[0] == 6
      case EcmaArray(_) => b[0] == 8
      case StrictArray(_) => b[0] == 10
      case Date(_, _) => b[0] == 11
      case LongString(_) => b[0] == 12 || b[0] == 15
      case TypedObject(_, _) => b[0] == 16
  {
    hide ReadProps, ReadItems, ReadShort, ReadLong, ReadDate;
    assert ReadValue(b, depth) == ReadPayload(b[0], b[1..], depth);
    DateOrNot(b[1..]);
  }

  lemma DateOrNot(b: seq<byte>)
    ensures ReadDate(b).Got? ==> ReadDate(b).value.Date?
  {
  }

  /** Values without others in them are read where they lie, if all of it is there. */
  lemma ScalarsExactly(b: seq<byte>, depth: nat)
    requires b != [] && depth <= 64
    ensures b[0] == 0 ==> ReadValue(b, depth) == if |b| < 9 then Failed(Eof) else Got(Number(b[1..9]), b[9..])
    ensures b[0] == 1 ==> ReadValue(b, depth) == if |b| < 2 then Failed(Eof) else Got(Boolean(b[1] != 0), b[2..])
    ensures b[0] == 5 ==> ReadValue(b, depth) == Got(Null, b[1..])
    ensures b[0] == 6 ==> ReadValue(b, depth) == Got(Undefined, b[1..])
    ensures b[0] == 2 ==>
      ReadValue(b, depth) == if |b| < 3 || |b| - 3 < Num2(b, 1) then Failed(Eof)
                             else Got(String(b[3..3 + Num2(b, 1)]), b[3 + Num2(b, 1)..])
    ensures b[0] == 12 || b[0] == 15 ==>
      ReadValue(b, depth) == if |b| < 5 || |b| - 5 < Num4(b, 1) then Failed(Eof)
                             else Got(LongString(b[5..5 + Num4(b, 1)]), b[5 + Num4(b, 1)..])
    ensures b[0] == 11 ==>
      ReadValue(b, depth) ==
        if |b| < 11 then Failed(Eof)
        else Got(Date(b[1..9], if Num2(b, 9) < 32_768 then Num2(b, 9) else Num2(b, 9) - 65_536), b[11..])
  {
    hide ReadProps, ReadItems, ReadShort, ReadLong, ReadDate;
    assert ReadValue(b, depth) == ReadPayload(b[0], b[1..], depth);
    assert |b| >= 9 ==> b[1..][..8] == b[1..9] && b[1..][8..] == b[9..];
    ShortRead(b);
    LongRead(b);
    DateRead(b);
  }

  lemma ShortRead(b: seq<byte>)
    requires b != []
    ensures ReadShort(b[1..]) == if |b| < 3 || |b| - 3 < Num2(b, 1) then Failed(Eof)
                                 else Got(b[3..3 + Num2(b, 1)], b[3 + Num2(b, 1)..])
  {
    if 3 <= |b| {
      assert b[1..][..2] == [b[1], b[2]] && b[1..][2..] == b[3..];
      var n := Num2(b, 1);
      if n <= |b| - 3 {
        assert b[3..][..n] == b[3..3 + n] && b[3..][n..] == b[3 + n..];
      }
    }
  }

  lemma LongRead(b: seq<byte>)
    requires b != []
    ensures ReadLong(b[1..]) == if |b| < 5 || |b| - 5 < Num4(b, 1) then Failed(Eof)
                                else Got(b[5..5 + Num4(b, 1)], b[5 + Num4(b, 1)..])
  {
    if 5 <= |b| {
      assert b[1..][..4] == [b[1], b[2], b[3], b[4]] && b[1..][4..] == b[5..];
      var n := Num4(b, 1);
      if n <= |b| - 5 {
        assert b[5..][..n] == b[5..5 + n] && b[5..][n..] == b[5 + n..];
      }
    }
  }

  lemma DateRead(b: seq<byte>)
    requires b != []
    ensures ReadDate(b[1..]) ==
      if |b| < 11 then Failed(Eof)
      else Got(Date(b[1..9], if Num2(b, 9) < 32_768 then Num2(b, 9) else Num2(b, 9) - 65_536), b[11..])
  {
    if 11 <= |b| {
      var t := b[1..];
      assert t[8..10] == [b[9], b[10]] && t[10..] == b[11..] && t[..8] == b[1..9];
    }
  }

  /** An array's count of properties means nothing; one of elements must fit what is left; nothing
      more than 64 deep is read. */
  lemma ContainersExactly(b: seq<byte>, depth: nat)
    ensures b != [] && b[0] == 8 && depth <= 64 && 5 <= |b| ==>
      ReadValue(b, depth) == match ReadProps(b[5..], depth)
                             case Failed(e) => Failed(e)
                             case Got(props, rest) => Got(EcmaArray(props), rest)
    ensures b != [] && b[0] == 10 && depth <= 64 && (|b| < 5 || |b| - 5 < Num4(b, 1)) ==>
      ReadValue(b, depth) == Failed(Eof)
    ensures 64 < depth ==> ReadValue(b, depth) == Failed(TooDeep)
    ensures b == [] && depth <= 64 ==> ReadValue(b, depth) == Failed(Eof)
  {
    hide ReadProps, ReadItems;
    if b != [] && depth <= 64 {
      assert ReadValue(b, depth) == ReadPayload(b[0], b[1..], depth);
      if 5 <= |b| {
        assert b[1..][..4] == [b[1], b[2], b[3], b[4]] && b[1..][4..] == b[5..];
      }
    }
  }

  /** At the very end of the data, an object is read the same without its end marker. */
  lemma {:induction false} EndMayBeMissing(props: seq<Property>, depth: nat)
    requires SizedProps(props) && depth <= MAX_DEPTH
    ensures var b := EncodeProps(props);
      b != [] && ReadProps(b[..|b| - 1], depth) ==
        if depth + PropsDepth(props) <= MAX_DEPTH then Got(CarriedProps(props), []) else Failed(TooDeep)
    decreases props
  {
    if props == [] {
      NoPropsCut(depth);
    } else {
      hide EncodeProps, ReadProps, EndsProps;
      EndMayBeMissing(props[1..], depth);
      var rest := EncodeProps(props[1..]);
      PropsCut(props, rest[..|rest| - 1], depth);
    }
  }

  lemma NoPropsCut(depth: nat)
    ensures ReadProps([0, 0], depth) == Got([], [])
    ensures var b := EncodeProps([]); b == [0, 0, 9] && b[..|b| - 1] == [0, 0]
  {
    var cut: seq<byte> := [0, 0];
    assert cut[..2] == [0, 0] && cut[2..] == [];
    assert ReadShort(cut) == Got([], []);
  }

  lemma CutBytes(props: seq<Property>, left: seq<byte>)
    requires props != [] && EncodeProps(props[1..]) != []
    requires left == EncodeProps(props[1..])[..|EncodeProps(props[1..])| - 1]
    ensures var b := EncodeProps(props);
      b != [] && b[..|b| - 1] == ShortString(props[0].name) + (Encode(props[0].value) + left)
  {
    hide Encode, ShortString;
    CutEnd(ShortString(props[0].name), Encode(props[0].value), EncodeProps(props[1..]));
  }

  lemma CutEnd(a: seq<byte>, b: seq<byte>, c: seq<byte>)
    requires c != []
    ensures var all := a + b + c; all != [] && all[..|all| - 1] == a + (b + c[..|c| - 1])
  {
  }

  lemma PropsCut(props: seq<Property>, left: seq<byte>, depth: nat)
    requires props != [] && SizedProps(props) && depth <= MAX_DEPTH
    requires EncodeProps(props[1..]) != [] && left == EncodeProps(props[1..])[..|EncodeProps(props[1..])| - 1]
    requires ReadProps(left, depth) ==
      if depth + PropsDepth(props[1..]) <= MAX_DEPTH then Got(CarriedProps(props[1..]), []) else Failed(TooDeep)
    ensures var b := EncodeProps(props);
      b != [] && ReadProps(b[..|b| - 1], depth) ==
        if depth + PropsDepth(props) <= MAX_DEPTH then Got(CarriedProps(props), []) else Failed(TooDeep)
  {
    hide Cut, ShortString, ReadShort, ReadValue, Encode, EncodeProps, Carried, Depth, Sized, ReadProps;
    var name, v := props[0].name, props[0].value;
    ValueRoundTrip(v, depth + 1, left);
    FirstByte(v);
    ShortRoundTrip(name, Encode(v) + left);
    CutBytes(props, left);
    PropsStep(ShortString(name) + (Encode(v) + left), depth, Cut(name), Encode(v) + left);
  }
}
