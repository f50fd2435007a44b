/** AMF0, the format of RTMP commands and metadata (section 2 of Adobe's AMF 0
    specification): values to bytes and back. */
module Amf0 {
  import opened Bytes
  import opened Wrappers

  const MAX_DEPTH: nat := 64
  const MAX_SHORT: nat := 0xFFFF
  const PROPS_END: byte := 0x09

  /** A floating-point number as its eight bytes. */
  type double = b: seq<byte> | |b| == 8 witness [0, 0, 0, 0, 0, 0, 0, 0]

  type i16 = x: int | -0x8000 <= x < 0x8000

  /** A value; strings are byte strings, and properties keep their order. */
  datatype Value =
    | Number(n: double)
    | Boolean(b: bool)
    | String(s: seq<byte>)
    | Object(props: seq<Property>)
    | Null
    | Undefined
    | EcmaArray(props: seq<Property>)
    | StrictArray(items: seq<Value>)
    | Date(millis: double, tz: i16)
    | LongString(s: seq<byte>)
    | TypedObject(className: seq<byte>, props: seq<Property>)

  datatype Property = Property(name: seq<byte>, value: Value)

  datatype Amf0Error = Eof | UnsupportedMarker(marker: byte) | TooDeep

  // ----- encoding ---------------------------------------------------------------------

  function Cut(s: seq<byte>): (r: seq<byte>)
    ensures |r| <= MAX_SHORT && r <= s && (|s| <= MAX_SHORT ==> r == s)
  {
    if |s| <= MAX_SHORT then s else s[..MAX_SHORT]
  }

  function ShortString(s: seq<byte>): seq<byte> { PutBe16(|Cut(s)|) + Cut(s) }

  function EncodeLong(s: seq<byte>): seq<byte> { PutBe32(|s| % 0x1_0000_0000) + s }

  function Encode(v: Value): seq<byte> {
    match v
    case Number(n) => [0x00] + n
    case Boolean(b) => [0x01, if b then 1 else 0]
    case String(s) => if |s| <= MAX_SHORT then [0x02] + ShortString(s) else [0x0c] + EncodeLong(s)
    case Object(props) => [0x03] + EncodeProps(props)
    case Null => [0x05]
    case Undefined => [0x06]
    case EcmaArray(props) => [0x08] + PutBe32(|props| % 0x1_0000_0000) + EncodeProps(props)
    case StrictArray(items) => [0x0a] + PutBe32(|items| % 0x1_0000_0000) + EncodeItems(items)
    case Date(millis, tz) => [0x0b] + millis + PutBe16(tz % 0x1_0000)
    case LongString(s) => [0x0c] + EncodeLong(s)
    case TypedObject(name, props) => [0x10] + ShortString(name) + EncodeProps(props)
  }

  function EncodeProps(props: seq<Property>): seq<byte> {
    if props == [] then [0, 0, PROPS_END]
    else ShortString(props[0].name) + Encode(props[0].value) + EncodeProps(props[1..])
  }

  function EncodeItems(items: seq<Value>): seq<byte> {
    if items == [] then [] else Encode(items[0]) + EncodeItems(items[1..])
  }

  // ----- decoding ---------------------------------------------------------------------

  /** What was read, and the bytes after it. */
  datatype Read<+T> = Got(value: T, rest: seq<byte>) | Failed(error: Amf0Error)

  function Prepended<T>(front: seq<T>, r: Read<seq<T>>): Read<seq<T>> {
    match r
    case Failed(e) => Failed(e)
    case Got(v, rest) => Got(front + v, rest)
  }

  lemma PrependedMore<T>(front: seq<T>, x: T, r: Read<seq<T>>)
    ensures Prepended([], r) == r
    ensures Prepended(front, Prepended([x], r)) == Prepended(front + [x], r)
  {
    if r.Got? {
      assert [] + r.value == r.value;
      assert front + ([x] + r.value) == (front + [x]) + r.value;
    }
  }

  function ReadBytes(b: seq<byte>, n: nat): Read<seq<byte>> {
    if |b| < n then Failed(Eof) else Got(b[..n], b[n..])
  }

  function ReadShort(b: seq<byte>): Read<seq<byte>> {
    if |b| < 2 then Failed(Eof) else ReadBytes(b[2..], Be16(b[..2]))
  }

  function ReadLong(b: seq<byte>): Read<seq<byte>> {
    if |b| < 4 then Failed(Eof) else ReadBytes(b[4..], Be32(b[..4]))
  }

  /** Properties up to an empty name followed by the end marker or by nothing at all. */
  function ReadProps(b: seq<byte>, depth: nat): (r: Read<seq<Property>>)
    ensures r.Got? ==> |r.rest| < |b|
    decreases |b|, 1
  {
    match ReadShort(b)
    case Failed(e) => Failed(e)
    case Got(name, rest) =>
      if name == [] && rest == [] then Got([], [])
      else if name == [] && rest[0] == PROPS_END then Got([], rest[1..])
      else
        match ReadValue(rest, depth + 1)
        case Failed(e) => Failed(e)
        case Got(v, rest') => Prepended([Property(name, v)], ReadProps(rest', depth))
  }

  function ReadItems(b: seq<byte>, n: nat, depth: nat): (r: Read<seq<Value>>)
    ensures r.Got? ==> |r.rest| <= |b|
    decreases |b|, 1
  {
    if n == 0 then Got([], b)
    else
      match ReadValue(b, depth + 1)
      case Failed(e) => Failed(e)
      case Got(v, rest) => Prepended([v], ReadItems(rest, n - 1, depth))
  }

  function ReadDate(b: seq<byte>): Read<Value> {
    if |b| < 10 then Failed(Eof)
    else
      var tz: int := Be16(b[8..10]);
      Got(Date(b[..8], if tz < 0x8000 then tz else tz - 0x1_0000), b[10..])
  }

  function ReadValue(b: seq<byte>, depth: nat): (r: Read<Value>)
    ensures r.Got? ==> |r.rest| < |b|
    decreases |b|, 0
  {
    if MAX_DEPTH < depth then Failed(TooDeep)
    else if b == [] then Failed(Eof)
    else ReadPayload(b[0], b[1..], depth)
  }

  /** What follows a marker. */
  function ReadPayload(marker: byte, t: seq<byte>, depth: nat): (r: Read<Value>)
    ensures r.Got? ==> |r.rest| <= |t|
    decreases |t|, 2
  {
    if marker == 0x00 then if |t| < 8 then Failed(Eof) else Got(Number(t[..8]), t[8..])
    else if marker == 0x01 then if t == [] then Failed(Eof) else Got(Boolean(t[0] != 0), t[1..])
    else if marker == 0x02 then Mapped(ReadShort(t), s => String(s))
    else if marker == 0x03 then Mapped(ReadProps(t, depth), props => Object(props))
    else if marker == 0x05 then Got(Null, t)
    else if marker == 0x06 then Got(Undefined, t)
    else if marker == 0x08 then
      if |t| < 4 then Failed(Eof) else Mapped(ReadProps(t[4..], depth), props => EcmaArray(props))
    else if marker == 0x0a then
      if |t| < 4 || |t| - 4 < Be32(t[..4]) then Failed(Eof)
      else Mapped(ReadItems(t[4..], Be32(t[..4]), depth), items => StrictArray(items))
    else if marker == 0x0b then ReadDate(t)
    else if marker == 0x0c || marker == 0x0f then Mapped(ReadLong(t), s => LongString(s))
    else if marker == 0x10 then
      match ReadShort(t)
      case Failed(e) => Failed(e)
      case Got(name, rest) => Mapped(ReadProps(rest, depth), props => TypedObject(name, props))
    else Failed(UnsupportedMarker(marker))
  }

  function Mapped<T, U>(r: Read<T>, f: T -> U): Read<U> {
    match r
    case Failed(e) => Failed(e)
    case Got(v, rest) => Got(f(v), rest)
  }

  /** Every value in `b`. */
  function DecodeAll(b: seq<byte>): Result<seq<Value>, Amf0Error>
    decreases |b|
  {
    if b == [] then Ok([])
    else
      match ReadValue(b, 0)
      case Failed(e) => Err(e)
      case Got(v, rest) =>
        match DecodeAll(rest)
        case Err(e) => Err(e)
        case Ok(vs) => Ok([v] + vs)
  }

  /** The first value in `b`, and how many bytes it took. */
  function DecodeOne(b: seq<byte>): Result<(Value, nat), Amf0Error> {
    match ReadValue(b, 0)
    case Failed(e) => Err(e)
    case Got(v, rest) => Ok((v, |b| - |rest|))
  }

  function EncodeAll(vs: seq<Value>): seq<byte> {
    if vs == [] then [] else Encode(vs[0]) + EncodeAll(vs[1..])
  }

  // ----- what comes back --------------------------------------------------------------

  /** How deep a value nests: containers without contents, like other values, do not. */
  function Depth(v: Value): nat {
    match v
    case Object(props) => PropsDepth(props)
    case EcmaArray(props) => PropsDepth(props)
    case TypedObject(_, props) => PropsDepth(props)
    case StrictArray(items) => ItemsDepth(items)
    case _ => 0
  }

  function Max(a: nat, b: nat): nat { if a < b then b else a }

  function PropsDepth(props: seq<Property>): nat {
    if props == [] then 0 else Max(1 + Depth(props[0].value), PropsDepth(props[1..]))
  }

  function ItemsDepth(items: seq<Value>): nat {
    if items == [] then 0 else Max(1 + Depth(items[0]), ItemsDepth(items[1..]))
  }

  /** The value as the format can carry it: names cut to 65,535 bytes, and strings longer than
      that as long strings. */
  function Carried(v: Value): Value {
    match v
    case String(s) => if |s| <= MAX_SHORT then v else LongString(s)
    case Object(props) => Object(CarriedProps(props))
    case EcmaArray(props) => EcmaArray(CarriedProps(props))
    case StrictArray(items) => StrictArray(CarriedItems(items))
    case TypedObject(name, props) => TypedObject(Cut(name), CarriedProps(props))
    case _ => v
  }

  function CarriedProps(props: seq<Property>): (r: seq<Property>)
    ensures |r| == |props|
  {
    if props == [] then []
    else [Property(Cut(props[0].name), Carried(props[0].value))] + CarriedProps(props[1..])
  }

  function CarriedItems(items: seq<Value>): (r: seq<Value>)
    ensures |r| == |items|
  {
    if items == [] then [] else [Carried(items[0])] + CarriedItems(items[1..])
  }

  /** Strings and strict arrays whose lengths fit their 32-bit counts. */
  predicate Sized(v: Value) {
    match v
    case String(s) => |s| < 0x1_0000_0000
    case LongString(s) => |s| < 0x1_0000_0000
    case Object(props) => SizedProps(props)
    case EcmaArray(props) => SizedProps(props)
    case TypedObject(_, props) => SizedProps(props)
    case StrictArray(items) => |items| < 0x1_0000_0000 && SizedItems(items)
    case _ => true
  }

  predicate SizedProps(props: seq<Property>) {
    props == [] || (Sized(props[0].value) && SizedProps(props[1..]))
  }

  predicate SizedItems(items: seq<Value>) {
    items == [] || (Sized(items[0]) && SizedItems(items[1..]))
  }

  // ----- the round trip ---------------------------------------------------------------

  lemma Joined(a: seq<byte>, b: seq<byte>, n: nat)
    requires n == |a|
    ensures (a + b)[..n] == a && (a + b)[n..] == b
  {
  }

  lemma ShortRoundTrip(s: seq<byte>, tail: seq<byte>)
    ensures ReadShort(ShortString(s) + tail) == Got(Cut(s), tail)
  {
    var b := ShortString(s) + tail;
    assert b == PutBe16(|Cut(s)|) + (Cut(s) + tail);
    Joined(PutBe16(|Cut(s)|), Cut(s) + tail, 2);
    Joined(Cut(s), tail, |Cut(s)|);
  }

  lemma LongRoundTrip(s: seq<byte>, tail: seq<byte>)
    requires |s| < 0x1_0000_0000
    ensures ReadLong(EncodeLong(s) + tail) == Got(s, tail)
  {
    hide Be32, PutBe32;
    assert EncodeLong(s) + tail == PutBe32(|s|) + (s + tail);
    Joined(PutBe32(|s|), s + tail, 4);
    Joined(s, tail, |s|);
  }

  lemma {:induction false} ItemsNotEmpty(items: seq<Value>)
    ensures |items| <= |EncodeItems(items)|
  {
    if items != [] {
      ItemsNotEmpty(items[1..]);
      FirstByte(items[0]);
    }
  }

  lemma FirstByte(v: Value)
    ensures Encode(v) != [] && Encode(v)[0] != PROPS_END
  {
    hide PutBe16, PutBe32, Cut;
  }

  /** A value comes back as carried, with exactly its own bytes consumed, when its nesting
      is within the limit; otherwise it is too deep. */
  lemma {:induction false} ValueRoundTrip(v: Value, depth: nat, tail: seq<byte>)
    requires Sized(v)
    ensures ReadValue(Encode(v) + tail, depth) ==
      if depth + Depth(v) <= MAX_DEPTH then Got(Carried(v), tail) else Failed(TooDeep)
    decreases v, 2
  {
    hide Encode, Carried, Depth, Sized, ReadPayload;
    if depth <= MAX_DEPTH {
      FirstByte(v);
      var b := Encode(v) + tail;
      var t := Encode(v)[1..] + tail;
      assert b == [Encode(v)[0]] + t;
      assert b[1..] == t && b[0] == Encode(v)[0];
      PayloadRoundTrip(v, depth, tail);
    }
  }

  /** The same, after the marker. */
  lemma {:induction false} PayloadRoundTrip(v: Value, depth: nat, tail: seq<byte>)
    requires Sized(v) && depth <= MAX_DEPTH && Encode(v) != []
    ensures ReadPayload(Encode(v)[0], Encode(v)[1..] + tail, depth) ==
      if depth + Depth(v) <= MAX_DEPTH then Got(Carried(v), tail) else Failed(TooDeep)
    decreases v, 1
  {
    hide PutBe16, PutBe32, Be16, Be32, Cut, ReadDate, ReadShort, ReadLong, ShortString, EncodeLong,
      ReadProps, ReadItems, EncodeProps, EncodeItems;
    var t := Encode(v)[1..] + tail;
    match v
    case Number(n) =>
      Joined(n, tail, 8);
    case Boolean(b) =>
    case String(s) =>
      if |s| <= MAX_SHORT {
        ShortRoundTrip(s, tail);
      } else {
        LongRoundTrip(s, tail);
      }
    case Null =>
    case Undefined =>
    case Date(millis, tz) =>
      assert t == millis + PutBe16(tz % 0x1_0000) + tail;
      DateRoundTrip(millis, tz, tail);
    case LongString(s) =>
      LongRoundTrip(s, tail);
    case _ =>
      ContainerRoundTrip(v, depth, tail);
  }

  lemma {:induction false} ContainerRoundTrip(v: Value, depth: nat, tail: seq<byte>)
    requires v.Object? || v.EcmaArray? || v.StrictArray? || v.TypedObject?
    requires Sized(v) && depth <= MAX_DEPTH && Encode(v) != []
    ensures ReadPayload(Encode(v)[0], Encode(v)[1..] + tail, depth) ==
      if depth + Depth(v) <= MAX_DEPTH then Got(Carried(v), tail) else Failed(TooDeep)
    decreases v, 0
  {
    hide PutBe16, PutBe32, Be16, Be32, Cut, ReadDate, ReadShort, ReadLong, ShortString, EncodeLong,
      ReadProps, ReadItems, EncodeProps, EncodeItems;
    var t := Encode(v)[1..] + tail;
    match v
    case Object(props) =>
      PropsRoundTrip(props, depth, tail);
    case EcmaArray(props) =>
      var count := PutBe32(|props| % 0x1_0000_0000);
      assert t == count + (EncodeProps(props) + tail);
      Joined(count, EncodeProps(props) + tail, 4);
      PropsRoundTrip(props, depth, tail);
    case StrictArray(items) =>
      assert t == PutBe32(|items|) + (EncodeItems(items) + tail);
      Joined(PutBe32(|items|), EncodeItems(items) + tail, 4);
      ItemsNotEmpty(items);
      ItemsRoundTrip(items, depth, tail);
    case TypedObject(name, props) =>
      assert t == ShortString(name) + (EncodeProps(props) + tail);
      ShortRoundTrip(name, EncodeProps(props) + tail);
      PropsRoundTrip(props, depth, tail);
  }

  lemma DateRoundTrip(millis: double, tz: i16, tail: seq<byte>)
    ensures ReadDate(millis + PutBe16(tz % 0x1_0000) + tail) == Got(Date(millis, tz), tail)
  {
    var z := PutBe16(tz % 0x1_0000);
    var b := millis + z + tail;
    assert b[..8] == millis && b[8..10] == z && b[10..] == tail;
  }

  lemma {:induction false} PropsRoundTrip(props: seq<Property>, depth: nat, tail: seq<byte>)
    requires SizedProps(props) && depth <= MAX_DEPTH
    ensures ReadProps(EncodeProps(props) + tail, depth) ==
      if depth + PropsDepth(props) <= MAX_DEPTH then Got(CarriedProps(props), tail) else Failed(TooDeep)
    decreases props, 0
  {
    if props == [] {
      NoPropsRoundTrip(depth, tail);
    } else {
      var name, v, rest := props[0].name, props[0].value, EncodeProps(props[1..]) + tail;
      ValueRoundTrip(v, depth + 1, rest);
      PropsRoundTrip(props[1..], depth, tail);
      FirstByte(v);
      ShortRoundTrip(name, Encode(v) + rest);
      PropsBytes(props, tail);
      PropsStep(EncodeProps(props) + tail, depth, Cut(name), Encode(v) + rest);
      hide Cut, ShortString, ReadShort, ReadValue, Encode, EncodeProps, Carried, Depth, Sized, ReadProps;
    }
  }

  lemma PropsBytes(props: seq<Property>, tail: seq<byte>)
    requires props != []
    ensures EncodeProps(props) + tail
      == ShortString(props[0].name) + (Encode(props[0].value) + (EncodeProps(props[1..]) + tail))
  {
    hide ShortString, Encode;
  }

  lemma PropsStep(b: seq<byte>, depth: nat, name: seq<byte>, rest: seq<byte>)
    requires ReadShort(b) == Got(name, rest) && rest != [] && rest[0] != PROPS_END
    ensures var v := ReadValue(rest, depth + 1);
      ReadProps(b, depth) ==
      if v.Failed? then Failed(v.error) else Prepended([Property(name, v.value)], ReadProps(v.rest, depth))
  {
    hide ReadShort, ReadValue;
  }

  lemma NoPropsRoundTrip(depth: nat, tail: seq<byte>)
    ensures ReadProps(EncodeProps([]) + tail, depth) == Got([], tail)
  {
    var b := EncodeProps([]) + tail;
    EmptyName();
    ShortRoundTrip([], [PROPS_END] + tail);
    assert b == ShortString([]) + ([PROPS_END] + tail);
    assert ([PROPS_END] + tail)[1..] == tail;
  }

  lemma EmptyName()
    ensures ShortString([]) == [0, 0] && Cut([]) == []
  {
  }

  lemma {:induction false} ItemsRoundTrip(items: seq<Value>, depth: nat, tail: seq<byte>)
    requires SizedItems(items) && depth <= MAX_DEPTH
    ensures ReadItems(EncodeItems(items) + tail, |items|, depth) ==
      if depth + ItemsDepth(items) <= MAX_DEPTH then Got(CarriedItems(items), tail) else Failed(TooDeep)
    decreases items, 0
  {
    var b := EncodeItems(items) + tail;
    if items == [] {
      assert b == tail;
    } else {
      var rest := EncodeItems(items[1..]) + tail;
      assert b == Encode(items[0]) + rest;
      ValueRoundTrip(items[0], depth + 1, rest);
      ItemsRoundTrip(items[1..], depth, tail);
    }
  }

  ghost predicate Shallow(vs: seq<Value>) { forall v :: v in vs ==> Depth(v) <= MAX_DEPTH }

  ghost predicate AllSized(vs: seq<Value>) { forall v :: v in vs ==> Sized(v) }

  /** A list of values comes back exactly when none nests more than 64 deep, and is too deep
      otherwise. */
  lemma {:induction false} AllRoundTrip(vs: seq<Value>)
    requires AllSized(vs)
    ensures DecodeAll(EncodeAll(vs)) == if Shallow(vs) then Ok(CarriedItems(vs)) else Err(TooDeep)
  {
    if vs != [] {
      var rest := EncodeAll(vs[1..]);
      FirstByte(vs[0]);
      assert vs == [vs[0]] + vs[1..];
      assert Shallow(vs) <==> Depth(vs[0]) <= MAX_DEPTH && Shallow(vs[1..]);
      ValueRoundTrip(vs[0], 0, rest);
      AllRoundTrip(vs[1..]);
    }
  }

  /** Decoding one value takes exactly its own bytes, whatever follows them. */
  lemma OneRoundTrip(v: Value, tail: seq<byte>)
    requires Sized(v)
    ensures DecodeOne(Encode(v) + tail) ==
      if Depth(v) <= MAX_DEPTH then Ok((Carried(v), |Encode(v)|)) else Err(TooDeep)
  {
    ValueRoundTrip(v, 0, tail);
  }

  // ----- what can be decoded can be sent on -------------------------------------------

  /** Whatever bytes were decoded, the value found is one that encoding and decoding keep. */
  lemma {:induction false} DecodedKeeps(b: seq<byte>, depth: nat)
    ensures var r := ReadValue(b, depth);
      r.Got? ==> Sized(r.value) && Carried(r.value) == r.value && depth + Depth(r.value) <= MAX_DEPTH
    decreases |b|, 0
  {
    hide ReadPayload, Carried, Sized, Depth;
    if depth <= MAX_DEPTH && b != [] {
      PayloadKeeps(b[0], b[1..], depth);
    }
  }

  lemma {:induction false} PayloadKeeps(marker: byte, t: seq<byte>, depth: nat)
    requires depth <= MAX_DEPTH
    ensures var r := ReadPayload(marker, t, depth);
      r.Got? ==> Sized(r.value) && Carried(r.value) == r.value && depth + Depth(r.value) <= MAX_DEPTH
    decreases |t|, 2
  {
    hide Be16, Be32, ReadDate, ReadProps, ReadItems;
    if marker == 0x03 {
      PropsKeep(t, depth);
    } else if marker == 0x08 && 4 <= |t| {
      PropsKeep(t[4..], depth);
    } else if marker == 0x0a && 4 <= |t| {
      ItemsKeep(t[4..], Be32(t[..4]), depth);
    } else if marker == 0x0b {
      DateIsDate(t);
    } else if marker == 0x10 && ReadShort(t).Got? {
      ShortIsShort(t);
      PropsKeep(ReadShort(t).rest, depth);
    }
  }

  lemma ShortIsShort(t: seq<byte>)
    requires ReadShort(t).Got?
    ensures |ReadShort(t).value| <= MAX_SHORT && |ReadShort(t).rest| < |t|
  {
  }

  lemma DateIsDate(t: seq<byte>)
    ensures ReadDate(t).Got? ==> ReadDate(t).value.Date?
  {
  }

  lemma {:induction false} PropsKeep(b: seq<byte>, depth: nat)
    requires depth <= MAX_DEPTH
    ensures var r := ReadProps(b, depth);
      r.Got? ==> SizedProps(r.value) && CarriedProps(r.value) == r.value && depth + PropsDepth(r.value) <= MAX_DEPTH
    decreases |b|, 1
  {
    hide ReadValue, Be16, Carried, Sized, Depth;
    var r := ReadShort(b);
    if r.Got? && r.rest != [] && !(r.value == [] && r.rest[0] == PROPS_END) {
      DecodedKeeps(r.rest, depth + 1);
      var v := ReadValue(r.rest, depth + 1);
      if v.Got? {
        PropsKeep(v.rest, depth);
        var props := ReadProps(v.rest, depth);
        if props.Got? {
          var all := [Property(r.value, v.value)] + props.value;
          assert all[1..] == props.value;
        }
      }
    }
  }

  lemma {:induction false} ItemsKeep(b: seq<byte>, n: nat, depth: nat)
    requires depth <= MAX_DEPTH
    ensures var r := ReadItems(b, n, depth);
      r.Got? ==>
        && |r.value| == n && SizedItems(r.value)
        && CarriedItems(r.value) == r.value && depth + ItemsDepth(r.value) <= MAX_DEPTH
    decreases |b|, 1
  {
    hide ReadValue, Carried, Sized, Depth;
    if 0 < n {
      DecodedKeeps(b, depth + 1);
      var v := ReadValue(b, depth + 1);
      if v.Got? {
        ItemsKeep(v.rest, n - 1, depth);
        var items := ReadItems(v.rest, n - 1, depth);
        if items.Got? {
          assert ([v.value] + items.value)[1..] == items.value;
        }
      }
    }
  }

  /** A value decoded from any bytes and encoded again decodes to itself. */
  lemma DecodedRoundTrip(b: seq<byte>, tail: seq<byte>)
    requires DecodeOne(b).Ok?
    ensures var v := DecodeOne(b).value.0; DecodeOne(Encode(v) + tail) == Ok((v, |Encode(v)|))
  {
    DecodedKeeps(b, 0);
    OneRoundTrip(DecodeOne(b).value.0, tail);
  }

  // ----- as it runs -------------------------------------------------------------------

  /** Reads values off a buffer, advancing its position. */
  class Reader {
    const data: seq<byte>
    var pos: nat

    ghost predicate Valid()
      reads this
    {
      pos <= |data|
    }

    constructor (data: seq<byte>)
      ensures Valid() && this.data == data && pos == 0
    {
      this.data, pos := data, 0;
    }

    /** The bytes not read yet. */
    ghost function Left(): seq<byte>
      requires Valid()
      reads this
    {
      data[pos..]
    }

    /** `r` and where reading stopped are what `f`, a reading of the bytes left, gives. */
    ghost predicate Follows<T>(r: Result<T, Amf0Error>, f: Read<T>)
      requires Valid()
      reads this
    {
      match f
      case Failed(e) => r == Err(e)
      case Got(v, rest) => r == Ok(v) && Left() == rest
    }

    method Take(n: nat) returns (r: Result<seq<byte>, Amf0Error>)
      requires Valid()
      modifies this
      ensures Valid() && Follows(r, ReadBytes(old(Left()), n))
      ensures r.Ok? ==> pos == old(pos) + n
      ensures r.Err? ==> pos == old(pos)
    {
      if |data| < pos + n {
        return Err(Eof);
      }
      r := Ok(data[pos..pos + n]);
      assert data[pos..][..n] == data[pos..pos + n] && data[pos..][n..] == data[pos + n..];
      pos := pos + n;
    }

    method Short() returns (r: Result<seq<byte>, Amf0Error>)
      requires Valid()
      modifies this
      ensures Valid() && Follows(r, ReadShort(old(Left())))
      ensures old(pos) <= pos && (r.Ok? ==> old(pos) + 2 <= pos)
    {
      var n := Take(2);
      if n.Err? {
        return Err(n.error);
      }
      r := Take(Be16(n.value));
    }

    method Long() returns (r: Result<seq<byte>, Amf0Error>)
      requires Valid()
      modifies this
      ensures Valid() && Follows(r, ReadLong(old(Left())))
      ensures old(pos) <= pos
    {
      var n := Take(4);
      if n.Err? {
        return Err(n.error);
      }
      r := Take(Be32(n.value));
    }

    /** Properties, up to their end. */
    method Props(depth: nat) returns (r: Result<seq<Property>, Amf0Error>)
      requires Valid()
      modifies this
      ensures Valid() && Follows(r, ReadProps(old(Left()), depth))
      ensures old(pos) <= pos && (r.Ok? ==> old(pos) < pos)
      decreases |data| - pos, 1
    {
      hide ReadValue, ReadShort;
      var props := [];
      ghost var b := Left();
      PrependedMore(props, Property([], Null), ReadProps(b, depth));
      while true
        invariant Valid() && old(pos) <= pos
        invariant ReadProps(b, depth) == Prepended(props, ReadProps(Left(), depth))
        decreases |data| - pos
      {
        var key := Short();
        if key.Err? {
          return Err(key.error);
        }
        if key.value == [] {
          assert props + [] == props;
          if pos == |data| {
            return Ok(props);
          }
          if data[pos] == PROPS_END {
            assert Left()[1..] == data[pos + 1..];
            pos := pos + 1;
            return Ok(props);
          }
        }
        var v := Value(depth + 1);
        if v.Err? {
          return Err(v.error);
        }
        PrependedMore(props, Property(key.value, v.value), ReadProps(Left(), depth));
        props := props + [Property(key.value, v.value)];
      }
    }

    method Items(n: nat, depth: nat) returns (r: Result<seq<Value>, Amf0Error>)
      requires Valid()
      modifies this
      ensures Valid() && Follows(r, ReadItems(old(Left()), n, depth))
      ensures old(pos) <= pos
      decreases |data| - pos, 1
    {
      hide ReadValue;
      var items := [];
      ghost var b := Left();
      PrependedMore(items, Null, ReadItems(b, n, depth));
      for i := 0 to n
        invariant Valid() && old(pos) <= pos
        invariant ReadItems(b, n, depth) == Prepended(items, ReadItems(Left(), n - i, depth))
      {
        var v := Value(depth + 1);
        if v.Err? {
          return Err(v.error);
        }
        PrependedMore(items, v.value, ReadItems(Left(), n - i - 1, depth));
        items := items + [v.value];
      }
      assert items + [] == items;
      r := Ok(items);
    }

    /** The value that starts at this position. */
    method Value(depth: nat) returns (r: Result<Value, Amf0Error>)
      requires Valid()
      modifies this
      ensures Valid() && Follows(r, ReadValue(old(Left()), depth))
      ensures old(pos) <= pos && (r.Ok? ==> old(pos) < pos)
      decreases |data| - pos, 0
    {
      if MAX_DEPTH < depth {
        return Err(TooDeep);
      }
      if pos == |data| {
        return Err(Eof);
      }
      var marker := data[pos];
      assert Left()[1..] == data[pos + 1..];
      pos := pos + 1;
      r := Payload(marker, depth);
    }

    method Payload(marker: byte, depth: nat) returns (r: Result<Value, Amf0Error>)
      requires Valid()
      modifies this
      ensures Valid() && Follows(r, ReadPayload(marker, old(Left()), depth))
      ensures old(pos) <= pos
      decreases |data| - pos, 2
    {
      hide ReadProps, ReadItems, ReadShort, ReadLong;
      match marker
      case 0x00 =>
        var n := Take(8);
        r := if n.Ok? then Ok(Number(n.value)) else Err(n.error);
      case 0x01 =>
        var b := Take(1);
        r := if b.Ok? then Ok(Boolean(b.value[0] != 0)) else Err(b.error);
      case 0x02 =>
        var s := Short();
        r := if s.Ok? then Ok(String(s.value)) else Err(s.error);
      case 0x03 =>
        var props := Props(depth);
        r := if props.Ok? then Ok(Object(props.value)) else Err(props.error);
      case 0x05 =>
        r := Ok(Null);
      case 0x06 =>
        r := Ok(Undefined);
      case 0x08 =>
        var count := Take(4);
        if count.Err? {
          return Err(count.error);
        }
        var props := Props(depth);
        r := if props.Ok? then Ok(EcmaArray(props.value)) else Err(props.error);
      case 0x0a =>
        var n := Take(4);
        if n.Err? {
          return Err(n.error);
        }
        if |data| - pos < Be32(n.value) {
          return Err(Eof);
        }
        var items := Items(Be32(n.value), depth);
        r := if items.Ok? then Ok(StrictArray(items.value)) else Err(items.error);
      case 0x0b =>
        r := DateAt();
      case 0x0c | 0x0f =>
        var s := Long();
        r := if s.Ok? then Ok(LongString(s.value)) else Err(s.error);
      case 0x10 =>
        var name := Short();
        if name.Err? {
          return Err(name.error);
        }
        var props := Props(depth);
        r := if props.Ok? then Ok(TypedObject(name.value, props.value)) else Err(props.error);
      case _ =>
        r := Err(UnsupportedMarker(marker));
    }

    method DateAt() returns (r: Result<Value, Amf0Error>)
      requires Valid()
      modifies this
      ensures Valid() && Follows(r, ReadDate(old(Left())))
      ensures old(pos) <= pos
    {
      ghost var b := Left();
      var millis := Take(8);
      if millis.Err? {
        return Err(millis.error);
      }
      var z := Take(2);
      if z.Err? {
        return Err(z.error);
      }
      assert b[8..10] == b[8..][..2] && b[10..] == b[8..][2..];
      var tz: int := Be16(z.value);
      r := Ok(Date(millis.value, if tz < 0x8000 then tz else tz - 0x1_0000));
    }
  }

  method DecodeEvery(data: seq<byte>) returns (r: Result<seq<Value>, Amf0Error>)
    ensures r == DecodeAll(data)
  {
    hide ReadValue;
    var reader := new Reader(data);
    var out := [];
    assert data[0..] == data;
    assert forall vs: seq<Value> :: out + vs == vs;
    while reader.pos < |data|
      invariant reader.Valid() && reader.data == data && fresh(reader)
      invariant DecodeAll(data) == match DecodeAll(reader.Left())
        case Err(e) => Err(e)
        case Ok(vs) => Ok(out + vs)
      decreases |data| - reader.pos
    {
      var v := reader.Value(0);
      if v.Err? {
        return Err(v.error);
      }
      ghost var was := out;
      out := out + [v.value];
      assert forall vs: seq<Value> :: was + ([v.value] + vs) == out + vs;
    }
    assert out + [] == out;
    r := Ok(out);
  }

  method DecodeFirst(data: seq<byte>) returns (r: Result<(Value, nat), Amf0Error>)
    ensures r == DecodeOne(data)
  {
    var reader := new Reader(data);
    assert data[0..] == data;
    var v := reader.Value(0);
    r := if v.Ok? then Ok((v.value, reader.pos)) else Err(v.error);
  }

  /** `out` grows by exactly the bytes of `Encode(v)`. */
  method Put(v: Value, out: seq<byte>) returns (r: seq<byte>)
    ensures r == out + Encode(v)
    decreases v, 2
  {
    hide PutBe16, PutBe32, Cut, ShortString, EncodeLong, EncodeProps, EncodeItems;
    match v
    case Number(n) => r := out + ([0x00] + n);
    case Boolean(b) => r := out + [0x01, if b then 1 else 0];
    case String(s) => r := PutString(s, out);
    case LongString(s) => r := out + ([0x0c] + EncodeLong(s));
    case Null => r := out + [0x05];
    case Undefined => r := out + [0x06];
    case Date(millis, tz) => r := out + ([0x0b] + millis + PutBe16(tz % 0x1_0000));
    case _ => r := PutContainer(v, out);
  }

  method PutString(s: seq<byte>, out: seq<byte>) returns (r: seq<byte>)
    ensures r == out + Encode(String(s))
  {
    hide ShortString, EncodeLong;
    if |s| <= MAX_SHORT {
      r := out + ([0x02] + ShortString(s));
    } else {
      r := out + ([0x0c] + EncodeLong(s));
    }
  }

  method PutContainer(v: Value, out: seq<byte>) returns (r: seq<byte>)
    requires v.Object? || v.EcmaArray? || v.StrictArray? || v.TypedObject?
    ensures r == out + Encode(v)
    decreases v, 1
  {
    hide PutBe16, PutBe32, Cut, ShortString, EncodeProps, EncodeItems;
    match v
    case Object(props) =>
      r := PutProps(props, out + [0x03]);
      assert r == out + ([0x03] + EncodeProps(props));
    case EcmaArray(props) =>
      var head := [0x08] + PutBe32(|props| % 0x1_0000_0000);
      r := PutProps(props, out + head);
      assert r == out + (head + EncodeProps(props));
    case StrictArray(items) =>
      var head := [0x0a] + PutBe32(|items| % 0x1_0000_0000);
      r := PutItems(items, out + head);
      assert r == out + (head + EncodeItems(items));
    case TypedObject(name, props) =>
      var head := [0x10] + ShortString(name);
      r := PutProps(props, out + head);
      assert r == out + (head + EncodeProps(props));
  }

  method PutProps(props: seq<Property>, out: seq<byte>) returns (r: seq<byte>)
    ensures r == out + EncodeProps(props)
    decreases props, 0
  {
    hide Encode, ShortString;
    r := out;
    for i := 0 to |props|
      invariant r + EncodeProps(props[i..]) == out + EncodeProps(props)
    {
      assert props[i..][1..] == props[i + 1..];
      r := r + ShortString(props[i].name);
      r := Put(props[i].value, r);
    }
    r := r + [0, 0, PROPS_END];
  }

  method PutItems(items: seq<Value>, out: seq<byte>) returns (r: seq<byte>)
    ensures r == out + EncodeItems(items)
    decreases items, 0
  {
    hide Encode;
    r := out;
    for i := 0 to |items|
      invariant r + EncodeItems(items[i..]) == out + EncodeItems(items)
    {
      assert items[i..][1..] == items[i + 1..];
      r := Put(items[i], r);
    }
  }
}
