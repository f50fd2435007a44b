/** Unsigned numbers as bytes, most significant first unless said otherwise. */
module Bytes {

  type byte = x: int | 0 <= x < 0x100

  type u16 = x: int | 0 <= x < 0x1_0000

  type u24 = x: int | 0 <= x < 0x100_0000

  type u32 = x: int | 0 <= x < 0x1_0000_0000

  function Be16(b: seq<byte>): u16
    requires |b| == 2
  {
    (b[0] as int) * 0x100 + b[1] as int
  }

  function PutBe16(v: u16): (b: seq<byte>)
    ensures |b| == 2 && Be16(b) == v
  {
    [v / 0x100, v % 0x100]
  }

  function U24(b: seq<byte>): u24
    requires |b| == 3
  {
    ((b[0] as int) * 0x100 + b[1] as int) * 0x100 + b[2] as int
  }

  function Put24(v: u24): (b: seq<byte>)
    ensures |b| == 3 && U24(b) == v
  {
    [v / 0x100 / 0x100, v / 0x100 % 0x100, v % 0x100]
  }

  function Be32(b: seq<byte>): u32
    requires |b| == 4
  {
    (((b[0] as int) * 0x100 + b[1] as int) * 0x100 + b[2] as int) * 0x100 + b[3] as int
  }

  function PutBe32(v: u32): (b: seq<byte>)
    ensures |b| == 4 && Be32(b) == v
  {
    [v / 0x100 / 0x100 / 0x100, v / 0x100 / 0x100 % 0x100, v / 0x100 % 0x100, v % 0x100]
  }

  function Le32(b: seq<byte>): u32
    requires |b| == 4
  {
    Be32([b[3], b[2], b[1], b[0]])
  }

  function PutLe32(v: u32): (b: seq<byte>)
    ensures |b| == 4 && Le32(b) == v
  {
    var b := PutBe32(v);
    [b[3], b[2], b[1], b[0]]
  }

  // ----- numbers where they lie in a message ------------------------------------------

  function Num2(b: seq<byte>, i: nat): nat
    requires i + 2 <= |b|
  {
    b[i] as int * 256 + b[i + 1] as int
  }

  function Num3(b: seq<byte>, i: nat): nat
    requires i + 3 <= |b|
  {
    b[i] as int * 65_536 + b[i + 1] as int * 256 + b[i + 2] as int
  }

  function Num4(b: seq<byte>, i: nat): nat
    requires i + 4 <= |b|
  {
    b[i] as int * 16_777_216 + b[i + 1] as int * 65_536 + b[i + 2] as int * 256 + b[i + 3] as int
  }

  /** Least significant byte first. */
  function Num4Reversed(b: seq<byte>, i: nat): nat
    requires i + 4 <= |b|
  {
    b[i + 3] as int * 16_777_216 + b[i + 2] as int * 65_536 + b[i + 1] as int * 256 + b[i] as int
  }
}
