/** Native memory images on a little-endian platform with a 4-byte `int`,
    an 8-byte `size_t` and a signed `char`. */
module Bytes {

  type byte = x: int | 0 <= x < 256

  datatype Option<+T> = None | Some(value: T)

  const INT_RANGE: int := 0x1_0000_0000
  const INT_MAX: int := 0x7FFF_FFFF
  const SIZE_RANGE: int := 0x1_0000_0000_0000_0000

  /** What a C++ conversion to a 32-bit `int` yields. */
  function ToInt32(x: int): (r: int)
    ensures IsInt32(r) && (IsInt32(x) ==> r == x)
  {
    var m := x % INT_RANGE;
    if m > INT_MAX then m - INT_RANGE else m
  }

  predicate IsInt32(x: int) { -0x8000_0000 <= x <= INT_MAX }

  /** A `char` widened to `int`: the sign-extended byte. */
  function SignExtend(b: byte): int { if b >= 128 then b - 256 else b }

  /** Two's complement, low byte first. */
  function LE32(x: int): (r: seq<byte>)
    ensures |r| == 4
  {
    var q1 := x / 256;
    var q2 := q1 / 256;
    var q3 := q2 / 256;
    [x % 256, q1 % 256, q2 % 256, q3 % 256]
  }

  function LE64(x: nat): (r: seq<byte>)
    ensures |r| == 8
  {
    LE32(x) + LE32(x / INT_RANGE)
  }

  function UInt32(b: seq<byte>): (r: int)
    requires |b| == 4
    ensures 0 <= r < INT_RANGE
  {
    b[0] as int + 256 * (b[1] as int) + 65536 * (b[2] as int) + 16777216 * (b[3] as int)
  }

  function Int32(b: seq<byte>): (r: int)
    requires |b| == 4
    ensures IsInt32(r)
  {
    ToInt32(UInt32(b))
  }

  function Size64(b: seq<byte>): (r: nat)
    requires |b| == 8
  {
    UInt32(b[..4]) + INT_RANGE * UInt32(b[4..])
  }

  lemma UInt32OfLE32(x: int)
    ensures UInt32(LE32(x)) == x % INT_RANGE
  {
    assert x == INT_RANGE * (x / 256 / 256 / 256 / 256) + UInt32(LE32(x));
  }

  /** Writing an `int` as raw memory and reading it back is the identity. */
  lemma Int32OfLE32(x: int)
    requires IsInt32(x)
    ensures Int32(LE32(x)) == x
  {
    hide LE32, UInt32;
    UInt32OfLE32(x);
  }

  lemma Size64OfLE64(x: nat)
    requires x < SIZE_RANGE
    ensures Size64(LE64(x)) == x
  {
    UInt32OfLE32(x);
    UInt32OfLE32(x / INT_RANGE);
    var b := LE64(x);
    assert b[..4] == LE32(x) && b[4..] == LE32(x / INT_RANGE);
  }
}
