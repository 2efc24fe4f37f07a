// Fixed-width integers, an Option type and little-endian byte images, shared
// by every other module of the model.

module Common {

  /** One octet, as C's uint8_t / unsigned char. */
  type byte = x: int | 0 <= x < 0x100
  type uint16 = x: int | 0 <= x < 0x1_0000
  type uint32 = x: int | 0 <= x < 0x1_0000_0000
  type int8 = x: int | -0x80 <= x < 0x80
  type int16 = x: int | -0x8000 <= x < 0x8000
  type int32 = x: int | -0x8000_0000 <= x < 0x8000_0000
  type int64 = x: int | -0x8000_0000_0000_0000 <= x < 0x8000_0000_0000_0000

  /** A C pointer that may be NULL, or a lookup that may fail. */
  datatype Option<+T> = None | Some(value: T)

  /** The bytes of a text constant: each character's code taken as one byte (all constants here are ASCII). */
  function Ascii(s: string): (b: seq<byte>)
    ensures |b| == |s|
  {
    seq(|s|, i requires 0 <= i < |s| => (s[i] as int) % 0x100)
  }

  function Min(a: int, b: int): int { if a <= b then a else b }

  /** 256 to the power n: the number of values an n-byte field holds. */
  function Pow256(n: nat): (r: nat)
    ensures r >= 1
  {
    if n == 0 then 1 else 0x100 * Pow256(n - 1)
  }

  /** The n-byte little-endian image of x, reduced modulo 256^n. */
  function LeBytes(x: nat, n: nat): (b: seq<byte>)
    ensures |b| == n
  {
    if n == 0 then [] else [x % 0x100] + LeBytes(x / 0x100, n - 1)
  }

  /** The unsigned value of a little-endian byte image. */
  function LeValue(b: seq<byte>): (v: nat)
    ensures v < Pow256(|b|)
  {
    if b == [] then 0 else b[0] + 0x100 * LeValue(b[1..])
  }

  /** Reading back an n-byte image gives x whenever x fits in n bytes. */
  lemma {:induction false} LeRoundTrip(x: nat, n: nat)
    requires x < Pow256(n)
    ensures LeValue(LeBytes(x, n)) == x
  {
    if n > 0 {
      LeRoundTrip(x / 0x100, n - 1);
      assert LeBytes(x, n)[1..] == LeBytes(x / 0x100, n - 1);
    }
  }

  /** Writing out what was read gives back the same bytes. */
  lemma {:induction false} LeBytesOfValue(b: seq<byte>)
    ensures LeBytes(LeValue(b), |b|) == b
  {
    if b != [] {
      var v, rest := LeValue(b), LeValue(b[1..]);
      assert v == b[0] + 0x100 * rest;
      assert v % 0x100 == b[0] && v / 0x100 == rest by {
        DivModOfDigit(b[0], rest);
      }
      LeBytesOfValue(b[1..]);
      assert LeBytes(v, |b|) == [b[0]] + LeBytes(rest, |b| - 1);
    }
  }

  lemma DivModOfDigit(d: byte, q: nat)
    ensures (d + 0x100 * q) % 0x100 == d && (d + 0x100 * q) / 0x100 == q
  {
  }

  /** Half the values of an n-byte field: the bound of its signed range. */
  function HalfRange(n: nat): int { Pow256(n) / 2 }

  /** Two's-complement n-byte image of a signed value. */
  function SignedLeBytes(x: int, n: nat): (b: seq<byte>)
    requires n > 0
    requires -HalfRange(n) <= x < HalfRange(n)
    ensures |b| == n
  {
    LeBytes(if x < 0 then x + Pow256(n) else x, n)
  }

  /** Signed value of an n-byte two's-complement image. */
  function SignedLeValue(b: seq<byte>): (v: int)
    requires |b| > 0
    ensures -HalfRange(|b|) <= v < HalfRange(|b|)
  {
    var u := LeValue(b);
    PowIsTwoHalves(|b|);
    if u >= HalfRange(|b|) then u - Pow256(|b|) else u
  }

  lemma PowIsTwoHalves(n: nat)
    requires n > 0
    ensures Pow256(n) == 2 * HalfRange(n)
  {
    assert Pow256(n) == 0x100 * Pow256(n - 1);
  }

  lemma SignedLeRoundTrip(x: int, n: nat)
    requires n > 0
    requires -HalfRange(n) <= x < HalfRange(n)
    ensures SignedLeValue(SignedLeBytes(x, n)) == x
  {
    var u := if x < 0 then x + Pow256(n) else x;
    assert Pow256(n) == 0x100 * Pow256(n - 1);
    LeRoundTrip(u, n);
  }

  /** The in-memory image of an int32 (little-endian, as the daemon sends it). */
  function Int32Le(x: int32): (b: seq<byte>)
    ensures |b| == 4 && SignedLeValue(b) == x
  {
    SignedLeRoundTrip(x, 4);
    SignedLeBytes(x, 4)
  }

  /** The in-memory image of a 64-bit time_t. */
  function Int64Le(x: int64): (b: seq<byte>)
    ensures |b| == 8 && SignedLeValue(b) == x
  {
    SignedLeRoundTrip(x, 8);
    SignedLeBytes(x, 8)
  }

  /** A C conversion to a 32-bit unsigned: the value modulo 2^32. */
  function ToUint32(x: int): (r: uint32)
    ensures (r - x) % 0x1_0000_0000 == 0
  {
    x % 0x1_0000_0000
  }

  /** A C conversion of a 32-bit unsigned to int32: two's-complement reinterpretation. */
  function Uint32ToInt32(u: uint32): (r: int32)
    ensures r == u || r == u - 0x1_0000_0000
  {
    if u < 0x8000_0000 then u else u - 0x1_0000_0000
  }

  /** A C conversion of any integer to int32: the value modulo 2^32, read as two's complement. */
  function WrapInt32(x: int): (r: int32)
    ensures (r - x) % 0x1_0000_0000 == 0
    ensures -0x8000_0000 <= x < 0x8000_0000 ==> r == x
  {
    Uint32ToInt32(ToUint32(x))
  }

  lemma Int32Uint32RoundTrip(x: int32)
    ensures Uint32ToInt32(ToUint32(x)) == x
  {
  }
}
