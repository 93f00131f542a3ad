/**
 * The fixed-width integers of Go and of the eBPF program, and the Go
 * operators on them whose behaviour differs from Dafny's unbounded `int`.
 */
module Ints {

  const MIN_INT32: int := -0x8000_0000
  const MAX_INT32: int := 0x7fff_ffff
  const MIN_INT64: int := -0x8000_0000_0000_0000
  const MAX_INT64: int := 0x7fff_ffff_ffff_ffff

  newtype int32 = x: int | -0x8000_0000 <= x < 0x8000_0000
  newtype uint8 = x: int | 0 <= x < 0x100
  newtype uint16 = x: int | 0 <= x < 0x1_0000
  newtype uint32 = x: int | 0 <= x < 0x1_0000_0000

  /**
   * Two's-complement wrap-around of an integer into int32, as Go's int32
   * arithmetic and `atomic.AddInt32` perform it: the unique int32 congruent
   * to x modulo 2^32.
   */
  function WrapInt32(x: int): (r: int32)
    ensures (r as int - x) % 0x1_0000_0000 == 0
    ensures MIN_INT32 <= x <= MAX_INT32 ==> r as int == x
    ensures x == MAX_INT32 + 1 ==> r as int == MIN_INT32
  {
    ((x + 0x8000_0000) % 0x1_0000_0000 - 0x8000_0000) as int32
  }

  /** Go's `uint16(x)` conversion of an int: keeps the low 16 bits. */
  function ToUint16(x: int): (r: uint16)
    ensures (r as int - x) % 0x1_0000 == 0
    ensures 0 <= x < 0x1_0000 ==> r as int == x
  {
    (x % 0x1_0000) as uint16
  }

  /** Truncation of a C `__u32` into a `__u16`: keeps the low 16 bits. */
  function Uint32ToUint16(x: uint32): (r: uint16)
    ensures (r as int - x as int) % 0x1_0000 == 0
    ensures x < 0x1_0000 ==> r as int == x as int
  {
    (x as int % 0x1_0000) as uint16
  }

  /**
   * Go's `%` on int for a positive divisor: the division truncates toward
   * zero, so the remainder has the sign of the dividend.
   */
  function GoRem(a: int, b: int): (r: int)
    requires b > 0
    ensures a >= 0 ==> r == a % b && 0 <= r < b
    ensures a < 0 ==> -b < r <= 0
    ensures (a - r) % b == 0
    ensures a % b == 0 ==> r == 0
  {
    var q := if a >= 0 then a / b else -((-a) / b);
    var r := if a >= 0 then a % b else -((-a) % b);
    assert a - r == b * q;
    MultipleHasNoRemainder(q, b);
    MultipleHasNoRemainder(-(a / b), b);
    assert a % b == 0 ==> -a == b * -(a / b);
    r
  }

  /** A multiple of the divisor leaves no remainder. */
  lemma MultipleHasNoRemainder(q: int, b: int)
    requires b > 0
    ensures (b * q) % b == 0
  {
    var x := b * q;
    var d, r := x / b, x % b;
    assert x == b * d + r && 0 <= r < b;
    assert b * (q - d) == r;
    assert q - d <= 0 by {
      assert q - d >= 1 ==> b * (q - d) >= b;
    }
    assert q - d >= 0 by {
      assert q - d <= -1 ==> b * (q - d) <= -b;
    }
  }
}
