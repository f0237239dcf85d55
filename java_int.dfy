/**
 * The 32-bit `int` of Java and Kotlin: its range, the wrap-around of its
 * arithmetic, and its division, which rounds toward zero.
 */
module JavaInt {
  const MIN_VALUE: int := -0x8000_0000
  const MAX_VALUE: int := 0x7fff_ffff

  /** The values an `int` (Kotlin `Int`) can hold. */
  type Int32 = x: int | MIN_VALUE <= x <= MAX_VALUE

  /** The `int` an arithmetic operation leaves: the one congruent to the exact result modulo 2^32. */
  function Wrap(x: int): (r: Int32)
    ensures (x - r) % 0x1_0000_0000 == 0
    ensures MIN_VALUE <= x <= MAX_VALUE ==> r == x
  {
    var k := (x - MIN_VALUE) / 0x1_0000_0000;
    assert x - MIN_VALUE == k * 0x1_0000_0000 + (x - MIN_VALUE) % 0x1_0000_0000;
    assert x - ((x - MIN_VALUE) % 0x1_0000_0000 + MIN_VALUE) == k * 0x1_0000_0000;
    (x - MIN_VALUE) % 0x1_0000_0000 + MIN_VALUE
  }

  /** `a / d` on `int`s for a positive divisor: the quotient rounded toward zero. */
  function Div(a: int, d: int): (q: int)
    requires 0 < d
    ensures 0 <= a ==> 0 <= a - q * d < d
    ensures a < 0 ==> 0 <= q * d - a < d
  {
    if 0 <= a then a / d else -((-a) / d)
  }
}
