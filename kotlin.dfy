/**
 * The parts of Kotlin's integer semantics that the modelled code relies on:
 * 64-bit `Long` and 32-bit `Int` with two's-complement wrap-around, the
 * truncating `Long.toInt()` conversion, and `/` and `%` rounding toward zero.
 */
module Kotlin {
  import opened Options

  const LONG_MIN: int := -0x8000_0000_0000_0000
  const LONG_MAX: int := 0x7FFF_FFFF_FFFF_FFFF
  const INT_MIN: int := -0x8000_0000
  const INT_MAX: int := 0x7FFF_FFFF

  type Long = x: int | -0x8000_0000_0000_0000 <= x <= 0x7FFF_FFFF_FFFF_FFFF
  type Int = x: int | -0x8000_0000 <= x <= 0x7FFF_FFFF

  /** The result of a `Long` addition or subtraction: the exact value reduced modulo 2^64. */
  function WrapLong(x: int): (r: Long)
    ensures LONG_MIN <= x <= LONG_MAX ==> r == x
    ensures x > LONG_MAX && x - 0x1_0000_0000_0000_0000 <= LONG_MAX ==> r == x - 0x1_0000_0000_0000_0000
    ensures x < LONG_MIN && x + 0x1_0000_0000_0000_0000 >= LONG_MIN ==> r == x + 0x1_0000_0000_0000_0000
  {
    (x - LONG_MIN) % 0x1_0000_0000_0000_0000 + LONG_MIN
  }

  /** `Long.toInt()`: keeps the low 32 bits, read as a signed number. */
  function ToInt(x: int): (r: Int)
    ensures INT_MIN <= x <= INT_MAX ==> r == x
    ensures x > INT_MAX && x - 0x1_0000_0000 <= INT_MAX ==> r == x - 0x1_0000_0000
    ensures (x - r) % 0x1_0000_0000 == 0
  {
    (x - INT_MIN) % 0x1_0000_0000 + INT_MIN
  }

  /** Kotlin's `a / d` for a positive divisor: the quotient rounded toward zero. */
  function TruncDiv(a: int, d: int): (q: int)
    requires d > 0
    ensures a >= 0 ==> 0 <= a - q * d < d
    ensures a < 0 ==> -d < a - q * d <= 0
  {
    if a >= 0 then a / d else -((-a) / d)
  }

  /** Kotlin's `a % d` for a positive divisor: the remainder takes the sign of `a`. */
  function TruncRem(a: int, d: int): (r: int)
    requires d > 0
    ensures a >= 0 ==> 0 <= r < d
    ensures a < 0 ==> -d < r <= 0
    ensures a == TruncDiv(a, d) * d + r
  {
    a - TruncDiv(a, d) * d
  }

  /** Kotlin's `Any?.toString()`: a null reference prints as "null". */
  function NullableToString(o: Option<string>): (r: string)
    ensures o.Some? ==> r == o.value
    ensures o.None? ==> r == "null"
  {
    match o
    case None => "null"
    case Some(s) => s
  }
}
