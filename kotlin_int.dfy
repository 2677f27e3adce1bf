/**
 * Kotlin's `Int`: a signed 32-bit two's-complement integer whose `+`, `-` and `++`
 * wrap around silently on overflow.
 */
module KotlinInt {

  const INT_MIN: int := -0x8000_0000
  const INT_MAX: int := 0x7fff_ffff

  /** 2^32, the period of 32-bit wrap-around. */
  const MODULUS: int := 0x1_0000_0000

  newtype Int32 = x: int | -0x8000_0000 <= x < 0x8000_0000

  /** `x++` on an `Int`: one more, or the smallest `Int` after the largest. */
  function Inc(x: Int32): (r: Int32)
    ensures x as int < INT_MAX ==> r as int == x as int + 1
    ensures x as int == INT_MAX ==> r as int == INT_MIN
    ensures r as int == x as int + 1 || r as int == x as int + 1 - MODULUS
  {
    if x as int == INT_MAX then INT_MIN as Int32 else x + 1
  }

  /**
   * `a - b` on two `Int`s. The exact difference lies within one period of the range,
   * so wrapping adds or removes 2^32 at most once.
   */
  function Minus(a: Int32, b: Int32): (r: Int32)
    ensures INT_MIN <= a as int - b as int <= INT_MAX ==> r as int == a as int - b as int
    ensures r as int == a as int - b as int
         || r as int == a as int - b as int - MODULUS
         || r as int == a as int - b as int + MODULUS
    ensures a == b ==> r == 0
  {
    var d := a as int - b as int;
    if d > INT_MAX then (d - MODULUS) as Int32
    else if d < INT_MIN then (d + MODULUS) as Int32
    else d as Int32
  }
}
