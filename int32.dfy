/** Java's 32-bit `int` (and the unboxed value of an `Integer`). */
module Int32 {

  const MIN: int := -0x8000_0000
  const MAX: int := 0x7fff_ffff
  const MODULUS: int := 0x1_0000_0000

  type int32 = x: int | MIN <= x <= MAX

  /** Two's-complement wrap-around of a mathematical result into the `int` range. */
  function Wrap(x: int): (r: int32)
    ensures MIN <= x <= MAX ==> r == x
    ensures (x - r) % MODULUS == 0
  {
    (x - MIN) % MODULUS + MIN
  }
}
