/** .NET's 32-bit signed integer and its unchecked (wrapping) arithmetic. */
module Int32 {
  const MinInt32: int := -0x8000_0000
  const MaxInt32: int := 0x7FFF_FFFF
  const Modulus: int := 0x1_0000_0000

  predicate IsInt32(x: int) {
    MinInt32 <= x <= MaxInt32
  }

  /** The 32-bit two's-complement value congruent to `x`. */
  function Wrap(x: int): (r: int)
    ensures IsInt32(r)
    ensures (r - x) % Modulus == 0
    ensures IsInt32(x) ==> r == x
  {
    (x - MinInt32) % Modulus + MinInt32
  }

  /** `a * b` in an unchecked context. */
  function Multiply(a: int, b: int): (r: int)
    requires IsInt32(a) && IsInt32(b)
    ensures IsInt32(r)
    ensures (r - a * b) % Modulus == 0
    ensures IsInt32(a * b) ==> r == a * b
  {
    Wrap(a * b)
  }
}
