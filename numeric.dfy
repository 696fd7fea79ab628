/** The two pieces of C# integer semantics the viewer depends on: 32-bit
    two's-complement wrap-around of `int` (unchecked context) and the
    remainder operator `%`, which truncates toward zero. */
module Numeric {

  const INT32_MIN: int := -0x8000_0000
  const INT32_MAX: int := 0x7FFF_FFFF
  const TWO_TO_32: int := 0x1_0000_0000

  /** A C# `int`. */
  type Int32 = x: int | -0x8000_0000 <= x < 0x8000_0000

  /** The `int` C# stores for the mathematical integer `x`: the unique 32-bit
      value congruent to `x` modulo 2^32. */
  function Wrap32(x: int): (r: Int32)
    ensures (x - r) % TWO_TO_32 == 0
    ensures INT32_MIN <= x <= INT32_MAX ==> r == x
  {
    var m := x % TWO_TO_32;
    if m < 0x8000_0000 then m else m - TWO_TO_32
  }

  /** `a % 16` in C# (the only remainder the viewer takes): the result has the
      sign of the dividend, so `-17 % 16 == -1` where Dafny's Euclidean `%`
      gives 15. */
  function Rem16(a: int): (r: int)
    ensures -16 < r < 16
    ensures a >= 0 ==> r >= 0
    ensures a <= 0 ==> r <= 0
    ensures (a - r) % 16 == 0
  {
    if a >= 0 then a % 16 else -((-a) % 16)
  }

  /** `i++` on a counter that has been incremented k times from 0, while the
      count stays below 2^32: the wrapped counter moves to the wrapped k + 1. */
  lemma WrapSucc(k: int)
    requires 0 <= k < TWO_TO_32 - 1
    ensures Wrap32(Wrap32(k) + 1) == Wrap32(k + 1)
  {
  }
}
