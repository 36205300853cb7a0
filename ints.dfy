/**
 * The fixed-width integer types of C# that the model needs: `int`, `uint`
 * and `ulong`, with the two's-complement wrap-around of unchecked `int`
 * arithmetic written out.
 */
module Ints {

  const INT32_MIN: int := -0x8000_0000
  const INT32_MAX: int := 0x7FFF_FFFF
  const TWO_TO_32: int := 0x1_0000_0000

  type Int32 = x: int | INT32_MIN <= x <= INT32_MAX
  type Uint32 = x: int | 0 <= x < 0x1_0000_0000
  type Uint64 = x: int | 0 <= x < 0x1_0000_0000_0000_0000

  function Max(a: int, b: int): int { if a <= b then b else a }

  /** Truncates an unbounded integer to a C# `int`, as unchecked arithmetic does. */
  function Wrap32(x: int): (r: Int32)
    ensures INT32_MIN <= x <= INT32_MAX ==> r == x
    ensures (x - r) % TWO_TO_32 == 0
  {
    (x - INT32_MIN) % TWO_TO_32 + INT32_MIN
  }

  /** `n++` on a C# `int`: one more, except that `int.MaxValue` wraps to `int.MinValue`. */
  function Increment32(n: Int32): (r: Int32)
    ensures n < INT32_MAX ==> r == n + 1
    ensures n == INT32_MAX ==> r == INT32_MIN
  {
    Wrap32(n + 1)
  }
}
