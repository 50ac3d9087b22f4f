/** Fixed-width integers of Go, as subsets of the unbounded integers, and the
    conversions between them. Go wraps on overflow and reinterprets bits on
    conversion; these functions say so explicitly. */
module Ints {

  const TWO_31: int := 0x8000_0000
  const TWO_32: int := 0x1_0000_0000
  const TWO_63: int := 0x8000_0000_0000_0000

  type u8 = x: int | 0 <= x < 0x100
  type u16 = x: int | 0 <= x < 0x1_0000
  type u32 = x: int | 0 <= x < 0x1_0000_0000
  type i32 = x: int | -0x8000_0000 <= x < 0x8000_0000

  /** Go's 64-bit `int` range. */
  predicate InInt64(x: int) {
    -TWO_63 <= x < TWO_63
  }

  /** Go's `uint32(x)`: keeps the low 32 bits, so equals `x` modulo 2^32. */
  function ToU32(x: int): (r: u32)
    ensures (r - x) % TWO_32 == 0
    ensures 0 <= x < TWO_32 ==> r == x
  {
    x % TWO_32
  }

  /** Go's `int32(x)` (and `rune(x)`): the two's-complement reading of the low 32 bits. */
  function ToI32(x: int): (r: i32)
    ensures (r - x) % TWO_32 == 0
    ensures -TWO_31 <= x < TWO_31 ==> r == x
  {
    var m := x % TWO_32;
    if m < TWO_31 then m else m - TWO_32
  }

  /** Storing a rune as `uint32` and reading it back with `rune(...)` is the identity. */
  lemma RuneRoundTrip(r: i32)
    ensures ToI32(ToU32(r)) == r
  {
  }
}
