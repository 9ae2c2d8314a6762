/** Unsigned 64-bit integers (`scs_timestamp_t`, `scs_u64_t`) with the
    wrap-around arithmetic of C's `uint64_t`. */
module Unsigned64 {

  const TWO_64: int := 0x1_0000_0000_0000_0000

  type U64 = x: int | 0 <= x < TWO_64

  /** `static_cast<scs_timestamp_t>(-1)`: the all-ones value, used as the
      "no frame seen yet" marker for the last raw timestamp. */
  const SENTINEL: U64 := (-1) % TWO_64

  /** `a + b` on `uint64_t`. */
  function Add(a: U64, b: U64): (r: U64)
    ensures a + b < TWO_64 ==> r == a + b
    ensures a + b >= TWO_64 ==> r == a + b - TWO_64
  {
    (a + b) % TWO_64
  }

  /** `a - b` on `uint64_t`: the distance from `b` forward to `a` around
      the 2^64 circle. */
  function Sub(a: U64, b: U64): (r: U64)
    ensures b <= a ==> r == a - b
    ensures a < b ==> r == a - b + TWO_64
  {
    (a - b) % TWO_64
  }

  /** Sub is the inverse of Add: moving forward from `b` by `Sub(a, b)`
      lands on `a`, and it is the only distance that does. */
  lemma AddSubInverse(a: U64, b: U64, d: U64)
    ensures Add(b, Sub(a, b)) == a
    ensures Add(b, d) == a <==> d == Sub(a, b)
  {
  }

  /** Two consecutive forward distances add up, modulo 2^64, to the
      distance covered in one go. */
  lemma SubChain(t: U64, a: U64, b: U64, c: U64)
    ensures Add(Add(t, Sub(b, a)), Sub(c, b)) == Add(t, Sub(c, a))
  {
  }
}
