/** The 32-bit unsigned counters of the cache manager (ULONG). Their
    increment wraps around at 2^32, as C unsigned arithmetic does. */
module Ulong {

  const ULONG_MODULUS: int := 0x1_0000_0000

  type ULong = x: int | 0 <= x < ULONG_MODULUS

  /** `x += 1` on a ULONG. */
  function Increment(x: ULong): ULong
  {
    if x == ULONG_MODULUS - 1 then 0 else x + 1
  }

  /** Incrementing is adding one modulo 2^32; it yields 1 exactly when the
      counter was 0, and never yields what it started from. */
  lemma IncrementMeaning(x: ULong)
    ensures Increment(x) == (x + 1) % ULONG_MODULUS
    ensures Increment(x) == 1 <==> x == 0
    ensures Increment(x) != x
  {
  }

  /** Two counters incremented together keep their difference modulo 2^32. */
  lemma IncrementKeepsDifference(a: ULong, b: ULong)
    ensures (Increment(a) - Increment(b)) % ULONG_MODULUS == (a - b) % ULONG_MODULUS
  {
  }
}
