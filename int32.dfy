/** Java `int` arithmetic: share counts in the ledger are 32-bit two's-complement
    integers, and `+=` on them wraps around on overflow. */
module Int32 {
  const MIN: int := -0x8000_0000
  const MAX: int := 0x7fff_ffff
  const MODULUS: int := 0x1_0000_0000

  predicate InRange(x: int) {
    MIN <= x <= MAX
  }

  type int32 = x: int | InRange(x)

  /** The Java `int` that the mathematical value `x` wraps to: the unique value in
      range that is congruent to `x` modulo 2^32. */
  function Wrap(x: int): (r: int32)
    ensures InRange(x) ==> r == x
    ensures (x - r) % MODULUS == 0
  {
    (x - MIN) % MODULUS + MIN
  }

  /** Wrapping twice is wrapping once: `a + wrap(b)` and `a + b` wrap to the same `int`. */
  lemma WrapAbsorbs(a: int, b: int)
    ensures Wrap(a + Wrap(b)) == Wrap(a + b)
  {
  }
}
