/** Eight-bit register arithmetic as the driver uses it: single-bit masks
    `(1 << n)`, `|=` to set bits and `&= ~` to clear them. */
module Bits {

  /** The mask `1 << n` of bit `n` of a byte: exactly one bit is set. */
  function Mask(n: nat): (m: bv8)
    requires n < 8
    ensures m != 0 && m & (m - 1) == 0
    ensures IsSet(m, n)
  {
    1 << n
  }

  /** Bit `n` of `x` reads as 1 (tested by shifting it down to bit 0). */
  predicate IsSet(x: bv8, n: nat)
    requires n < 8
  {
    (x >> n) & 1 == 1
  }

  /** `x |= m`: every bit of `m` becomes 1, every other bit keeps its value. */
  function SetBits(x: bv8, m: bv8): (r: bv8)
    ensures r & m == m
    ensures r & !m == x & !m
  {
    x | m
  }

  /** `x &= ~m`: every bit of `m` becomes 0, every other bit keeps its value. */
  function ClearBits(x: bv8, m: bv8): (r: bv8)
    ensures r & m == 0
    ensures r & !m == x & !m
  {
    x & !m
  }

  /** Clearing a single bit and setting it again gives the same byte as only setting it:
      a transaction's `&= ~` followed by `|=` on the chip-select bit. */
  lemma ClearThenSet(x: bv8, n: nat)
    requires n < 8
    ensures SetBits(ClearBits(x, Mask(n)), Mask(n)) == SetBits(x, Mask(n))
    ensures IsSet(SetBits(x, Mask(n)), n)
  {
  }
}
