/** The integer part of the ink shader's `hash1` (src/main.js, lines 157-162).
    GLSL `uint` arithmetic wraps modulo 2^32, which is exactly `bv32`. The
    final conversion to `float` and the division by `float(0x7fffffff)` are
    not modelled: the model stops at the masked integer. */
module Hash {

  /** Every bit of a 32-bit word except the top one. */
  const LowMask: bv32 := 0x7fff_ffff
  /** The top (sign) bit of a 32-bit word. */
  const TopBit: bv32 := 0x8000_0000

  /** The mixing steps before the mask: a shift-xor, then a cubic polynomial
      in the shifted word, all wrapping modulo 2^32. */
  function Mix(n: bv32): bv32 {
    var m := (n << 13) ^ n;
    m * (m * m * 15731 + 789221) + 1376312589
  }

  /** `n & 0x7fffffff` after mixing: the integer that `hash1` divides by
      0x7fffffff. It never exceeds the divisor, so the quotient lies in
      [0, 1]. */
  function Hash1Bits(n: bv32): (r: bv32)
    ensures r <= LowMask
  {
    Mix(n) & LowMask
  }

  /** `hash1` reduces the wrapped mix to [0, 2^31) by dropping its top bit:
      the value it divides by 0x7fffffff is the mix modulo 2^31. */
  lemma MaskIsRemainder(n: bv32)
    ensures Mix(n) < TopBit ==> Hash1Bits(n) == Mix(n)
    ensures Mix(n) >= TopBit ==> Hash1Bits(n) == Mix(n) - TopBit
  {
  }
}
