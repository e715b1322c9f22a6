/**
 * Unsigned 32-bit words as the ULP program's C compiler sees them.
 * Unsigned arithmetic in C wraps modulo 2^32 (ISO C, section 6.2.5,
 * paragraph 9); Dafny integers are unbounded, so the wrap is written out.
 */
module Word32 {

  /** 2^32, the number of distinct `uint32_t` values. */
  const Modulus: int := 0x1_0000_0000

  /** The largest `uint32_t`, 4294967295. */
  const Max: int := Modulus - 1

  newtype u32 = x: int | 0 <= x < 0x1_0000_0000

  /**
   * The value that `x++` stores back into a `uint32_t`: one more, except
   * that the largest value wraps to 0 instead of saturating or faulting.
   */
  function Inc(x: u32): (r: u32)
    ensures x as int < Max ==> r as int == x as int + 1
    ensures x as int == Max ==> r == 0
    ensures (r as int - x as int - 1) % Modulus == 0
  {
    ((x as int + 1) % Modulus) as u32
  }
}
