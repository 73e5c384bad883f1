/**
 C's 32-bit words: reduction modulo 2^32 and the conversion of an unsigned value to int.
 */
module Words {
  const U32 := 0x1_0000_0000
  const U64 := 0x1_0000_0000_0000_0000
  const INT_MAX := 0x7FFF_FFFF
  const INT_MIN := -0x8000_0000

  predicate IsInt(x: int) { INT_MIN <= x <= INT_MAX }

  /** Conversion of an unsigned 32-bit value to int. */
  function ToInt(x: nat): (r: int)
    requires x < U32
    ensures IsInt(r) && (r - x) % U32 == 0
  {
    if x <= INT_MAX then x else x - U32
  }
}
