/** Go's 64-bit integers. */
module Int64 {
  const TWO_63 := 0x8000_0000_0000_0000
  const TWO_64 := 0x1_0000_0000_0000_0000

  /** Two's complement in 64 bits. */
  function Wrap64(x: int): int {
    (x + TWO_63) % TWO_64 - TWO_63
  }

  /** It is in range, and a multiple of two to the 64 away. */
  lemma Wrap64Means(x: int) returns (k: int)
    ensures -0x8000_0000_0000_0000 <= Wrap64(x) < 0x8000_0000_0000_0000
    ensures x == Wrap64(x) + k * 0x1_0000_0000_0000_0000
  {
    k := (x + TWO_63) / TWO_64;
  }
}
