/** Machine words and byte strings. */
module Words {
  const WORD: nat := 0x1_0000_0000_0000_0000
  const U64_MAX: nat := 0xFFFF_FFFF_FFFF_FFFF

  type u64 = x: nat | x <= U64_MAX

  type Bytes = seq<bv8>
}
