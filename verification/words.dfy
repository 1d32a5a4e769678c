/** Machine words, and what several components compute with them. */
module Words {
  const TWO_16: nat := 0x1_0000
  const TWO_32: nat := 0x1_0000_0000
  const TWO_64: nat := 0x1_0000_0000_0000_0000

  type u16 = x: nat | x < TWO_16
  type u32 = x: nat | x < TWO_32
  type u64 = x: nat | x < TWO_64
  type usize = x: nat | x < TWO_64

  function Min(a: nat, b: nat): nat {
    if a <= b then a else b
  }
}
