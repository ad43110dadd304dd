/** Machine words, fixed at 64 bits. */
module Words {
  /** One more than the largest `usize`: the model fixes a 64-bit word. */
  const WORD_MODULUS := 0x1_0000_0000_0000_0000

  /** Rust's `usize`. */
  type Usize = n: int | 0 <= n < WORD_MODULUS

  /** The bit pattern of a thin pointer (`*const ()` or `*mut ()`): an opaque word. */
  type Address = Usize
}
