/** The arithmetic with which both hash tables choose a chain. */
module Hashing {
  /** One more than the largest unsigned long. */
  const ULONG: nat := 0x1_0000_0000_0000_0000
}
