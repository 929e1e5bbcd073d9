/** Transaction identifiers (src/transaction/mod.rs). */
module TransactionIds {

  /** An opaque 32-bit unsigned identifier, unique across all clients. */
  newtype TransactionId = x: int | 0 <= x < 0x1_0000_0000
}
