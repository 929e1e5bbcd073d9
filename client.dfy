/** Client identifiers (src/client.rs). */
module Clients {

  /** A client is an opaque 16-bit unsigned identifier, compared by value. */
  newtype Client = x: int | 0 <= x < 0x1_0000
}
