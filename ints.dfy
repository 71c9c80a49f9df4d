/** Fixed-width unsigned integers of the driver's Rust interface. */
module Ints {
  /** A byte on the wire, a register address or a 7-bit bus address (Rust `u8`). */
  newtype u8 = x: int | 0 <= x < 0x100

  /** The declared register width in bits (Rust `u32`). */
  newtype u32 = x: int | 0 <= x < 0x1_0000_0000
}
