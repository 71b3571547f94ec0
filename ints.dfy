/** Fixed-width unsigned integers of the native ABI, and the `as u8` cast. */
module Ints {

  newtype u8 = x: int | 0 <= x < 0x100
  newtype u32 = x: int | 0 <= x < 0x1_0000_0000

  /** A 64-bit float, kept as its bit pattern: the layer copies it and never computes with it. */
  newtype F64Bits = x: int | 0 <= x < 0x1_0000_0000_0000_0000

  /** The bit pattern of the IEEE 754 double 1.0. */
  const F64_ONE: F64Bits := 0x3FF0_0000_0000_0000

  /** Rust's `n as u8`: keeps the low eight bits. */
  function AsU8(n: nat): (r: u8)
    ensures r as int == n <==> n < 0x100
    ensures (r as int) < 0x100 && r as int <= n
  {
    (n % 0x100) as u8
  }

  /** Rust's `b as u8` on a bool. */
  function BoolAsU8(b: bool): (r: u8)
    ensures r == 0 || r == 1
    ensures b <==> r != 0
  {
    if b then 1 else 0
  }
}
