/** Fixed-width unsigned integers of the C driver, as bounded naturals. */
module Uint {

  const TWO_8: int := 0x100
  const TWO_16: int := 0x1_0000
  const TWO_32: int := 0x1_0000_0000
  const TWO_64: int := 0x1_0000_0000_0000_0000

  type u8 = x: int | 0 <= x < TWO_8
  type u16 = x: int | 0 <= x < TWO_16
  type u32 = x: int | 0 <= x < TWO_32
  type u64 = x: int | 0 <= x < TWO_64

  /** UINT32_MAX of <stdint.h>. */
  const UINT32_MAX: u32 := 0xFFFF_FFFF

  /** C's `a - b` on two uint32_t operands: no trap, the difference wraps modulo 2^32. */
  function Sub(a: u32, b: u32): (r: u32)
    ensures b <= a ==> r == a - b
    ensures a < b ==> r == a - b + TWO_32
    ensures (r + b) % TWO_32 == a
  {
    (a - b) % TWO_32
  }
}
