/** Fixed-width unsigned integers of the C sources, and the conversions C applies
    when a wider intermediate result is stored back into a narrower variable. */
module Uint {

  type U8 = n: nat | n < 0x100
  type U16 = n: nat | n < 0x1_0000
  type U32 = n: nat | n < 0x1_0000_0000

  /** Conversion of an integer to uint16_t: reduction modulo 2^16. */
  function Wrap16(n: int): (r: U16)
    ensures 0 <= n < 0x1_0000 ==> r == n
    ensures (r - n) % 0x1_0000 == 0
  {
    n % 0x1_0000
  }

  /** Conversion of an integer to uint32_t: reduction modulo 2^32. */
  function Wrap32(n: int): (r: U32)
    ensures 0 <= n < 0x1_0000_0000 ==> r == n
    ensures (r - n) % 0x1_0000_0000 == 0
  {
    n % 0x1_0000_0000
  }
}
