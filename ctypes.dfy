/** Fixed-width C integer types and the C arithmetic the player relies on:
    truncating division, wrap-around, two's-complement reading of a byte,
    and saturation to the int16 range. */
module CTypes {

  type byte = x: int | 0 <= x < 0x100
  type u16 = x: int | 0 <= x < 0x1_0000
  type u32 = x: int | 0 <= x < 0x1_0000_0000
  type i16 = x: int | -0x8000 <= x < 0x8000

  datatype Option<T> = None | Some(value: T)

  /** Conversion of an int to uint16_t: reduction modulo 2^16. */
  function WrapU16(x: int): (r: u16)
    ensures 0 <= x < 0x1_0000 ==> r == x
    ensures (x - r) % 0x1_0000 == 0
  {
    x % 0x1_0000
  }

  /** Conversion of an int to uint32_t: reduction modulo 2^32. */
  function WrapU32(x: int): (r: u32)
    ensures 0 <= x < 0x1_0000_0000 ==> r == x
    ensures (x - r) % 0x1_0000_0000 == 0
  {
    x % 0x1_0000_0000
  }

  /** C's `x / 64` on a signed int: the quotient is truncated toward zero,
      so the remainder takes the sign of the dividend (Dafny's own `/` is
      Euclidean and differs for negative `x`). */
  function CDiv64(x: int): (q: int)
    ensures 0 <= x ==> 0 <= 64 * q <= x < 64 * q + 64
    ensures x < 0 ==> 64 * q - 64 < x <= 64 * q <= 0
  {
    if x >= 0 then x / 64 else -((-x) / 64)
  }

  /** Reading an unsigned byte through an int8_t pointer. */
  function Signed8(b: byte): (v: int)
    ensures -0x80 <= v < 0x80
    ensures (v - b) % 0x100 == 0
  {
    if b < 0x80 then b else b - 0x100
  }

  /** Saturation of a 32-bit mix value to the int16 range. */
  function Clamp16(x: int): (r: i16)
    ensures -0x8000 <= x < 0x8000 <==> r == x
    ensures x >= 0x8000 ==> r == 0x7FFF
    ensures x < -0x8000 ==> r == -0x8000
  {
    if x > 0x7FFF then 0x7FFF else if x < -0x8000 then -0x8000 else x
  }
}
