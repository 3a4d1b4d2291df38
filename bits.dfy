/** Fixed-width unsigned integers of the machine and the byte operations its
    registers use. Values are integers restricted to their range; every store
    into a narrower type truncates explicitly, as C++ does when it assigns an
    `int` to a `uint8_t` or `uint16_t`. */
module Bits {

  /** An unsigned 8-bit value (`uint8_t`). */
  type Byte = x: int | 0 <= x < 0x100

  /** An unsigned 16-bit value (`uint16_t`). */
  type Word = x: int | 0 <= x < 0x1_0000

  /** One hexadecimal digit of an opcode; also a register or key index. */
  type Nibble = x: int | 0 <= x < 0x10

  /** The low 8 bits of `x`: what a `uint8_t` keeps of an `int` stored into it. */
  function Trunc8(x: int): (r: Byte)
    ensures (x - r) % 0x100 == 0
    ensures 0 <= x < 0x100 ==> r == x
  {
    x % 0x100
  }

  /** The low 16 bits of `x`: what a `uint16_t` keeps of an `int` stored into it. */
  function Trunc16(x: int): (r: Word)
    ensures (x - r) % 0x1_0000 == 0
    ensures 0 <= x < 0x1_0000 ==> r == x
  {
    x % 0x1_0000
  }

  /** C++ `a | b` on two `uint8_t` values. */
  function Or8(a: Byte, b: Byte): Byte
  {
    ((a as bv8) | (b as bv8)) as int
  }

  /** C++ `a & b` on two `uint8_t` values. */
  function And8(a: Byte, b: Byte): Byte
  {
    ((a as bv8) & (b as bv8)) as int
  }

  /** C++ `a ^ b` on two `uint8_t` values. */
  function Xor8(a: Byte, b: Byte): Byte
  {
    ((a as bv8) ^ (b as bv8)) as int
  }

  /** The least-significant bit of `a`, as 0 or 1; agrees with the mask `a & 0b00000001`. */
  function Lsb(a: Byte): (r: Byte)
    ensures r == ((a as bv8) & 0x01) as int
  {
    a % 2
  }

  /** The most-significant bit of `a`, as 0 or 1; it is 1 exactly when the mask `a & 0b10000000` is nonzero. */
  function Msb(a: Byte): (r: Byte)
    ensures r == if (a as bv8) & 0x80 != 0 then 1 else 0
  {
    if a >= 0x80 then 1 else 0
  }
}
