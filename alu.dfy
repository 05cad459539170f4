/**
 * The four arithmetic helpers of the instruction set (`add8`, `sub8`, `add16`
 * and `add16_special`). Each computes a truncated value and the half-carry and
 * carry flags. The contracts characterise the flags independently of how the
 * helpers compute them: the carry through the full-width sum, and the carry
 * (or borrow) into a bit as that bit of `a ^ b ^ result`.
 */
module Alu {
  import opened Bits

  /** A truncated 8-bit result with its half-carry (or half-borrow) and carry (or borrow). */
  datatype ByteResult = ByteResult(value: Byte, half: bool, carry: bool)

  /** A truncated 16-bit result with its half-carry and carry. */
  datatype WordResult = WordResult(value: Word, half: bool, carry: bool)

  /**
   * add8: the sum of two bytes and a carry-in. With the carry-ins 0 and 1 that
   * every caller passes, the value and C together make the 9-bit sum, and H is
   * the carry into bit 4.
   */
  function Add8(a: Byte, b: Byte, carryIn: Byte): (r: ByteResult)
    ensures carryIn <= 1 ==>
      r.value as Word + (if r.carry then 0x100 else 0) == a as Word + b as Word + carryIn as Word
    ensures carryIn <= 1 ==> r.half == ((a ^ b ^ r.value) & 0x10 != 0)
  {
    ByteResult(a + b + carryIn, (a & 0xF) + (b & 0xF) + carryIn > 0xF,
               (a as Word) + (b as Word) + (carryIn as Word) > 0xFF)
  }

  /**
   * sub8: the difference `a - b`; the carry-in does not enter the value. With a
   * carry-in of 0 or 1, C is the borrow out of `a - b - carryIn` (bit 8 of that
   * difference taken over 16 bits) and H the borrow into its bit 4.
   */
  function Sub8(a: Byte, b: Byte, carryIn: Byte): (r: ByteResult)
    ensures r.value + b == a
    ensures carryIn <= 1 ==> r.carry == ((a as Word - b as Word - carryIn as Word) & 0x100 != 0)
    ensures carryIn <= 1 ==> r.half == ((a ^ b ^ (a - b - carryIn)) & 0x10 != 0)
  {
    ByteResult(a - b, (a & 0xF) < (b & 0xF) + carryIn, (a as Word) < (b as Word) + (carryIn as Word))
  }

  /** add16: the wrapped 16-bit sum; H is the carry into bit 12 and C bit 16 of the 17-bit sum. */
  function Add16(a: Word, b: Word): (r: WordResult)
    ensures r.value == a + b
    ensures r.half == ((a ^ b ^ r.value) & 0x1000 != 0)
    ensures r.carry == ((a as bv32 + b as bv32) & 0x10000 != 0)
  {
    WordResult(a + b, (a & 0xFFF) + (b & 0xFFF) > 0xFFF, (a as bv32) + (b as bv32) > 0xFFFF)
  }

  /**
   * add16_special, used by ADD SP,e8 and LD HL,SP+e8: the wrapped 16-bit sum, H
   * the carry into bit 4, and C set by any 17-bit sum of 0x100 or more, which is
   * not the carry out of bit 7 (0x0100 + 0 sets it).
   */
  function Add16Special(a: Word, b: Word): (r: WordResult)
    ensures r.value == a + b
    ensures r.half == ((a ^ b ^ r.value) & 0x10 != 0)
    ensures r.carry == (a as bv32 + b as bv32 >= 0x100)
  {
    WordResult(a + b, (a & 0xF) + (b & 0xF) > 0xF, (a as bv32) + (b as bv32) > 0xFF)
  }
}
