/**
 * Fixed-width integers of the emulator. Rust's u8 and u16 become bit-vectors,
 * so the wrap-around of Rust's wrapping operators (and of plain +/- in an
 * optimised build) is the bit-vector arithmetic itself.
 */
module Bits {
  type Byte = bv8
  type Word = bv16

  datatype Option<T> = None | Some(value: T)

  /** The 16-bit word with high byte `msb` and low byte `lsb` (generate_16bit). */
  function Join(lsb: Byte, msb: Byte): Word {
    ((msb as Word) << 8) | (lsb as Word)
  }

  /** `(w >> 8) as u8`, the high byte of a word. */
  function High(w: Word): Byte {
    (w >> 8) as Byte
  }

  /** `(w & 0xFF) as u8`, the low byte of a word. */
  function Low(w: Word): Byte {
    (w & 0xFF) as Byte
  }

  /** Splitting a word into its two bytes and joining them again gives the word back. */
  lemma JoinSplit(w: Word)
    ensures Join(Low(w), High(w)) == w
  {
  }

  /** Joining two bytes and splitting the word gives both bytes back. */
  lemma SplitJoin(lsb: Byte, msb: Byte)
    ensures High(Join(lsb, msb)) == msb && Low(Join(lsb, msb)) == lsb
  {
  }

  /** The value of a byte read as `i8`. */
  function Signed(e: Byte): (v: int)
    ensures -128 <= v < 128
  {
    if e < 0x80 then e as int else e as int - 256
  }

  /** `e as i8 as i16 as u16`: the byte sign-extended to a word. */
  function SignExtend(e: Byte): Word {
    if e < 0x80 then e as Word else (e as Word) | 0xFF00
  }

  /** Sign extension keeps the two's-complement value: it is `Signed(e)` modulo 2^16. */
  lemma SignExtendValue(e: Byte)
    ensures SignExtend(e) as int == Signed(e) % 0x10000
  {
  }
}
