/** Byte and word helpers for the register file: the u8/u16 values of the CPU
    and the shift-and-mask expressions that join two bytes into a 16-bit pair
    and split a pair back into its bytes. */
module Bits {

  /** An 8-bit register value (u8). */
  type Byte = bv8

  /** A 16-bit register or register-pair value (u16). */
  type Word = bv16

  /** `(hi as u16) << 8 | (lo as u16)`: the 16-bit view of a register pair.
      Its value is hi * 256 + lo, and splitting it gives back both bytes. */
  function Join(hi: Byte, lo: Byte): (r: Word)
    ensures r == hi as Word * 256 + lo as Word
    ensures High(r) == hi && Low(r) == lo
  {
    (hi as Word << 8) | lo as Word
  }

  /** `(value >> 8) as u8`: the high byte of a word, its quotient by 256. */
  function High(v: Word): (r: Byte)
    ensures r as Word == v / 256
  {
    (v >> 8) as Byte
  }

  /** `value as u8`: the truncating cast keeps the low byte, the remainder by 256. */
  function Low(v: Word): (r: Byte)
    ensures r as Word == v % 256
  {
    (v & 0xFF) as Byte
  }

  /** The value of a pair as an unbounded integer: hi * 256 + lo. */
  lemma JoinValue(hi: Byte, lo: Byte)
    ensures Join(hi, lo) as int == hi as int * 256 + lo as int
  {
    assert Join(hi, lo) == (hi as Word << 8) | lo as Word;
    ShiftOrValue(hi, lo);
  }

  /** The high and low byte of a word as unbounded integers: its quotient
      and remainder by 256. */
  lemma SplitValue(v: Word)
    ensures High(v) as int == v as int / 256
    ensures Low(v) as int == v as int % 256
  {
    ShiftRightValue(v);
    ShiftOrValue(High(v), Low(v));
    assert Join(High(v), Low(v)) == v;
  }

  lemma ShiftOrValue(hi: Byte, lo: Byte)
    ensures ((hi as Word << 8) | lo as Word) as int == hi as int * 256 + lo as int
  {
  }

  lemma ShiftRightValue(v: Word)
    ensures ((v >> 8) as Byte) as int == v as int / 256
  {
  }

  /** Bit `n` of a byte, counted from the least significant bit 0. */
  predicate Bit(x: Byte, n: nat)
    requires n < 8
  {
    (x >> n) & 1 == 1
  }
}
