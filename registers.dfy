/** The register file of the Sharp LR35902 (Game Boy DMG) CPU. */
module Cpu {
  import opened Bits
  import Flags

  /** Eight 8-bit registers, paired as AF, BC, DE and HL, and the 16-bit
      stack pointer and program counter. F holds the four flags in its top
      nibble. The fields are visible to the rest of the crate, as in
      `src/main.rs`, so callers may also assign them directly.

      The getters and setters keep the Rust code's own expressions
      (`f & FLAG_X != 0`, `f |= FLAG_X`, `f &= !FLAG_X`); their contracts tie
      each one to `Flags.Get` and `Flags.Put`, the pure definitions that the
      lemmas about sequences of flag writes are stated over. */
  class Registers {
    var a: Byte
    var f: Byte
    var b: Byte
    var c: Byte
    var d: Byte
    var e: Byte
    var h: Byte
    var l: Byte
    var sp: Word
    var pc: Word

    /** Every register, SP and PC included, starts at zero. */
    constructor ()
      ensures a == 0 && f == 0 && b == 0 && c == 0 && d == 0 && e == 0 && h == 0 && l == 0
      ensures sp == 0 && pc == 0
      ensures Flags.LowNibbleClear(f)
    {
      a, f, b, c, d, e, h, l := 0, 0, 0, 0, 0, 0, 0, 0;
      sp, pc := 0, 0;
    }

    /** AF: A is the high byte, F the low byte. */
    function AF(): (r: Word)
      reads this
      ensures r == a as Word * 256 + f as Word
      ensures High(r) == a && Low(r) == f
    {
      Join(a, f)
    }

    /** Writes the high byte to A and the low byte to F with its low nibble
        masked to zero, so AF reads back with its low four bits cleared. */
    method SetAF(value: Word)
      modifies this
      ensures a == High(value) && f == Low(value) & 0xF0
      ensures AF() == value & 0xFFF0
      ensures Flags.LowNibbleClear(f)
      ensures b == old(b) && c == old(c) && d == old(d) && e == old(e) && h == old(h) && l == old(l)
      ensures sp == old(sp) && pc == old(pc)
    {
      a := High(value);
      f := Low(value) & 0xF0;
    }

    /** BC: B is the high byte, C the low byte. */
    function BC(): (r: Word)
      reads this
      ensures r == b as Word * 256 + c as Word
      ensures High(r) == b && Low(r) == c
    {
      Join(b, c)
    }

    method SetBC(value: Word)
      modifies this
      ensures b == High(value) && c == Low(value)
      ensures BC() == value
      ensures a == old(a) && f == old(f) && d == old(d) && e == old(e) && h == old(h) && l == old(l)
      ensures sp == old(sp) && pc == old(pc)
    {
      b := High(value);
      c := Low(value);
    }

    /** DE: D is the high byte, E the low byte. */
    function DE(): (r: Word)
      reads this
      ensures r == d as Word * 256 + e as Word
      ensures High(r) == d && Low(r) == e
    {
      Join(d, e)
    }

    method SetDE(value: Word)
      modifies this
      ensures d == High(value) && e == Low(value)
      ensures DE() == value
      ensures a == old(a) && f == old(f) && b == old(b) && c == old(c) && h == old(h) && l == old(l)
      ensures sp == old(sp) && pc == old(pc)
    {
      d := High(value);
      e := Low(value);
    }

    /** HL: H is the high byte, L the low byte. */
    function HL(): (r: Word)
      reads this
      ensures r == h as Word * 256 + l as Word
      ensures High(r) == h && Low(r) == l
    {
      Join(h, l)
    }

    method SetHL(value: Word)
      modifies this
      ensures h == High(value) && l == Low(value)
      ensures HL() == value
      ensures a == old(a) && f == old(f) && b == old(b) && c == old(c) && d == old(d) && e == old(e)
      ensures sp == old(sp) && pc == old(pc)
    {
      h := High(value);
      l := Low(value);
    }

    /** The zero flag is bit 7 of F. */
    function Zero(): (r: bool)
      reads this
      ensures r == Bit(f, 7)
      ensures r == Flags.Get(f, Flags.Flag.Zero)
    {
      f & Flags.ZeroMask != 0
    }

    /** Sets or clears bit 7 of F; every other bit of F and every other
        register keeps its value. */
    method SetZero(value: bool)
      modifies this
      ensures Zero() == value
      ensures f == Flags.Put(old(f), Flags.Flag.Zero, value)
      ensures Flags.LowNibbleClear(old(f)) ==> Flags.LowNibbleClear(f)
      ensures a == old(a) && b == old(b) && c == old(c) && d == old(d) && e == old(e) && h == old(h) && l == old(l)
      ensures sp == old(sp) && pc == old(pc)
    {
      if value {
        f := f | Flags.ZeroMask;
      } else {
        f := f & !Flags.ZeroMask;
      }
    }

    /** The subtract flag is bit 6 of F. */
    function Subtract(): (r: bool)
      reads this
      ensures r == Bit(f, 6)
      ensures r == Flags.Get(f, Flags.Flag.Subtract)
    {
      f & Flags.SubtractMask != 0
    }

    /** Sets or clears bit 6 of F; every other bit of F and every other
        register keeps its value. */
    method SetSubtract(value: bool)
      modifies this
      ensures Subtract() == value
      ensures f == Flags.Put(old(f), Flags.Flag.Subtract, value)
      ensures Flags.LowNibbleClear(old(f)) ==> Flags.LowNibbleClear(f)
      ensures a == old(a) && b == old(b) && c == old(c) && d == old(d) && e == old(e) && h == old(h) && l == old(l)
      ensures sp == old(sp) && pc == old(pc)
    {
      if value {
        f := f | Flags.SubtractMask;
      } else {
        f := f & !Flags.SubtractMask;
      }
    }

    /** The half-carry flag is bit 5 of F. */
    function HalfCarry(): (r: bool)
      reads this
      ensures r == Bit(f, 5)
      ensures r == Flags.Get(f, Flags.Flag.HalfCarry)
    {
      f & Flags.HalfCarryMask != 0
    }

    /** Sets or clears bit 5 of F; every other bit of F and every other
        register keeps its value. */
    method SetHalfCarry(value: bool)
      modifies this
      ensures HalfCarry() == value
      ensures f == Flags.Put(old(f), Flags.Flag.HalfCarry, value)
      ensures Flags.LowNibbleClear(old(f)) ==> Flags.LowNibbleClear(f)
      ensures a == old(a) && b == old(b) && c == old(c) && d == old(d) && e == old(e) && h == old(h) && l == old(l)
      ensures sp == old(sp) && pc == old(pc)
    {
      if value {
        f := f | Flags.HalfCarryMask;
      } else {
        f := f & !Flags.HalfCarryMask;
      }
    }

    /** The carry flag is bit 4 of F. */
    function Carry(): (r: bool)
      reads this
      ensures r == Bit(f, 4)
      ensures r == Flags.Get(f, Flags.Flag.Carry)
    {
      f & Flags.CarryMask != 0
    }

    /** Sets or clears bit 4 of F; every other bit of F and every other
        register keeps its value. */
    method SetCarry(value: bool)
      modifies this
      ensures Carry() == value
      ensures f == Flags.Put(old(f), Flags.Flag.Carry, value)
      ensures Flags.LowNibbleClear(old(f)) ==> Flags.LowNibbleClear(f)
      ensures a == old(a) && b == old(b) && c == old(c) && d == old(d) && e == old(e) && h == old(h) && l == old(l)
      ensures sp == old(sp) && pc == old(pc)
    {
      if value {
        f := f | Flags.CarryMask;
      } else {
        f := f & !Flags.CarryMask;
      }
    }
  }
}
