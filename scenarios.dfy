/** The register file's unit tests, written as client code: each method drives
    a fresh register file and returns what the test observes, and its
    postcondition is the test's expected values, proved from the contracts of
    the register file alone. */
module Scenarios {
  import opened Bits
  import opened Cpu

  /** A new register file has every register, SP and PC included, at zero. */
  method Initialization() returns (bytes: seq<Byte>, sp: Word, pc: Word)
    ensures bytes == [0, 0, 0, 0, 0, 0, 0, 0] && sp == 0 && pc == 0
  {
    var r := new Registers();
    bytes := [r.a, r.f, r.b, r.c, r.d, r.e, r.h, r.l];
    sp, pc := r.sp, r.pc;
  }

  /** Direct writes to the byte registers are seen through the pair getters. */
  method PairGetters() returns (af: Word, bc: Word, de: Word, hl: Word)
    ensures af == 0x1230 && bc == 0xABCD && de == 0x1122 && hl == 0xFF00
  {
    var r := new Registers();
    r.a, r.f := 0x12, 0x30;
    r.b, r.c := 0xAB, 0xCD;
    r.d, r.e := 0x11, 0x22;
    r.h, r.l := 0xFF, 0x00;
    af, bc, de, hl := r.AF(), r.BC(), r.DE(), r.HL();
  }

  /** set_af splits the word into A and F and drops the low nibble of F. */
  method SetAFMasksLowNibble() returns (a1: Byte, f1: Byte, a2: Byte, f2: Byte)
    ensures a1 == 0x34 && f1 == 0xF0
    ensures a2 == 0x12 && f2 == 0xF0
  {
    var r := new Registers();
    r.SetAF(0x34F0);
    a1, f1 := r.a, r.f;
    r.SetAF(0x12FF);
    a2, f2 := r.a, r.f;
  }

  /** The plain pair setters split the word into its high and low byte. */
  method PairSetters() returns (b: Byte, c: Byte, bc: Word, d: Byte, e: Byte, h: Byte, l: Byte)
    ensures b == 0x12 && c == 0x34 && bc == 0x1234
    ensures d == 0x56 && e == 0x78
    ensures h == 0xAB && l == 0xCD
  {
    var r := new Registers();
    r.SetBC(0x1234);
    b, c, bc := r.b, r.c, r.BC();
    r.SetDE(0x5678);
    d, e := r.d, r.e;
    r.SetHL(0xABCD);
    h, l := r.h, r.l;
  }

  /** The zero flag starts clear, reads as set after `SetZero(true)` with
      only bit 7 of F set, and reads as clear after `SetZero(false)`. */
  method ZeroFlagGetterAndSetter() returns (initially: bool, afterSet: bool, fAfterSet: Byte, afterClear: bool)
    ensures !initially && afterSet && fAfterSet == 0x80 && !afterClear
  {
    var r := new Registers();
    initially := r.Zero();
    r.SetZero(true);
    afterSet, fAfterSet := r.Zero(), r.f;
    r.SetZero(false);
    afterClear := r.Zero();
  }

  /** The subtract flag starts clear, reads as set after `SetSubtract(true)` with
      only bit 6 of F set, and reads as clear after `SetSubtract(false)`. */
  method SubtractFlagGetterAndSetter() returns (initially: bool, afterSet: bool, fAfterSet: Byte, afterClear: bool)
    ensures !initially && afterSet && fAfterSet == 0x40 && !afterClear
  {
    var r := new Registers();
    initially := r.Subtract();
    r.SetSubtract(true);
    afterSet, fAfterSet := r.Subtract(), r.f;
    r.SetSubtract(false);
    afterClear := r.Subtract();
  }

  /** The half-carry flag starts clear, reads as set after `SetHalfCarry(true)` with
      only bit 5 of F set, and reads as clear after `SetHalfCarry(false)`. */
  method HalfCarryFlagGetterAndSetter() returns (initially: bool, afterSet: bool, fAfterSet: Byte, afterClear: bool)
    ensures !initially && afterSet && fAfterSet == 0x20 && !afterClear
  {
    var r := new Registers();
    initially := r.HalfCarry();
    r.SetHalfCarry(true);
    afterSet, fAfterSet := r.HalfCarry(), r.f;
    r.SetHalfCarry(false);
    afterClear := r.HalfCarry();
  }

  /** The carry flag starts clear, reads as set after `SetCarry(true)` with
      only bit 4 of F set, and reads as clear after `SetCarry(false)`. */
  method CarryFlagGetterAndSetter() returns (initially: bool, afterSet: bool, fAfterSet: Byte, afterClear: bool)
    ensures !initially && afterSet && fAfterSet == 0x10 && !afterClear
  {
    var r := new Registers();
    initially := r.Carry();
    r.SetCarry(true);
    afterSet, fAfterSet := r.Carry(), r.f;
    r.SetCarry(false);
    afterClear := r.Carry();
  }

  /** Setting or clearing one flag leaves the others as they were. */
  method FlagIndependence() returns (f1: Byte, f2: Byte, f3: Byte, zero2: bool, carry2: bool, carry3: bool, subtract3: bool)
    ensures f1 == 0x90
    ensures f2 == 0x10 && !zero2 && carry2
    ensures f3 == 0x50 && carry3 && subtract3
  {
    var r := new Registers();
    r.SetZero(true);
    r.SetCarry(true);
    f1 := r.f;
    r.SetZero(false);
    f2, zero2, carry2 := r.f, r.Zero(), r.Carry();
    r.SetSubtract(true);
    f3, carry3, subtract3 := r.f, r.Carry(), r.Subtract();
  }

  /** Setting all four flags gives F = 0xF0; clearing all four gives F = 0. */
  method AllFlagsSetAndClear() returns (fSet: Byte, allSet: bool, fCleared: Byte, noneSet: bool)
    ensures fSet == 0xF0 && allSet
    ensures fCleared == 0x00 && noneSet
  {
    var r := new Registers();
    r.SetZero(true);
    r.SetSubtract(true);
    r.SetHalfCarry(true);
    r.SetCarry(true);
    fSet := r.f;
    allSet := r.Zero() && r.Subtract() && r.HalfCarry() && r.Carry();
    r.SetZero(false);
    r.SetSubtract(false);
    r.SetHalfCarry(false);
    r.SetCarry(false);
    fCleared := r.f;
    noneSet := !r.Zero() && !r.Subtract() && !r.HalfCarry() && !r.Carry();
  }

  /** With zero and half-carry set, the four getters read exactly those two. */
  method ReadMultipleFlags() returns (zero: bool, subtract: bool, halfCarry: bool, carry: bool)
    ensures zero && !subtract && halfCarry && !carry
  {
    var r := new Registers();
    r.SetZero(true);
    r.SetHalfCarry(true);
    zero, subtract, halfCarry, carry := r.Zero(), r.Subtract(), r.HalfCarry(), r.Carry();
  }
}
