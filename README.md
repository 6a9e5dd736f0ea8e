# Game Boy CPU register file

A Dafny model of the register file of the Sharp LR35902, the CPU of the Game
Boy (DMG), as implemented by `struct Registers` in `src/main.rs`. The model
covers:
- the eight 8-bit registers A, F, B, C, D, E, H and L, and the 16-bit stack
  pointer and program counter;
- the four 16-bit pair views AF, BC, DE and HL, each with a getter and a setter;
- the four flags (zero, subtract, half-carry and carry) kept in bits 7 to 4 of
  F, each with a getter and a setter.

Registers are `bv8` and `bv16` values, so the shifts, masks and truncating
casts of the Rust code are exact bit-vector operations.

- `bits.dfy` (module `Bits`): joining two bytes into a pair, splitting a pair
  into its high and low byte, and bit `n` of a byte. The values are proved
  both in 16-bit arithmetic and as unbounded integers.
- `flags.dfy` (module `Flags`): the `FLAG_*` masks and the flag getter and
  setter as pure functions on F. It also models a sequence of setter calls and
  proves three things about it. Each flag reads as the last value written to it.
  The low nibble of F never changes. Starting from an F whose low nibble is
  clear, the result is exactly the byte packed from the last value written to
  each flag.
- `registers.dfy` (module `Cpu`): `class Registers` with mutable fields. The
  getters are functions that read the fields. `new` is the constructor. Every
  setter is a method with `modifies this` whose postconditions give the whole
  new state.
- `scenarios.dfy` (module `Scenarios`): the unit tests of `src/main.rs`
  written as client methods. Each method returns what its tests observe, and
  its postcondition holds the expected values. They are proved from the
  register file's contracts alone. Each flag test and the initialization test
  has its own method. `PairGetters`, `SetAFMasksLowNibble` and `PairSetters`
  each run several tests of one kind on a single register file. This is sound
  because each of those tests overwrites every register it reads.

The source does not enforce the "low nibble of F is zero" invariant: the fields
are visible inside the crate, and the tests assign `f` directly. So the model
does not require it of callers. `new` and `set_af` establish it, each flag
setter preserves it, and the pair getters and setters neither need nor lose it.

## Model

| member | source | states |
|---|---|---|
| `Bits.Join` | src/main.rs:60-62 | a pair is hi * 256 + lo, and splitting it gives back hi and lo |
| `Bits.High` | src/main.rs:68 | `value >> 8` as a byte is the quotient of the word by 256 |
| `Bits.Low` | src/main.rs:78 | the truncating cast `value as u8` is the remainder of the word by 256 |
| `Bits.JoinValue` | src/main.rs:60-62 | as an unbounded integer, a pair is hi * 256 + lo |
| `Bits.SplitValue` | src/main.rs:76-79 | as unbounded integers, `value >> 8` is the word's quotient by 256 and `value as u8` its remainder |
| `Flags.Mask` | src/main.rs:3-6 | each `FLAG_*` constant has exactly one bit set: bit 7, 6, 5 or 4 |
| `Flags.Get` | src/main.rs:99-101 | a flag getter `(f & FLAG_X) != 0` reads exactly the flag's own bit of F |
| `Flags.Put` | src/main.rs:103-109 | after OR-ing the mask in or AND-ing its complement, the flag reads as the value given, every other bit of F is unchanged, every other flag is unchanged, and the low nibble is unchanged |
| `Flags.Pack` | src/main.rs:3-6 | the byte built from four flag values has a clear low nibble, and each flag reads back as given |
| `Flags.Unpack` | src/main.rs:99-137 | reading the four flags of an F whose low nibble is clear and packing them again gives F back, so such an F is determined by its flags |
| `Flags.ApplyWritesLastWins` | src/main.rs:99-145 | after any sequence of flag setter calls, each flag reads as the last value written to it, or as before if it was never written |
| `Flags.ApplyWritesKeepsLowNibble` | src/main.rs:103-145 | no sequence of flag setter calls changes the low nibble of F |
| `Flags.ApplyWritesIsPack` | src/main.rs:103-145 | from an F with a clear low nibble, any sequence of flag setter calls leaves exactly the byte packed from the last value written to each flag |
| `Cpu.Registers.constructor` | src/main.rs:45-57 | every register, SP and PC included, is zero, so F's low nibble is clear |
| `Cpu.Registers.AF` | src/main.rs:60-62 | AF is A * 256 + F, with A as its high byte and F as its low byte |
| `Cpu.Registers.SetAF` | src/main.rs:64-70 | A is the high byte and F the low byte masked with 0xF0, so AF reads back as the value with its low nibble cleared and F's low nibble is zero; nothing else changes |
| `Cpu.Registers.BC` | src/main.rs:72-74 | BC is B * 256 + C, with B as its high byte and C as its low byte |
| `Cpu.Registers.SetBC` | src/main.rs:76-79 | B is the high byte and C the low byte of the value, BC reads back as the value, and nothing else changes |
| `Cpu.Registers.DE` | src/main.rs:81-83 | DE is D * 256 + E, with D as its high byte and E as its low byte |
| `Cpu.Registers.SetDE` | src/main.rs:85-88 | D is the high byte and E the low byte of the value, DE reads back as the value, and nothing else changes |
| `Cpu.Registers.HL` | src/main.rs:90-92 | HL is H * 256 + L, with H as its high byte and L as its low byte |
| `Cpu.Registers.SetHL` | src/main.rs:94-97 | H is the high byte and L the low byte of the value, HL reads back as the value, and nothing else changes |
| `Cpu.Registers.Zero` | src/main.rs:99-101 | the zero flag is bit 7 of F |
| `Cpu.Registers.SetZero` | src/main.rs:103-109 | the zero flag reads back as the value, F is the pure flag update of its old value, a clear low nibble stays clear, and no other register changes |
| `Cpu.Registers.Subtract` | src/main.rs:111-113 | the subtract flag is bit 6 of F |
| `Cpu.Registers.SetSubtract` | src/main.rs:115-121 | the subtract flag reads back as the value, F is the pure flag update of its old value, a clear low nibble stays clear, and no other register changes |
| `Cpu.Registers.HalfCarry` | src/main.rs:123-125 | the half-carry flag is bit 5 of F |
| `Cpu.Registers.SetHalfCarry` | src/main.rs:127-133 | the half-carry flag reads back as the value, F is the pure flag update of its old value, a clear low nibble stays clear, and no other register changes |
| `Cpu.Registers.Carry` | src/main.rs:135-137 | the carry flag is bit 4 of F |
| `Cpu.Registers.SetCarry` | src/main.rs:139-145 | the carry flag reads back as the value, F is the pure flag update of its old value, a clear low nibble stays clear, and no other register changes |
| `Scenarios.Initialization` | src/main.rs:168-181 | after `new`, the eight byte registers, SP and PC are all zero |
| `Scenarios.PairGetters` | src/main.rs:183-213 | direct byte writes read back through the pair getters as 0x1230, 0xABCD, 0x1122 and 0xFF00 |
| `Scenarios.SetAFMasksLowNibble` | src/main.rs:215-229 | `set_af(0x34F0)` gives A = 0x34, F = 0xF0, and `set_af(0x12FF)` gives A = 0x12, F = 0xF0 |
| `Scenarios.PairSetters` | src/main.rs:231-254 | `set_bc`, `set_de` and `set_hl` split 0x1234, 0x5678 and 0xABCD into their bytes |
| `Scenarios.ZeroFlagGetterAndSetter` | src/main.rs:256-265 | the zero flag starts clear, set gives F = 0x80, and clear reads false |
| `Scenarios.SubtractFlagGetterAndSetter` | src/main.rs:267-276 | the subtract flag starts clear, set gives F = 0x40, and clear reads false |
| `Scenarios.HalfCarryFlagGetterAndSetter` | src/main.rs:278-287 | the half-carry flag starts clear, set gives F = 0x20, and clear reads false |
| `Scenarios.CarryFlagGetterAndSetter` | src/main.rs:289-298 | the carry flag starts clear, set gives F = 0x10, and clear reads false |
| `Scenarios.FlagIndependence` | src/main.rs:300-321 | zero and carry give F = 0x90; clearing zero leaves carry (F = 0x10); setting subtract keeps carry (F = 0x50) |
| `Scenarios.AllFlagsSetAndClear` | src/main.rs:323-350 | from `new`, setting all four flags gives F = 0xF0 with all four reading true; clearing all four gives F = 0 with none reading true |
| `Scenarios.ReadMultipleFlags` | src/main.rs:352-364 | with zero and half-carry set, the getters read true, false, true, false |

## Left out

- `main` (src/main.rs:148-162) only prints the registers to the console and then calls the pair setters. Printing is I/O, and the setters are modelled.
- The derived `Debug` formatter (src/main.rs:17) is generated by the Rust library and is not modelled.
- The rest of the emulator is not part of this model: instruction decode and execution, memory routing and cartridge banking, interrupts, the timer and the picture processor. The repository holds only the register file.
- On the LR35902, F's low nibble always reads as zero. The Rust code does not enforce this, because any direct assignment to `f` can break it. The model follows the code: this is stated as what `new` and `set_af` establish and what the flag setters preserve, not as a class invariant.
