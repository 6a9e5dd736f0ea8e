/** The four CPU flags kept in the top nibble of the F register, and what
    reading and writing them does to F. */
module Flags {
  import opened Bits

  /** FLAG_ZERO: bit 7 of F. */
  const ZeroMask: Byte := 0x80
  /** FLAG_SUBTRACT: bit 6 of F. */
  const SubtractMask: Byte := 0x40
  /** FLAG_HALF_CARRY: bit 5 of F. */
  const HalfCarryMask: Byte := 0x20
  /** FLAG_CARRY: bit 4 of F. */
  const CarryMask: Byte := 0x10

  datatype Flag = Zero | Subtract | HalfCarry | Carry

  /** The bit of F that holds a flag. */
  function Position(flag: Flag): (n: nat)
    ensures 4 <= n < 8
  {
    match flag
    case Zero => 7
    case Subtract => 6
    case HalfCarry => 5
    case Carry => 4
  }

  /** The FLAG_* constant of a flag: a byte whose only set bit is the flag's. */
  function Mask(flag: Flag): (m: Byte)
    ensures forall n :: 0 <= n < 8 ==> (Bit(m, n) <==> n == Position(flag))
  {
    match flag
    case Zero => ZeroMask
    case Subtract => SubtractMask
    case HalfCarry => HalfCarryMask
    case Carry => CarryMask
  }

  /** The bits of F below the flags; the hardware keeps them zero. */
  function LowNibble(f: Byte): Byte
  {
    f & 0x0F
  }

  predicate LowNibbleClear(f: Byte)
  {
    LowNibble(f) == 0
  }

  /** Flag getter: `(f & FLAG_X) != 0`, which is the flag's own bit of F. */
  function Get(f: Byte, flag: Flag): (r: bool)
    ensures r == Bit(f, Position(flag))
  {
    f & Mask(flag) != 0
  }

  /** Flag setter: `f |= FLAG_X` to set, `f &= !FLAG_X` to clear. Afterwards
      the flag reads as `value`, and every other bit of F, so every other flag
      and the low nibble, is what it was. */
  function Put(f: Byte, flag: Flag, value: bool): (r: Byte)
    ensures Get(r, flag) == value
    ensures forall n :: 0 <= n < 8 && n != Position(flag) ==> Bit(r, n) == Bit(f, n)
    ensures forall g :: g != flag ==> Get(r, g) == Get(f, g)
    ensures LowNibble(r) == LowNibble(f)
  {
    if value then f | Mask(flag) else f & !Mask(flag)
  }

  /** The F register built from four flag values, with the low nibble zero. */
  function Pack(zero: bool, subtract: bool, halfCarry: bool, carry: bool): (r: Byte)
    ensures LowNibbleClear(r)
    ensures Get(r, Zero) == zero && Get(r, Subtract) == subtract
    ensures Get(r, HalfCarry) == halfCarry && Get(r, Carry) == carry
  {
    (if zero then ZeroMask else 0) | (if subtract then SubtractMask else 0) |
    (if halfCarry then HalfCarryMask else 0) | (if carry then CarryMask else 0)
  }

  /** The four flags of F, in the order zero, subtract, half-carry, carry.
      When the low nibble of F is clear, packing them gives F back. */
  function Unpack(f: Byte): (r: (bool, bool, bool, bool))
    ensures LowNibbleClear(f) ==> Pack(r.0, r.1, r.2, r.3) == f
  {
    (Get(f, Zero), Get(f, Subtract), Get(f, HalfCarry), Get(f, Carry))
  }

  /** One call of a flag setter: `set_X(value)`. */
  datatype FlagWrite = FlagWrite(flag: Flag, value: bool)

  /** F after the setter calls `ws`, in order, starting from `f`. */
  function ApplyWrites(f: Byte, ws: seq<FlagWrite>): Byte
    decreases |ws|
  {
    if ws == [] then f
    else
      var last := ws[|ws| - 1];
      Put(ApplyWrites(f, ws[..|ws| - 1]), last.flag, last.value)
  }

  /** The value of the last write to `flag` in `ws`, or `initial` if there is none. */
  function LastWrite(ws: seq<FlagWrite>, flag: Flag, initial: bool): bool
    decreases |ws|
  {
    if ws == [] then initial
    else if ws[|ws| - 1].flag == flag then ws[|ws| - 1].value
    else LastWrite(ws[..|ws| - 1], flag, initial)
  }

  /** After any sequence of setter calls, each flag reads as the last value
      written to it, or as before if it was never written. */
  lemma {:induction false} ApplyWritesLastWins(f: Byte, ws: seq<FlagWrite>, flag: Flag)
    ensures Get(ApplyWrites(f, ws), flag) == LastWrite(ws, flag, Get(f, flag))
    decreases |ws|
  {
    if ws != [] {
      ApplyWritesLastWins(f, ws[..|ws| - 1], flag);
    }
  }

  /** No sequence of setter calls touches the low nibble of F. */
  lemma {:induction false} ApplyWritesKeepsLowNibble(f: Byte, ws: seq<FlagWrite>)
    ensures LowNibble(ApplyWrites(f, ws)) == LowNibble(f)
    decreases |ws|
  {
    if ws != [] {
      ApplyWritesKeepsLowNibble(f, ws[..|ws| - 1]);
    }
  }

  /** Starting from an F with a clear low nibble, any sequence of setter calls
      leaves exactly the byte packed from the last value written to each flag. */
  lemma {:induction false} ApplyWritesIsPack(f: Byte, ws: seq<FlagWrite>)
    requires LowNibbleClear(f)
    ensures ApplyWrites(f, ws) == Pack(LastWrite(ws, Zero, Get(f, Zero)),
                                       LastWrite(ws, Subtract, Get(f, Subtract)),
                                       LastWrite(ws, HalfCarry, Get(f, HalfCarry)),
                                       LastWrite(ws, Carry, Get(f, Carry)))
  {
    ApplyWritesKeepsLowNibble(f, ws);
    ApplyWritesLastWins(f, ws, Zero);
    ApplyWritesLastWins(f, ws, Subtract);
    ApplyWritesLastWins(f, ws, HalfCarry);
    ApplyWritesLastWins(f, ws, Carry);
    var flags := Unpack(ApplyWrites(f, ws));
    assert Pack(flags.0, flags.1, flags.2, flags.3) == ApplyWrites(f, ws);
  }
}
