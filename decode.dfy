/** Instruction decode: the top nibble of a word selects one of sixteen entries
    of the primary table; three of those entries dispatch once more, on the low
    byte (families 0 and F) or on the low nibble (family 8, through a second table). */
module Decode {
  import opened Words

  /** The member functions of the machine an instruction word can reach.
      Group00E, Arithmetic and GroupFx dispatch further; GroupEx is the family E
      entry, an empty stub that selects nothing; Null is the silent filler of the
      arithmetic table and Default the "bad opcode" diagnostic. */
  datatype Handler =
    | Group00E | Cls | Ret
    | Jp | Call | SeByte | SneByte | SeReg | LdByte | AddByte
    | Arithmetic | LdReg | Or | And | Xor | AddReg | Sub | Shr | Subn | Shl
    | SneReg | LdI | JpV0 | Rnd | Drw
    | GroupEx
    | GroupFx | LdVxDt | LdVxK | LdDtVx | LdStVx | AddI | LdF | LdB | StoreRegs | LoadRegs
    | Null | Default

  predicate IsDispatcher(h: Handler)
  {
    h == Group00E || h == Arithmetic || h == GroupFx
  }

  /** The handlers of family 8 that the arithmetic table names (8xy0 .. 8xy7, 8xyE). */
  predicate IsArithmeticOp(h: Handler)
  {
    h in {LdReg, Or, And, Xor, AddReg, Sub, Shr, Subn, Shl}
  }

  /** The handlers of family F that its switch names. */
  predicate IsFxOp(h: Handler)
  {
    h in {LdVxDt, LdVxK, LdDtVx, LdStVx, AddI, LdF, LdB, StoreRegs, LoadRegs}
  }

  /** The low bytes the family F switch recognises. */
  const FxCodes: set<u8> := {0x07, 0x0A, 0x15, 0x18, 0x1E, 0x29, 0x33, 0x55, 0x65}

  /** The primary table, indexed by the instruction family. */
  const Chip8Table: seq<Handler> := [
    Group00E, Jp, Call, SeByte,
    SneByte, SeReg, LdByte, AddByte,
    Arithmetic, SneReg, LdI, JpV0,
    Rnd, Drw, GroupEx, GroupFx
  ]

  /** The family 8 table, indexed by the low nibble. */
  const Chip8Arithmetic: seq<Handler> := [
    LdReg, Or, And, Xor,
    AddReg, Sub, Shr, Subn,
    Null, Null, Null, Null,
    Null, Null, Shl, Default
  ]

  /** A word of the form 0x0?EE: family 0 with low byte 0xEE, whatever its x nibble. */
  predicate IsReturnWord(op: u16)
  {
    Family(op) == 0x0 && LowByte(op) == 0xEE
  }

  /** First level: the primary table entry of the word's family. The secondary
      dispatchers sit exactly at families 0, 8 and F, the family E stub at E,
      and neither the filler nor the diagnostic is in the table. */
  function Primary(op: u16): (h: Handler)
    ensures h == Group00E <==> Family(op) == 0x0
    ensures h == Arithmetic <==> Family(op) == 0x8
    ensures h == GroupEx <==> Family(op) == 0xE
    ensures h == GroupFx <==> Family(op) == 0xF
    ensures h != Null && h != Default
  {
    Chip8Table[Family(op)]
  }

  /** The sixteen table entries are distinct: the handler determines the family. */
  lemma {:induction false} PrimaryInjective(a: u16, b: u16)
    ensures Primary(a) == Primary(b) <==> Family(a) == Family(b)
  {
    if Family(a) != Family(b) {
      assert forall i, j :: 0 <= i < j < 16 ==> Chip8Table[i] != Chip8Table[j];
    }
  }

  /** The family 0 switch on the low byte: 0xE0 clears, 0xEE returns, anything
      else is a bad opcode. */
  function Decode00E(op: u16): (h: Handler)
    ensures h == Cls <==> LowByte(op) == 0xE0
    ensures h == Ret <==> LowByte(op) == 0xEE
    ensures h == Cls || h == Ret || h == Default
  {
    match LowByte(op)
    case 0xE0 => Cls
    case 0xEE => Ret
    case _ => Default
  }

  /** The family 8 table lookup on the low nibble: nibbles 8 to D reach the silent
      filler, F the diagnostic, and 0 to 7 and E a named handler. */
  function DecodeArithmetic(op: u16): (h: Handler)
    ensures h == Null <==> 0x8 <= N(op) <= 0xD
    ensures h == Default <==> N(op) == 0xF
    ensures IsArithmeticOp(h) <==> N(op) <= 0x7 || N(op) == 0xE
  {
    Chip8Arithmetic[N(op)]
  }

  /** The low nibble that selects a named family 8 handler. */
  function ArithmeticCode(h: Handler): (n: nat)
    requires IsArithmeticOp(h)
    ensures n < 0x10
  {
    match h
    case LdReg => 0x0
    case Or => 0x1
    case And => 0x2
    case Xor => 0x3
    case AddReg => 0x4
    case Sub => 0x5
    case Shr => 0x6
    case Subn => 0x7
    case Shl => 0xE
  }

  /** Each named family 8 handler has exactly one selecting nibble, for any x and y. */
  lemma {:induction false} ArithmeticCodeSelects(h: Handler, op: u16)
    requires IsArithmeticOp(h)
    ensures DecodeArithmetic(op) == h <==> N(op) == ArithmeticCode(h)
  {
    var n := N(op);
    assert DecodeArithmetic(op) == Chip8Arithmetic[n];
    match h
    case LdReg =>
    case Or =>
    case And =>
    case Xor =>
    case AddReg =>
    case Sub =>
    case Shr =>
    case Subn =>
    case Shl =>
  }

  /** The family F switch on the low byte. */
  function DecodeFx(op: u16): (h: Handler)
    ensures h != Default <==> LowByte(op) in FxCodes
    ensures h == Default || IsFxOp(h)
  {
    match LowByte(op)
    case 0x07 => LdVxDt
    case 0x0A => LdVxK
    case 0x15 => LdDtVx
    case 0x18 => LdStVx
    case 0x1E => AddI
    case 0x29 => LdF
    case 0x33 => LdB
    case 0x55 => StoreRegs
    case 0x65 => LoadRegs
    case _ => Default
  }

  /** The low byte that selects a family F handler. */
  function FxCode(h: Handler): (b: u8)
    requires IsFxOp(h)
    ensures b in FxCodes
  {
    match h
    case LdVxDt => 0x07
    case LdVxK => 0x0A
    case LdDtVx => 0x15
    case LdStVx => 0x18
    case AddI => 0x1E
    case LdF => 0x29
    case LdB => 0x33
    case StoreRegs => 0x55
    case LoadRegs => 0x65
  }

  /** The family F switch and FxCode are inverse: each handler is selected by its
      code and by no other low byte. */
  lemma {:induction false} FxCodeSelects(h: Handler, op: u16)
    requires IsFxOp(h)
    ensures DecodeFx(op) == h <==> LowByte(op) == FxCode(h)
  {
  }

  /** Both levels: the handler that finally runs. It is never a dispatcher. */
  function Resolve(op: u16): (h: Handler)
    ensures !IsDispatcher(h)
  {
    match Primary(op)
    case Group00E => Decode00E(op)
    case Arithmetic => DecodeArithmetic(op)
    case GroupFx => DecodeFx(op)
    case other => other
  }

  /** The return handler runs for exactly the words 0x0?EE: the x nibble between
      the family and the low byte is not examined. */
  lemma {:induction false} ResolveReturn(op: u16)
    ensures Resolve(op) == Ret <==> IsReturnWord(op)
  {
  }

  /** 0x00EE and 0x01EE .. 0x0FEE all return. */
  lemma {:induction false} ReturnIgnoresX(x: nat)
    requires x < 0x10
    ensures Resolve(Instruction(0x0, x, 0xE, 0xE)) == Ret
  {
  }

  /** The diagnostic runs for exactly the unrecognised low bytes of families 0 and F
      and for low nibble F of family 8. */
  lemma {:induction false} ResolveDefault(op: u16)
    ensures Resolve(op) == Default <==>
      || (Family(op) == 0x0 && LowByte(op) != 0xE0 && LowByte(op) != 0xEE)
      || (Family(op) == 0x8 && N(op) == 0xF)
      || (Family(op) == 0xF && LowByte(op) !in FxCodes)
  {
  }

  /** The silent filler runs for exactly the family 8 words with low nibble 8 to D. */
  lemma {:induction false} ResolveNull(op: u16)
    ensures Resolve(op) == Null <==> Family(op) == 0x8 && 0x8 <= N(op) <= 0xD
  {
  }
}
