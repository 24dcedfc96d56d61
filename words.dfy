/** Machine integers of the CHIP-8 state and the fields of a 16-bit instruction word.
    The source extracts fields with masks and shifts on unsigned values; for
    non-negative integers `v & (2^k - 1)` is `v % 2^k` and `v >> k` is `v / 2^k`,
    which is how they are written here. */
module Words {

  /** uint8_t */
  type u8 = x: int | 0 <= x < 0x100

  /** uint16_t */
  type u16 = x: int | 0 <= x < 0x1_0000

  /** Assignment of an int to a uint16_t keeps the low 16 bits. */
  function Wrap16(x: int): u16
  {
    x % 0x1_0000
  }

  /** `hi << 8 | lo`: two bytes composed big-endian into one instruction word. */
  function Word(hi: u8, lo: u8): (w: u16)
    ensures HighByte(w) == hi && LowByte(w) == lo
  {
    hi * 0x100 + lo
  }

  function HighByte(w: u16): u8
  {
    w / 0x100
  }

  /** `w & 0x00FF`, the operand kk (and the sub-selector of families 0 and F). */
  function LowByte(w: u16): u8
  {
    w % 0x100
  }

  /** Every word is the composition of its own two bytes. */
  lemma {:induction false} WordOfBytes(w: u16)
    ensures Word(HighByte(w), LowByte(w)) == w
  {
  }

  // Operand fields, named as in Cowgod's Chip-8 Technical Reference.

  /** `(op & 0xF000) >> 12`: the instruction family, an index into the 16-entry table. */
  function Family(op: u16): (f: nat)
    ensures f < 16
  {
    op / 0x1000
  }

  /** nnn: the lowest 12 bits. */
  function Nnn(op: u16): (a: nat)
    ensures a < 0x1000
  {
    op % 0x1000
  }

  /** n: the lowest 4 bits (the sub-selector of family 8). */
  function N(op: u16): (n: nat)
    ensures n < 0x10
  {
    op % 0x10
  }

  /** x: the lower 4 bits of the high byte. */
  function X(op: u16): (x: nat)
    ensures x < 0x10
  {
    HighByte(op) % 0x10
  }

  /** y: the upper 4 bits of the low byte. */
  function Y(op: u16): (y: nat)
    ensures y < 0x10
  {
    LowByte(op) / 0x10
  }

  /** The word whose four nibbles, high to low, are f, x, y and n. */
  function Instruction(f: nat, x: nat, y: nat, n: nat): (op: u16)
    requires f < 0x10 && x < 0x10 && y < 0x10 && n < 0x10
    ensures HighByte(op) == f * 0x10 + x && LowByte(op) == y * 0x10 + n
  {
    Word(f * 0x10 + x, y * 0x10 + n)
  }

  /** The fields nest as the reference describes them: nnn is x followed by kk,
      kk is y followed by n, and the word is the family followed by nnn. */
  lemma {:induction false} FieldLayout(op: u16)
    ensures Nnn(op) == X(op) * 0x100 + LowByte(op)
    ensures LowByte(op) == Y(op) * 0x10 + N(op)
    ensures op == Family(op) * 0x1000 + Nnn(op)
    ensures HighByte(op) == Family(op) * 0x10 + X(op)
  {
    var hi: int, lo: int := HighByte(op), LowByte(op);
    assert op == hi * 0x100 + lo;
    assert Family(op) == hi / 0x10;
    assert op % 0x1000 == (hi % 0x10) * 0x100 + lo;
  }

  /** Decoding the four fields of a word and re-encoding them gives the word back. */
  lemma {:induction false} FieldsRoundTrip(op: u16)
    ensures Instruction(Family(op), X(op), Y(op), N(op)) == op
  {
    FieldLayout(op);
    WordOfBytes(op);
  }

  /** Encoding four nibbles and decoding the word gives the nibbles back. */
  lemma {:induction false} InstructionFields(f: nat, x: nat, y: nat, n: nat)
    requires f < 0x10 && x < 0x10 && y < 0x10 && n < 0x10
    ensures Family(Instruction(f, x, y, n)) == f
    ensures X(Instruction(f, x, y, n)) == x
    ensures Y(Instruction(f, x, y, n)) == y
    ensures N(Instruction(f, x, y, n)) == n
  {
    var op := Instruction(f, x, y, n);
    var hi, lo := f * 0x10 + x, y * 0x10 + n;
    assert op == f * 0x1000 + (x * 0x100 + lo);
    assert op == (hi * 0x10 + y) * 0x10 + n;
  }
}
