/** The CHIP-8 machine object: fixed-size arrays for memory, registers, stack,
    keypad and screen, and the scalar registers, updated in place by reset,
    ROM loading and the emulation cycle. */
module Machine {
  import opened Words
  import opened Font
  import opened Memory
  import opened Decode
  import opened Engine

  datatype Option<T> = None | Some(value: T)

  class Chip8 {
    const screenBuffer: array2<u8>
    const keyboard: array<u8>
    var drawFlag: bool

    const memory: array<u8>
    var opcode: u16
    var pc: u16
    var sp: u8
    const V: array<u8>
    var I: u16
    const stack: array<u16>
    var delayTimer: u8
    var soundTimer: u8
    var memDump: bool
    var xwrap: bool
    var ywrap: bool
    /** Never assigned by the machine itself: the host decides where the program ends. */
    var endOfRom: u16

    /** The arrays have their declared sizes and are distinct objects. */
    ghost predicate Allocated()
      reads this
    {
      && memory.Length == MemorySize
      && V.Length == RegisterCount
      && stack.Length == StackDepth
      && keyboard.Length == 16
      && screenBuffer.Length0 == 32 && screenBuffer.Length1 == 64
      && V != keyboard && V != memory && keyboard != memory
    }

    /** A reset machine: the arrays are allocated and sp indexes within the stack. */
    ghost predicate Valid()
      reads this
    {
      Allocated() && sp as int <= StackDepth
    }

    /** The scalars an emulation cycle can change. */
    ghost function Registers(): Regs
      reads this
    {
      Regs(opcode, pc, sp)
    }

    /** True once the program counter has reached the host-given end of the program. */
    predicate EndEmulation()
      reads this`pc, this`endOfRom
    {
      EndOfProgram(pc, endOfRom)
    }

    /** Records the memory-dump option only; every other field is left as the
        allocation finds it until Init runs. */
    constructor (dumpMemory: bool)
      ensures Allocated() && memDump == dumpMemory
      ensures fresh(memory) && fresh(V) && fresh(stack) && fresh(keyboard) && fresh(screenBuffer)
    {
      screenBuffer := new u8[32, 64];
      keyboard := new u8[16];
      memory := new u8[MemorySize];
      V := new u8[RegisterCount];
      stack := new u16[StackDepth];
      memDump := dumpMemory;
    }

    /** Reset: clears the scalars, the stack, the registers, the keypad and every
        memory cell, then installs the font. The screen buffer, the draw flag,
        the options and endOfRom are not touched. */
    method Init()
      requires Allocated()
      modifies this`opcode, this`pc, this`sp, this`I, this`delayTimer, this`soundTimer
      modifies stack, V, keyboard, memory
      ensures Valid()
      ensures opcode == 0 && pc == RomBase && sp == 0 && I == 0
      ensures delayTimer == 0 && soundTimer == 0
      ensures forall k :: 0 <= k < StackDepth ==> stack[k] == 0 && V[k] == 0 && keyboard[k] == 0
      ensures memory[..] == InitialMemory()
    {
      opcode := 0;
      pc := RomBase;
      sp := 0;
      I := 0;
      delayTimer := 0;
      soundTimer := 0;

      ClearStackRegistersKeypad();
      ClearMemory();
      LoadFont();
    }

    /** The first loop of reset: zeroes the sixteen stack slots, registers and keys. */
    method ClearStackRegistersKeypad()
      requires Allocated()
      modifies stack, V, keyboard
      ensures forall k :: 0 <= k < StackDepth ==> stack[k] == 0 && V[k] == 0 && keyboard[k] == 0
    {
      for i := 0 to 16
        invariant forall k :: 0 <= k < i ==> stack[k] == 0 && V[k] == 0 && keyboard[k] == 0
      {
        stack[i] := 0;
        V[i] := 0;
        keyboard[i] := 0;
      }
    }

    /** The second loop of reset: zeroes every memory cell. */
    method ClearMemory()
      requires Allocated()
      modifies memory
      ensures memory[..] == seq(MemorySize, _ => 0)
    {
      for i := 0 to MemorySize
        invariant forall a :: 0 <= a < i ==> memory[a] == 0
      {
        memory[i] := 0;
      }
    }

    /** Copies the 80-byte font to 0x050 .. 0x09F; no other cell changes. */
    method LoadFont()
      requires Allocated()
      modifies memory
      ensures memory[..] == Overwrite(old(memory[..]), FontBase, FontTable)
    {
      for i := 0 to 80
        invariant forall a :: FontBase <= a < FontBase + i ==> memory[a] == FontTable[a - FontBase]
        invariant forall a :: 0 <= a < MemorySize && !(FontBase <= a < FontBase + i) ==> memory[a] == old(memory[a])
      {
        memory[i + FontBase] := FontTable[i];
      }
      assert memory[..] == Overwrite(old(memory[..]), FontBase, FontTable);
    }

    /** The copy of a ROM image into memory from 0x200. None stands for a file
        that could not be opened: memory is left untouched. The copy itself does
        no bounds check, so the image must fit below the top of memory. */
    method LoadRom(rom: Option<seq<u8>>)
      requires Allocated()
      requires rom.Some? ==> RomFits(|rom.value|)
      modifies memory
      ensures rom.None? ==> memory[..] == old(memory[..])
      ensures rom.Some? ==> memory[..] == Overwrite(old(memory[..]), RomBase, rom.value)
    {
      match rom
      case None =>
      case Some(buffer) =>
        for i := 0 to |buffer|
          invariant forall a :: RomBase <= a < RomBase + i ==> memory[a] == buffer[a - RomBase]
          invariant forall a :: 0 <= a < MemorySize && !(RomBase <= a < RomBase + i) ==> memory[a] == old(memory[a])
        {
          memory[RomBase + i] := buffer[i];
        }
        assert memory[..] == Overwrite(old(memory[..]), RomBase, buffer);
    }

    /** Reads the big-endian instruction word at pc into opcode. Both bytes must
        lie inside memory, which has only 0xFFF cells. */
    method FetchOpcode()
      requires Allocated() && pc + 1 < MemorySize
      modifies this`opcode
      ensures opcode == Fetch(memory[..], pc)
    {
      opcode := memory[pc] as int * 0x100 + memory[pc + 1];
    }

    /** The return (00EE): fatal, with nothing changed, on an empty stack;
        otherwise pops one slot and resumes after the call site it held. */
    method Ret() returns (status: Status)
      requires Valid()
      modifies this`sp, this`pc
      ensures Valid()
      ensures (Registers(), status) == Return(old(Registers()), stack[..])
    {
      if sp == 0 {
        return StackUnderflow(pc);
      }
      sp := sp - 1;
      pc := Wrap16(stack[sp] as int + 2);
      status := Continue;
    }

    /** One emulation cycle: fetch, then dispatch through both tables. Every
        handler other than the return is an empty stub (the bad-opcode handler
        only prints), so memory, the stack, the registers, the keypad and the
        screen never change. */
    method EmulateCycle() returns (status: Status)
      requires Valid() && pc + 1 < MemorySize
      modifies this`opcode, this`sp, this`pc
      ensures Valid()
      ensures (Registers(), status) == Cycle(memory[..], stack[..], old(Registers()))
      ensures old(sp) == 0 ==> pc == old(pc) && sp == 0
      ensures old(sp) == 0 && old(!EndEmulation()) ==> !EndEmulation()
    {
      FetchOpcode();
      var handler := Resolve(opcode);
      if handler == Decode.Ret {
        status := Ret();
      } else {
        status := Continue;
      }
    }
  }
}
