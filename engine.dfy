/** The execution step on values: fetch the word at pc, resolve its handler, run it.
    Every handler the source defines is an empty stub except the return (00EE)
    and the bad-opcode diagnostic, which only prints; so a cycle changes at most
    the opcode, the stack pointer and the program counter. */
module Engine {
  import opened Words
  import opened Decode
  import opened Memory

  const StackDepth := 16
  const RegisterCount := 16

  /** The scalar state a cycle can change. */
  datatype Regs = Regs(opcode: u16, pc: u16, sp: u8)

  /** How a step ends: normally, or with the fatal exit of a return from an empty
      stack, which reports the program counter at fault. */
  datatype Status = Continue | StackUnderflow(pcAtFault: u16)

  /** The instruction word at pc: memory[pc] is its high byte, memory[pc + 1] its low byte. */
  function Fetch(mem: seq<u8>, pc: u16): (w: u16)
    requires pc + 1 < |mem|
    ensures w == mem[pc] as int * 0x100 + mem[pc + 1]
    ensures HighByte(w) == mem[pc] && LowByte(w) == mem[pc + 1]
  {
    Word(mem[pc], mem[pc + 1])
  }

  /** The return (00EE). With an empty stack it is fatal and changes nothing;
      otherwise it pops one slot and leaves the opcode alone. */
  function Return(r: Regs, stack: seq<u16>): (res: (Regs, Status))
    requires r.sp as int <= |stack|
    ensures res.1 == Continue <==> r.sp > 0
    ensures res.1 != Continue ==> res.0 == r && res.1 == StackUnderflow(r.pc)
    ensures res.1 == Continue ==> res.0.sp == r.sp - 1 && res.0.opcode == r.opcode
  {
    if r.sp == 0 then
      (r, StackUnderflow(r.pc))
    else
      var sp := r.sp - 1;
      (r.(sp := sp, pc := Wrap16(stack[sp] as int + 2)), Continue)
  }

  /** The stack holds call sites: whatever address sits in the top slot, returning
      resumes two bytes (one instruction) after it, modulo 2^16, and uncovers the
      slot below. */
  lemma {:induction false} ReturnResumesAfterCallSite(r: Regs, stack: seq<u16>, site: u16)
    requires |stack| == StackDepth && r.sp < StackDepth
    ensures Return(r.(sp := r.sp + 1), stack[r.sp := site]).0 == r.(pc := (site as int + 2) % 0x1_0000)
  {
  }

  /** The return address wraps at 16 bits: a call site of 0xFFFF resumes at 0x0001. */
  lemma {:induction false} ReturnWraps(r: Regs, stack: seq<u16>)
    requires |stack| == StackDepth && 0 < r.sp <= StackDepth && stack[r.sp - 1] == 0xFFFF
    ensures Return(r, stack).0.pc == 0x0001
  {
  }

  /** The handler h run on r. Only the return acts; every other handler, the
      silent filler and the diagnostic included, leaves the state as it is. */
  function Execute(h: Handler, r: Regs, stack: seq<u16>): (res: (Regs, Status))
    requires r.sp as int <= |stack|
    ensures h != Ret ==> res == (r, Continue)
    ensures res.1 != Continue ==> h == Ret && r.sp == 0
    ensures res.0.opcode == r.opcode
  {
    match h
    case Ret => Return(r, stack)
    case _ => (r, Continue)
  }

  /** One emulation cycle: the fetched word becomes the opcode, and only a word
      of the form 0x0?EE goes on to change anything else. No handler advances pc. */
  function Cycle(mem: seq<u8>, stack: seq<u16>, r: Regs): (res: (Regs, Status))
    requires r.pc + 1 < |mem| && r.sp as int <= |stack|
    ensures res.0.opcode == Fetch(mem, r.pc)
    ensures !IsReturnWord(Fetch(mem, r.pc)) ==> res == (r.(opcode := Fetch(mem, r.pc)), Continue)
    ensures IsReturnWord(Fetch(mem, r.pc)) ==> res == Return(r.(opcode := Fetch(mem, r.pc)), stack)
  {
    var w := Fetch(mem, r.pc);
    ResolveReturn(w);
    Execute(Resolve(w), r.(opcode := w), stack)
  }

  /** The host's end test: the program counter has reached the end of the program. */
  predicate EndOfProgram(pc: u16, endOfRom: u16)
  {
    pc >= endOfRom
  }

  /** n successive cycles from a state whose call stack is empty (the state a reset
      leaves, and the only one the machine reaches, since no handler pushes),
      stopping at a fatal exit. */
  function Run(mem: seq<u8>, stack: seq<u16>, r: Regs, n: nat): (res: (Regs, Status))
    requires |mem| == MemorySize && |stack| == StackDepth
    requires r.sp == 0 && r.pc + 1 < MemorySize
    decreases n
  {
    if n == 0 then
      (r, Continue)
    else
      var (r', status) := Cycle(mem, stack, r);
      if status != Continue then (r', status) else Run(mem, stack, r', n - 1)
  }

  /** From an empty stack the machine never leaves its program counter: after any
      number of cycles pc and sp are as they were, and the run has ended fatally
      exactly when the word at pc is a return. So a host loop that cycles until
      the end test holds, starting where it does not, never ends normally. */
  lemma {:induction false} RunNeverMovesPc(mem: seq<u8>, stack: seq<u16>, r: Regs, n: nat, endOfRom: u16)
    requires |mem| == MemorySize && |stack| == StackDepth
    requires r.sp == 0 && r.pc + 1 < MemorySize
    ensures Run(mem, stack, r, n).0.pc == r.pc && Run(mem, stack, r, n).0.sp == 0
    ensures Run(mem, stack, r, n).1 != Continue <==> n > 0 && IsReturnWord(Fetch(mem, r.pc))
    ensures Run(mem, stack, r, n).1 != Continue ==> Run(mem, stack, r, n).1 == StackUnderflow(r.pc)
    ensures !EndOfProgram(r.pc, endOfRom) ==> !EndOfProgram(Run(mem, stack, r, n).0.pc, endOfRom)
    decreases n
  {
    if n > 0 {
      var (r', status) := Cycle(mem, stack, r);
      if status == Continue {
        RunNeverMovesPc(mem, stack, r', n - 1, endOfRom);
      }
    }
  }
}
