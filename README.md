# CHIP-8 machine state, verified in Dafny

This project models the `Chip8` class of a C++ CHIP-8 interpreter that is still being
written. The class holds the machine state:

- a 0xFFF-cell byte memory;
- sixteen 8-bit registers `V`;
- a sixteen-slot return stack with its pointer `sp`;
- the program counter `pc`, the index register `I` and the current `opcode`;
- two timers, a keypad and a screen buffer.

The model covers these operations:

- **Reset** (`init`): clears the scalars, the stack, the registers, the keypad and memory, then installs the 80-byte hexadecimal font at 0x050-0x09F (`loadFont`).
- **ROM copy** (`loadRom`): copies a ROM image into memory from 0x200.
- **Fetch** (`fetchOpcode`): reads one big-endian instruction word.
- **Cycle** (`emulateCycle`): fetches and then dispatches through a two-level table. The top nibble picks one of 16 entries. Families 0 and F switch again on the low byte. Family 8 indexes a second table by the low nibble.
- **Return** (`cpu00EE`): the only handler that changes state.
- **End test** (`endEmulation`): `pc >= endOfRom`.

Every other opcode handler in the source is an empty stub, and the model treats each as a no-op. The bad-opcode handler `cpuDEFAULT` only prints, and the dispatchers only select another handler.

Layout:

- `words.dfy`: 8- and 16-bit values, word composition and the operand fields (nnn, n, x, y, kk).
- `font.dfy`: the glyph sprites and the font table.
- `decode.dfy`: the handler names, both dispatch tables and the family 0 and family F switches.
- `memory.dfy`: the memory layout, the copy-loop effect, the reset image and the boot image.
- `engine.dfy`: the fetch, the return, one cycle and repeated cycles, all on values.
- `machine.dfy`: the `Chip8` class. Its array fields are updated in place, and each method is proved against the value-level functions.

Masks and shifts on unsigned values are written as `%` and `/` by powers of two. For non-negative operands these compute the same values: `(op & 0xF000) >> 12` is `op / 0x1000`, `hi << 8 | lo` is `hi * 0x100 + lo`. A `uint16_t` assignment keeps the low 16 bits (`Wrap16`).

## Model

| member | source | states |
|---|---|---|
| Words.Word | include/chip8.h:67-69 | composing a high and a low byte gives a word whose high byte and low byte are exactly those bytes |
| Words.WordOfBytes | include/chip8.h:67-69 | every 16-bit word is the composition of its own two bytes, so the big-endian fetch loses nothing |
| Words.Family | include/chip8.cpp:102 | the family index `(opcode & 0xF000) >> 12` is always below 16, so it always lands inside the 16-entry table |
| Words.Nnn | include/chip8.h:77 | nnn, the low 12 bits, is below 0x1000 |
| Words.N | include/chip8.h:78 | n, the low 4 bits, is below 16 |
| Words.X | include/chip8.h:79 | x, the low nibble of the high byte, is below 16 |
| Words.Y | include/chip8.h:80 | y, the high nibble of the low byte, is below 16 |
| Words.Instruction | include/chip8.h:75-81 | the word built from nibbles f, x, y, n has high byte f*16+x and low byte y*16+n |
| Words.FieldLayout | include/chip8.h:75-81 | nnn == x*256 + kk, kk == y*16 + n, word == family*4096 + nnn, high byte == family*16 + x |
| Words.FieldsRoundTrip | include/chip8.h:75-81 | re-encoding the four decoded fields of any word gives the word back |
| Words.InstructionFields | include/chip8.h:75-81 | decoding an encoded word gives back the four nibbles it was built from |
| Font.Glyph | include/chip8.cpp:42-59 | each digit's sprite has five rows, and each row uses only the upper nibble (four pixels wide), as in section 2.4 of Cowgod's Chip-8 Technical Reference |
| Font.Glyphs | include/chip8.cpp:42-59 | k glyphs laid end to end take 5k bytes, so the font table has 80 |
| Font.GlyphsAt | include/chip8.cpp:42-59 | in the font table, digit d's sprite occupies bytes 5d .. 5d+4 |
| Memory.Overwrite | include/chip8.cpp:60-62 | a copy loop from `base` leaves `data[a - base]` in each cell of the target range and every other cell unchanged |
| Memory.InitialMemory | include/chip8.cpp:79-83 | after reset, memory has 0xFFF cells, the font in 0x050-0x09F and zero in every other cell |
| Memory.GlyphAddress | include/chip8.cpp:60-61 | the sprite address of every digit 0-F lies inside 0x050-0x09F |
| Memory.InitialMemoryGlyph | include/chip8.cpp:60-62 | after reset, the five cells at 0x050 + 5d hold digit d's sprite |
| Memory.BootImage | include/chip8.cpp:94-96 | after reset and a ROM copy, memory holds the font below 0x200, the ROM from 0x200, and zero everywhere else, including every cell past the ROM |
| Decode.Primary | include/chip8.h:34-39 | family 0 reaches `cpu00E_`, 8 reaches `cpuARITHMETIC`, E reaches `cpuEx_` and F reaches `cpuFx_` (each if and only if), and no family reaches `cpuNULL` or `cpuDEFAULT` |
| Decode.PrimaryInjective | include/chip8.h:34-39 | two words reach the same primary entry exactly when they have the same family |
| Decode.Decode00E | include/chip8.cpp:105-119 | family 0 recognises exactly low byte 0xE0 (clear) and 0xEE (return); every other low byte goes to `cpuDEFAULT` |
| Decode.DecodeArithmetic | include/chip8.h:41-46 | low nibbles 0-7 and E reach the named 8xy handlers, 8-D reach `cpuNULL`, and F reaches `cpuDEFAULT` (each if and only if) |
| Decode.ArithmeticCodeSelects | include/chip8.h:41-46 | each named 8xy handler is reached by exactly one low nibble, whatever x and y are |
| Decode.DecodeFx | include/chip8.cpp:234-276 | family F recognises exactly the low bytes 07, 0A, 15, 18, 1E, 29, 33, 55 and 65; every other low byte goes to `cpuDEFAULT` |
| Decode.FxCodeSelects | include/chip8.cpp:234-276 | the family F switch is a bijection: each Fx handler is reached by its own low byte and by no other |
| Decode.Resolve | include/chip8.cpp:100-103 | after both dispatch levels, the handler reached is never a dispatcher |
| Decode.ResolveReturn | include/chip8.cpp:105-119 | the return handler is reached exactly by the words 0x0?EE |
| Decode.ReturnIgnoresX | include/chip8.cpp:106 | the middle nibble is never examined: 0x00EE and every 0x0xEE, such as 0x01EE, act as return |
| Decode.ResolveDefault | include/chip8.cpp:105-274 | `cpuDEFAULT` is reached exactly by an unrecognised low byte in family 0 (the default at lines 115-117) or in family F (the default at lines 272-274), or by low nibble F in family 8 (the last entry of `chip8Arithmetic`, include/chip8.h:45) |
| Decode.ResolveNull | include/chip8.h:44-45 | `cpuNULL` is reached exactly by family 8 words whose low nibble is 8 through D |
| Engine.Fetch | include/chip8.h:67-69 | the fetched word is `memory[pc] * 256 + memory[pc + 1]`: its high byte is `memory[pc]` and its low byte `memory[pc + 1]` |
| Engine.Return | include/chip8.cpp:125-132 | with `sp == 0` the return is fatal, reports the pc at fault and changes nothing; otherwise it continues with `sp` one lower and the opcode unchanged |
| Engine.ReturnResumesAfterCallSite | include/chip8.cpp:130-131 | whatever call site sits in the top stack slot, returning restores the slot below and resumes at that site + 2, modulo 2^16 |
| Engine.ReturnWraps | include/chip8.cpp:131 | a stored address of 0xFFFF resumes at 0x0001, because the sum is truncated to 16 bits |
| Engine.Cycle | include/chip8.cpp:100-103 | a cycle sets the opcode to the fetched word; unless that word is 0x0?EE, nothing else changes and execution continues, and on 0x0?EE the cycle has the effect of a return |
| Engine.Execute | include/chip8.cpp:121-316 | running a handler other than the return leaves the registers as they are and continues; only the return can end fatally, and only from an empty stack; no handler changes the opcode. This covers every handler definition from `cpu00E0` to `cpuDEFAULT`: the empty stubs, `cpuNULL` and the diagnostic |
| Engine.RunNeverMovesPc | src/main.cpp:19-20 | from an empty stack, any number of the host loop's cycles leaves `pc` and `sp` unchanged and ends fatally exactly when the word at pc is a return; if the end test `pc >= endOfRom` is false at the start it stays false, so the loop never exits normally |
| Machine.Chip8.constructor | include/chip8.cpp:8-10 | allocates the fixed-size arrays and records only the memory-dump option |
| Machine.Chip8.EndEmulation | include/chip8.h:27 | the end test is `pc >= endOfRom` and depends on no field but `pc` and `endOfRom`; EmulateCycle proves that a cycle from an empty stack never turns it true |
| Machine.Chip8.Init | include/chip8.cpp:65-84 | afterwards `pc == 0x200`; opcode, sp, I and both timers are 0; all 16 stack slots, registers and keys are 0; memory equals the reset image; screen, draw flag, options and `endOfRom` are untouched |
| Machine.Chip8.ClearStackRegistersKeypad | include/chip8.cpp:73-77 | afterwards all 16 stack slots, registers and keys are 0, and memory is not written |
| Machine.Chip8.ClearMemory | include/chip8.cpp:79-81 | afterwards all 0xFFF memory cells are 0, and nothing else is written |
| Machine.Chip8.LoadFont | include/chip8.cpp:41-63 | memory afterwards is the old memory with the font table copied to 0x050-0x09F and no other cell written |
| Machine.Chip8.LoadRom | include/chip8.cpp:86-98 | on open failure memory is unchanged; otherwise a ROM that fits is copied from 0x200 and no other cell is written |
| Machine.Chip8.FetchOpcode | include/chip8.h:67-69 | the opcode field becomes the big-endian word at pc, and only that field changes |
| Machine.Chip8.Ret | include/chip8.cpp:125-132 | the new `sp` and `pc`, and whether execution goes on, are those of `Engine.Return` applied to the old registers and the stack; only `sp` and `pc` can change |
| Machine.Chip8.EmulateCycle | include/chip8.cpp:100-103 | the new opcode, `sp` and `pc` and the status are those of `Engine.Cycle`; memory, stack, registers, keypad and screen are not modified, and `sp` stays within the stack; from an empty stack `pc` and `sp` are unchanged, so a false end test stays false |

## Left out

- `displayStatus` (include/chip8.cpp:12-39) only prints a diagnostic dump, so it is not modelled. The printed message of `cpuDEFAULT` is also left out; that handler is a no-op on the state.
- The file read in `loadRom` is not modelled. Machine.Chip8.LoadRom takes the file's bytes as `Option<seq<u8>>`, where `None` means the file could not be opened.
- The process exit in `cpu00EE` is not modelled. It becomes the status `StackUnderflow(pc)`, which carries the pc the message reports, and no state changes.
- The semantics of the stubbed handlers are not modelled: clear screen, jumps, call, skips, loads, arithmetic with flags, random, draw, key tests, timers, BCD and register block moves. Each is an empty `//TODO` in the source and is modelled as a no-op. `cpuEx_` is a stub too, so family E never reaches the 9E/A1 handlers.
- include/screen.cpp, include/screen.h and src/main.cpp are not part of this model. They are the SDL window and the host loop. Engine.Run stands for repeated calls of the cycle.
- Engine.Run and Engine.RunNeverMovesPc cover only runs that start from an empty stack. No handler ever pushes, so reset leaves the stack empty and it stays empty.
- `screenBuffer`, `drawFlag`, `xwrap`, `ywrap` and `endOfRom` are never assigned by the modelled code. The model keeps them as fields that nothing writes, and `endOfRom` is a given value.
- Two compile defects are not reproduced: the constructor's declaration and definition have different parameter lists, and the member-call macro is commented out. The model takes the one-argument definition and the evident intent of the dispatch.
- Machine.Chip8.FetchOpcode and Machine.Chip8.EmulateCycle require `pc + 1 < 0xFFF`. The source reads past the array otherwise, which is undefined behaviour and is not modelled.
- Machine.Chip8.Ret and Machine.Chip8.EmulateCycle require `Valid()`, which includes `sp <= 16`. Reset establishes it and both methods keep it. A larger `sp` would make the source read past the stack array. The constructor ensures only `Allocated()`, because the source leaves `sp` unset until reset.
- Machine.Chip8.LoadRom requires `0x200 + |rom| <= 0xFFF`. The source has no bound check and writes past `memory` otherwise, which is undefined behaviour and is not modelled.

## Where the code departs from the usual CHIP-8 description

The model follows the code in each of these cases:

- Memory has 0xFFF cells, not 4096, so address 0xFFF does not exist. A ROM longer than 3583 bytes (`0x200 + length > 0xFFF`) is not refused: the copy loop writes past the array.
- No handler advances `pc`, and the timers are never decremented. A cycle on any word other than 0x0?EE changes only `opcode`.
- The return resumes at the popped address + 2, not at the popped address. The stack is meant to hold the call site.
- Unrecognised opcodes only print a message and do not advance `pc`.
- Reset does not clear the screen buffer and seeds no random source. Loading a ROM does not record where the program ends.
