# CHIP-8 interpreter core

A Dafny model of the `Chip8` virtual machine of archead/chip8emulator: its
machine state (4096 bytes of memory, sixteen 8-bit registers `V0`–`VF`, the
16-bit `I` and `pc`, a 16-entry stack with an 8-bit `sp`, two 8-bit timers, a
16-entry keypad and a 64 × 32 byte-per-pixel display), the construction of a
machine, the copy of a program image into memory at 0x200, and one
fetch–execute cycle over the subset of the instruction set the interpreter
implements: `00E0`, `00EE`, `6XNN`, `7XNN`, `8XY0`–`8XY7` and `8XYE`. Every
other opcode reaches a `default` branch that only logs, so it leaves the state
alone.

The project has five modules:

- `Bits` (bits.dfy): the fixed-width integer types and the byte operations.
  Each store into a `uint8_t` or `uint16_t` is an explicit truncation.
- `Opcodes` (opcodes.dfy): splitting an opcode into its fields, and `Decode`,
  the dispatch of `ExecuteOpcode` as a function into a closed `Instr` type,
  with its inverse `Encode`.
- `Semantics` (semantics.dfy): the machine state as a value, plus the
  functions that give the transition of each operation: `Initial`,
  `LoadImage`, `Fetch`, `AluStep`, `Execute`, `Cycle`, and `Run` for `n`
  cycles in a row.
- `Emulator` (chip8.dfy): class `Chip8`, with array fields and in-place
  methods that mirror the C++ class. Each method is proved to carry out the
  `Semantics` transition on the state its fields hold (`Abs()`).
- `Properties` (properties.dfy): lemmas about those transitions. They cover
  the construction state, the effect of each kind of opcode, and the flag
  rules of the `8XY?` family, including when `VF` is itself an operand.
  They also cover what holds along every run of cycles.

The register-write order of the source is kept. `8XY4` writes `VF` after
`VX`, so the carry flag wins when X is F. `8XY5`, `8XY6`, `8XY7` and `8XYE`
write `VF` first, then compute `VX` from the registers as they are after
that write.

Two properties hold along every run that starts from construction and
loading, because no implemented opcode writes memory or pushes a return
address:

- memory, `I`, the stack and the display never change, and `pc` goes up
  by exactly 2 per cycle;
- `sp` stays 0, so any `0?EE` such a program reaches runs the unchecked
  `--sp` on an empty stack.

Behaviour of this interpreter worth noting:

- The flags of `8XY5` and `8XY7` use a strict comparison, so equal operands
  give `VF` = 0.
- An unrecognised opcode is logged and skipped. It is not reported as an
  error.
- The constructor does not load a font: low memory stays zero.
- There is no stack-underflow error, and no "image too large" error.
- The timers tick once per `Cycle`, not through a separate 60 Hz call.

## Model

| member | source | states |
|---|---|---|
| Bits.Trunc8 | Chip8.cpp:92 | the value kept by a `uint8_t` store is congruent to the stored `int` modulo 256, and equals it when it already fits |
| Bits.Trunc16 | Chip8.cpp:42 | the value kept by a `uint16_t` store is congruent to the stored `int` modulo 65536, and equals it when it already fits |
| Bits.Lsb | Chip8.cpp:200 | `a % 2` is the bit selected by the mask `a & 0b00000001` |
| Bits.Msb | Chip8.cpp:232 | the flag is 1 exactly when `a & 0b10000000` is nonzero |
| Opcodes.Family | Chip8.cpp:53 | the primary dispatch key `(opcode & 0xF000) >> 12` is the hex digit `f` with `f·0x1000 ≤ opcode < (f+1)·0x1000` |
| Opcodes.X | Chip8.cpp:78 | `(opcode & 0x0F00) >> 8` is the digit `x` with `x·0x100 ≤ opcode mod 0x1000 < (x+1)·0x100` |
| Opcodes.Y | Chip8.cpp:158 | `(opcode & 0x00F0) >> 4` is the digit `y` with `y·0x10 ≤ opcode mod 0x100 < (y+1)·0x10` |
| Opcodes.N | Chip8.cpp:98 | `opcode & 0x000F` is the digit congruent to the opcode modulo 16 |
| Opcodes.NN | Chip8.cpp:79 | `opcode & 0x00FF` (also the key of the switch at line 56) is the byte congruent to the opcode modulo 256 |
| Opcodes.Digits | Chip8.cpp:53-98 | the four fields put back together rebuild the opcode, and `NN` is `Y·16 + N` |
| Opcodes.AluOpOf | Chip8.cpp:98-236 | each low nibble with a case in the `8XY?` switch selects the operation whose code is that nibble |
| Opcodes.Decode | Chip8.cpp:53-242 | the dispatch keeps the whole opcode: re-encoding the decoded instruction gives the opcode back, except that `0?E0`/`0?EE` keep only their low byte and have top nibble 0 |
| Opcodes.DecodeEncode | Chip8.cpp:53-242 | decoding the word of any instruction gives that instruction back |
| Opcodes.UnknownExactly | Chip8.cpp:239-241 | (together with the `0x0` default at Chip8.cpp:66-68) an opcode reaches a log-only default exactly when: its top nibble is not 0, 6, 7 or 8; or it is a 0x0 word whose low byte is neither E0 nor EE; or it is an 0x8 word whose low nibble is 8–D or F |
| Semantics.Initial | Chip8.h:11-20 | the constructed state has the declared array sizes and `sp` within the stack |
| Semantics.LoadImage | Chip8.cpp:29 | image byte `k` lands at address 0x200 + k; every other address keeps its old byte; memory stays 4096 bytes |
| Semantics.Load | Chip8.cpp:29 | loading keeps the state well formed, changes no field but memory, and puts image byte `k` at 0x200 + k |
| Semantics.Boot | Chip8.cpp:8-29 | a constructed and loaded machine is well formed with `pc` = 0x200, `sp` = 0, `I` = 0, the image at 0x200 onwards and every other byte 0 |
| Semantics.Fetch | Chip8.cpp:39 | the opcode is big-endian: its high byte is `memory[pc]` and its low byte `memory[pc + 1]` |
| Semantics.AluStep | Chip8.cpp:97-237 | the `8XY?` register update keeps 16 registers; its values are stated by the `Properties` flag lemmas below |
| Semantics.CanExecute | Chip8.cpp:62-63 | the only hazard of the dispatch is `00EE` on an empty stack: a well-formed state with `sp ≥ 1`, or any instruction other than a return, can run |
| Semantics.Execute | Chip8.cpp:51-243 | every instruction keeps the array sizes and keeps `sp` ≤ 16 |
| Semantics.Tick | Chip8.cpp:47-48 | a timer never grows, stays put exactly when it is 0, and otherwise drops by 1 |
| Semantics.CanCycle | Chip8.cpp:39-63 | a cycle can run exactly when the state is well formed, `memory[pc + 1]` is inside memory, and a fetched `0?EE` (top nibble 0, low byte EE) finds `sp ≥ 1` |
| Semantics.Cycle | Chip8.cpp:32-49 | a cycle keeps the array sizes and keeps `sp` ≤ 16 |
| Semantics.Run | chip8emulator.cpp:13-14 | any number of cycles from a well-formed state that meets no hazard ends in a well-formed state |
| Emulator.Chip8.constructor | Chip8.cpp:8-13 | the fresh arrays and fields hold exactly the construction state: all zero, `pc` = 0x200 |
| Emulator.Chip8.LoadROM | Chip8.cpp:26-29 | the copy loop leaves the object in exactly the state `Load` gives: only memory changes, as `LoadImage` says |
| Emulator.Chip8.ClearDisplay | Chip8.cpp:58 | after the `memset` all 2048 display bytes are zero |
| Emulator.Chip8.ExecuteOpcode | Chip8.cpp:51-243 | the in-place dispatch produces exactly `Execute` of the decoded opcode on the old state |
| Emulator.Chip8.ExecuteArithmetic | Chip8.cpp:97-237 | the in-place `8XY?` writes, in source order, leave `V` equal to `AluStep` of the old registers, or unchanged for low nibbles 8–D and F |
| Emulator.Chip8.Cycle | Chip8.cpp:32-49 | fetch, `pc += 2`, execute and the timer decrements produce exactly `Semantics.Cycle` of the old state |
| Properties.InitialIsZero | Chip8.h:11-20 | after construction: the 4096 memory bytes, 16 registers, `I`, 16 stack entries, `sp`, both timers, 16 keys and 2048 pixels are 0, and `pc` is 0x200 |
| Properties.LoadChangesOnlyProgramArea | Chip8.cpp:26-29 | loading changes only memory; addresses below 0x200 are kept; the image is at 0x200 onwards |
| Properties.BootFetchesImage | Chip8.cpp:39 | the first fetch after construction and loading reads the image's first two bytes, high byte first |
| Properties.TickNeverUnderflows | Chip8.cpp:47-48 | a timer at 0 stays 0; a positive timer loses exactly 1 |
| Properties.AdvanceIsTwo | Chip8.cpp:39-42 | when the fetch is in bounds, `pc` advances by exactly 2 without wrapping, and the opcode is `memory[pc]·256 + memory[pc+1]` |
| Properties.UnknownChangesNothing | Chip8.cpp:239-241 | a cycle on an opcode that reaches the default here or the `0x0` default at Chip8.cpp:66-68 changes only `pc` (+2) and the timers |
| Properties.ClearScreenEffect | Chip8.cpp:57-60 | any `0?E0` zeroes all 2048 pixels and changes nothing else beyond the shared `pc`/timer effects |
| Properties.ReturnEffect | Chip8.cpp:61-65 | any `0?EE` decrements `sp`, then sets `pc` to the entry `sp` now points at, overriding the advance |
| Properties.SetImmEffect | Chip8.cpp:77-83 | `6XNN` sets `VX` to `NN` and changes nothing else |
| Properties.AddImmEffect | Chip8.cpp:89-95 | `7XNN` changes only `VX`, to `VX + NN` modulo 256, and leaves `VF` alone unless X is F |
| Properties.AluEffect | Chip8.cpp:97-237 | an `8XY?` opcode changes only the registers, and only `VX` and `VF` among them |
| Properties.LogicalOpsWriteOnlyVx | Chip8.cpp:103-148 | `8XY0`–`8XY3` change no register but `VX`, which gets `VY`, `VX | VY`, `VX & VY` or `VX ^ VY` respectively |
| Properties.AddCarryFlag | Chip8.cpp:156-172 | `VF` is 1 exactly when the unreduced sum exceeds 255, also when X is F; otherwise `VX + 256·VF` is the full sum |
| Properties.SubFlag | Chip8.cpp:177-190 | with neither operand VF: `VF` = (VX > VY), `VX` = VX − VY modulo 256, and equal operands give `VF` = 0 |
| Properties.SubReadsFlag | Chip8.cpp:177-190 | the subtraction reads the flag just written: with X = F the result overwrites the flag, with Y = F the flag is subtracted from `VX`; `8FF5` leaves `VF` = 0 |
| Properties.SubReverseFlag | Chip8.cpp:215-222 | with neither operand VF: `VF` = (VY > VX), `VX` = VY − VX modulo 256, and equal operands give `VF` = 0 |
| Properties.SubReverseReadsFlag | Chip8.cpp:215-222 | the reverse subtraction reads the flag just written, when X = F and when Y = F; `8FF7` leaves `VF` = 0 |
| Properties.ShiftRightFlag | Chip8.cpp:196-209 | `2·VX + VF` rebuilds the old `VX` (X ≠ F), and with X = F the result is 0 |
| Properties.ShiftLeftFlag | Chip8.cpp:229-236 | `256·VF + VX` is twice the old `VX` (X ≠ F), and with X = F the result is the flag shifted left |
| Properties.ShiftsIgnoreY | Chip8.cpp:196-236 | `8XY6` and `8XYE` do not depend on `VY` |
| Properties.RunFrame | Chip8.cpp:51-243 | over any run, memory, `I`, the stack and the keypad never change, and `sp` never grows |
| Properties.RunTimers | Chip8.cpp:46-48 | after `n` cycles each timer is its old value minus `n`, but never below 0 |
| Properties.RunSplit | chip8emulator.cpp:13-14 | `m + n` cycles are `m` cycles followed by `n`, and a run stopped by a hazard stays stopped |
| Properties.RunFromEmptyStack | Chip8.cpp:61-65 | from an empty stack, every cycle advances `pc` by 2, `sp` stays 0, and a blank display stays blank |
| Properties.BootedRun | Chip8.cpp:8-29 | every state reached after construction and loading keeps the loaded memory with zero low memory (no font), `I` = 0, `sp` = 0, a blank display, and `pc` = 0x200 + 2n |
| Properties.BootedReturnUnderflows | Chip8.cpp:61-63 | a `0?EE` reached after construction and loading always meets `sp` = 0 |

## Left out

- File I/O in `LoadROM` (Chip8.cpp:17-24): opening the file, the error message and the read into a buffer. Only the copy of a byte sequence into memory is modelled.
- All console output in Chip8.cpp, including the extra "Unknown opcode" line that every `8XY?` opcode prints by falling from the `0x8000` case into `default`. It has no effect on the state.
- The driver in chip8emulator.cpp: its endless loop, its `sleep_for` pacing and its terminal rendering. `Run` models only its repeated cycles. The driver's `drawFlag` is not declared by `Chip8`, so there is no draw-flag behaviour to model.
- The keypad: it is declared and zero-initialised, but nothing reads or writes it afterwards.
- The instructions the interpreter does not implement (jumps, calls, skips, `ANNN`, `BNNN`, random, draw, keypad and `FX..`). They fall into the default case and change nothing, as `UnknownExactly` and `UnknownChangesNothing` state.
- Emulator.Chip8.Cycle: requires `pc + 1 < 4096`, and `sp ≥ 1` when the opcode is `0?EE`. The source does not check either; it reads out of bounds (undefined behaviour), which is not modelled. `Semantics.Run` reports such a cycle as `None`.
- Emulator.Chip8.ExecuteOpcode: requires `sp ≥ 1` for `0?EE`, for the same reason.
- Emulator.Chip8.LoadROM: requires the image to fit in memory after 0x200. The source does not check this and writes past the array.
- Bits.Or8, Bits.And8, Bits.Xor8 are the `bv8` operators themselves and carry no further contract.
