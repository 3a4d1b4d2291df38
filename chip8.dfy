/** The interpreter object: the fields of `class Chip8` as arrays and
    fixed-width integers, and its operations as methods that update them in
    place. Each method is proved to carry out the matching transition of
    `Semantics` on the state `Abs()` its fields spell out. */
module Emulator {
  import opened Bits
  import opened Opcodes
  import opened Semantics

  class Chip8 {
    const memory: array<Byte>
    /** General registers V0 to VF; VF doubles as the flag register. */
    const V: array<Byte>
    var I: Word
    var pc: Word
    const stack: array<Word>
    var sp: Byte
    var delayTimer: Byte
    var soundTimer: Byte
    const keypad: array<Byte>
    /** 64 x 32 pixels, one byte each, row after row. */
    const display: array<Byte>

    /** The declared array sizes, a stack pointer within the stack, and
        distinct byte arrays, so that writing one leaves the others alone. */
    ghost predicate Valid()
      reads this
    {
      && memory.Length == MemorySize
      && V.Length == RegisterCount
      && stack.Length == StackDepth
      && keypad.Length == KeyCount
      && display.Length == DisplaySize
      && sp as int <= StackDepth
      && memory != V && memory != keypad && memory != display
      && V != keypad && V != display && keypad != display
    }

    /** The machine state held by the fields. */
    ghost function Abs(): (s: State)
      reads this, memory, V, stack, keypad, display
      requires Valid()
      ensures WellFormed(s)
    {
      State(memory[..], V[..], I, pc, stack[..], sp, delayTimer, soundTimer, keypad[..], display[..])
    }

    /** `Chip8::Chip8` together with the field initialisers of the class:
        every array zero-filled, `pc` at the program start. */
    constructor ()
      ensures Valid() && Abs() == Initial()
      ensures fresh(memory) && fresh(V) && fresh(stack) && fresh(keypad) && fresh(display)
    {
      memory := new Byte[MemorySize](_ => 0);
      V := new Byte[RegisterCount](_ => 0);
      I := 0;
      pc := ProgramStart;
      stack := new Word[StackDepth](_ => 0);
      sp := 0;
      delayTimer := 0;
      soundTimer := 0;
      keypad := new Byte[KeyCount](_ => 0);
      display := new Byte[DisplaySize](_ => 0);
      new;
      assert memory[..] == Initial().memory;
      assert V[..] == Initial().V;
      assert stack[..] == Initial().stack;
      assert keypad[..] == Initial().keypad;
      assert display[..] == Initial().display;
    }

    /** The copy at the end of `LoadROM`: byte `k` of the image goes to
        address `ProgramStart + k`; nothing else changes. */
    method LoadROM(image: seq<Byte>)
      requires Valid()
      requires |image| <= MemorySize - ProgramStart
      modifies memory
      ensures Valid()
      ensures Abs() == Load(old(Abs()), image)
    {
      var k := 0;
      while k < |image|
        invariant 0 <= k <= |image|
        invariant forall j :: 0 <= j < k ==> memory[ProgramStart + j] == image[j]
        invariant forall a :: 0 <= a < MemorySize && !(ProgramStart <= a < ProgramStart + k) ==> memory[a] == old(memory[a])
      {
        memory[ProgramStart + k] := image[k];
        k := k + 1;
      }
      ghost var loaded := LoadImage(old(memory[..]), image);
      forall a | 0 <= a < MemorySize
        ensures memory[a] == loaded[a]
      {
        if ProgramStart <= a < ProgramStart + |image| {
          assert memory[ProgramStart + (a - ProgramStart)] == image[a - ProgramStart];
        }
      }
      assert memory[..] == loaded;
    }

    /** The `memset` of `00E0`. */
    method ClearDisplay()
      requires Valid()
      modifies display
      ensures Valid()
      ensures display[..] == seq(DisplaySize, _ => 0)
    {
      forall a | 0 <= a < display.Length {
        display[a] := 0;
      }
      assert display[..] == seq(DisplaySize, _ => 0);
    }

    /** `Chip8::ExecuteOpcode`: the nested dispatch on the opcode's fields,
        with every register write in the source's order. */
    method ExecuteOpcode(opcode: Word)
      requires Valid()
      requires CanExecute(Abs(), Decode(opcode))
      modifies this, V, display
      ensures Valid()
      ensures Abs() == Execute(old(Abs()), Decode(opcode))
    {
      match Family(opcode) {
        case 0x0 =>
          match NN(opcode) {
            case 0xE0 =>
              ClearDisplay();
            case 0xEE =>
              sp := sp - 1;
              pc := stack[sp];
            case _ =>
          }
        case 0x6 =>
          var x, nn := X(opcode), NN(opcode);
          V[x] := nn;
        case 0x7 =>
          var x, nn := X(opcode), NN(opcode);
          V[x] := Trunc8(V[x] as int + nn as int);
        case 0x8 =>
          ExecuteArithmetic(X(opcode), Y(opcode), N(opcode));
        case _ =>
      }
    }

    /** The `0x8` branch of `ExecuteOpcode`: the dispatch on the low nibble.
        Low nibbles 8 to D and F match no case and change nothing. */
    method ExecuteArithmetic(x: Nibble, y: Nibble, n: Nibble)
      requires Valid()
      modifies V
      ensures V[..] == if IsAluCode(n) then AluStep(old(V[..]), AluOpOf(n), x, y) else old(V[..])
    {
      ghost var v := V[..];
      match n {
        case 0x0 =>
          V[x] := V[y];
          assert V[..] == AluStep(v, Move, x, y);
        case 0x1 =>
          V[x] := Or8(V[x], V[y]);
          assert V[..] == AluStep(v, Or, x, y);
        case 0x2 =>
          V[x] := And8(V[x], V[y]);
          assert V[..] == AluStep(v, And, x, y);
        case 0x3 =>
          V[x] := Xor8(V[x], V[y]);
          assert V[..] == AluStep(v, Xor, x, y);
        case 0x4 =>
          var sum := V[x] as int + V[y] as int;
          if sum > 0xFF {
            V[x] := Trunc8(sum);
            V[VF] := 1;
          } else {
            V[x] := Trunc8(sum);
            V[VF] := 0;
          }
          assert V[..] == AluStep(v, AddCarry, x, y);
        case 0x5 =>
          if V[x] > V[y] {
            V[VF] := 1;
            V[x] := Trunc8(V[x] as int - V[y] as int);
          } else {
            V[VF] := 0;
            V[x] := Trunc8(V[x] as int - V[y] as int);
          }
          assert V[..] == AluStep(v, Sub, x, y);
        case 0x6 =>
          if Lsb(V[x]) == 1 {
            V[VF] := 1;
          } else {
            V[VF] := 0;
          }
          V[x] := V[x] / 2;
          assert V[..] == AluStep(v, ShiftRight, x, y);
        case 0x7 =>
          V[VF] := if V[y] > V[x] then 1 else 0;
          V[x] := Trunc8(V[y] as int - V[x] as int);
          assert V[..] == AluStep(v, SubReverse, x, y);
        case 0xE =>
          V[VF] := Msb(V[x]);
          V[x] := Trunc8(V[x] as int * 2);
          assert V[..] == AluStep(v, ShiftLeft, x, y);
        case _ =>
      }
    }

    /** `Chip8::Cycle`: big-endian fetch at `pc`, `pc += 2`, execute, then
        decrement each timer that is above zero. */
    method Cycle()
      requires Valid()
      requires CanCycle(Abs())
      modifies this, V, display
      ensures Valid()
      ensures Abs() == Semantics.Cycle(old(Abs()))
    {
      ghost var s0 := Abs();
      var opcode: Word := memory[pc] as int * 0x100 + memory[pc + 1] as int;
      assert opcode == Fetch(s0.memory, s0.pc);
      pc := Trunc16(pc as int + 2);
      assert Abs() == s0.(pc := Trunc16(s0.pc as int + 2));
      ExecuteOpcode(opcode);
      ghost var s2 := Abs();
      if delayTimer > 0 {
        delayTimer := delayTimer - 1;
      }
      if soundTimer > 0 {
        soundTimer := soundTimer - 1;
      }
      assert Abs() == s2.(delayTimer := Tick(s2.delayTimer), soundTimer := Tick(s2.soundTimer));
    }
  }
}
