/** What the interpreter guarantees, stated over the transitions of
    `Semantics`: the construction state, the effect of one cycle per kind of
    opcode, the flag rules of the `8XY?` family including the cases where
    `VF` is itself an operand, and what holds along any run of cycles. */
module Properties {
  import opened Bits
  import opened Opcodes
  import opened Semantics

  /** The all-zero display. */
  function Blank(): seq<Byte>
  {
    seq(DisplaySize, _ => 0)
  }

  /** `s` after the part of `Cycle` every opcode shares: `pc` advanced by 2
      and both timers ticked. */
  function Advanced(s: State): State
  {
    s.(pc := Trunc16(s.pc as int + 2), delayTimer := Tick(s.delayTimer), soundTimer := Tick(s.soundTimer))
  }

  // ---------------------------------------------------------------------
  // Construction and loading

  /** After construction memory holds 4096 zero bytes (no font), the 16
      registers, `I`, the 16 stack entries, `sp`, both timers, the 16 keys and
      the 2048 pixels are zero, and `pc` is 0x200. */
  lemma InitialIsZero()
    ensures var s := Initial();
      && |s.memory| == 4096 && (forall a :: 0 <= a < 4096 ==> s.memory[a] == 0)
      && |s.V| == 16 && (forall r :: 0 <= r < 16 ==> s.V[r] == 0)
      && s.I == 0 && s.pc == 0x200
      && |s.stack| == 16 && (forall k :: 0 <= k < 16 ==> s.stack[k] == 0) && s.sp == 0
      && s.delayTimer == 0 && s.soundTimer == 0
      && |s.keypad| == 16 && (forall k :: 0 <= k < 16 ==> s.keypad[k] == 0)
      && |s.display| == 64 * 32 && (forall p :: 0 <= p < 64 * 32 ==> s.display[p] == 0)
  {
  }

  /** Loading changes memory only, and only from 0x200 on. */
  lemma LoadChangesOnlyProgramArea(s: State, image: seq<Byte>)
    requires WellFormed(s)
    requires |image| <= MemorySize - ProgramStart
    ensures Load(s, image) == s.(memory := Load(s, image).memory)
    ensures forall a :: 0 <= a < ProgramStart ==> Load(s, image).memory[a] == s.memory[a]
    ensures forall k :: 0 <= k < |image| ==> Load(s, image).memory[ProgramStart + k] == image[k]
  {
  }

  /** The first cycle after loading fetches the image's first two bytes,
      high byte first. */
  lemma BootFetchesImage(image: seq<Byte>)
    requires 2 <= |image| <= MemorySize - ProgramStart
    ensures Fetch(Boot(image).memory, Boot(image).pc) == image[0] as int * 0x100 + image[1] as int
  {
    assert Boot(image).memory[ProgramStart + 0] == image[0];
    assert Boot(image).memory[ProgramStart + 1] == image[1];
  }

  // ---------------------------------------------------------------------
  // One cycle

  /** A timer loses one per cycle while above zero and never goes below it. */
  lemma TickNeverUnderflows(t: Byte)
    ensures t == 0 ==> Tick(t) == 0
    ensures t > 0 ==> Tick(t) as int == t as int - 1
  {
  }

  /** The fetch is big-endian, and `pc` moves on by exactly 2 before the
      instruction runs (no wrap is possible, since `pc + 1` is in memory). */
  lemma AdvanceIsTwo(s: State)
    requires CanCycle(s)
    ensures Advanced(s).pc == s.pc + 2
    ensures Fetch(s.memory, s.pc) == s.memory[s.pc] as int * 0x100 + s.memory[s.pc + 1] as int
  {
  }

  /** An opcode that reaches the `default` of the dispatch changes nothing but
      the shared `pc` and timer effects of `Cycle`. */
  lemma UnknownChangesNothing(s: State)
    requires CanCycle(s)
    requires Decode(Fetch(s.memory, s.pc)).Unknown?
    ensures Cycle(s) == Advanced(s)
  {
  }

  /** Any `0?E0` clears all 2048 pixels and changes nothing else. */
  lemma ClearScreenEffect(s: State)
    requires CanCycle(s)
    requires var op := Fetch(s.memory, s.pc); Family(op) == 0 && NN(op) == 0xE0
    ensures Cycle(s) == Advanced(s).(display := Blank())
    ensures forall p :: 0 <= p < 64 * 32 ==> Cycle(s).display[p] == 0
  {
  }

  /** Any `0?EE` (on a nonempty stack) decrements `sp` and then jumps to the
      entry it now points at, ignoring the advanced `pc`. */
  lemma ReturnEffect(s: State)
    requires CanCycle(s)
    requires var op := Fetch(s.memory, s.pc); Family(op) == 0 && NN(op) == 0xEE
    ensures s.sp >= 1
    ensures Cycle(s) == Advanced(s).(sp := s.sp - 1, pc := s.stack[s.sp - 1])
  {
  }

  /** `6XNN` writes `NN` into `VX` and nothing else. */
  lemma SetImmEffect(s: State)
    requires CanCycle(s)
    requires Family(Fetch(s.memory, s.pc)) == 6
    ensures var op := Fetch(s.memory, s.pc);
      Cycle(s) == Advanced(s).(V := s.V[X(op) := NN(op)])
  {
  }

  /** `7XNN` adds `NN` to `VX` modulo 256 and writes no flag. */
  lemma AddImmEffect(s: State)
    requires CanCycle(s)
    requires Family(Fetch(s.memory, s.pc)) == 7
    ensures var op := Fetch(s.memory, s.pc);
      && Cycle(s) == Advanced(s).(V := s.V[X(op) := Cycle(s).V[X(op)]])
      && (Cycle(s).V[X(op)] as int - s.V[X(op)] as int - NN(op) as int) % 0x100 == 0
      && (X(op) != VF ==> Cycle(s).V[VF] == s.V[VF])
  {
  }

  /** An `8XY?` opcode changes only the register file, and there only `VX` and `VF`. */
  lemma AluEffect(s: State)
    requires CanCycle(s)
    requires Decode(Fetch(s.memory, s.pc)).Alu?
    ensures var i := Decode(Fetch(s.memory, s.pc));
      && Cycle(s) == Advanced(s).(V := AluStep(s.V, i.op, i.x, i.y))
      && forall r :: 0 <= r < 16 && r != i.x && r != VF ==> Cycle(s).V[r] == s.V[r]
  {
  }

  // ---------------------------------------------------------------------
  // The 8XY? family on the register file

  /** `8XY0` to `8XY3` write `VX` only, with the copy, or, and or xor of
      the two operands; the flag register changes only when it is `VX`. */
  lemma LogicalOpsWriteOnlyVx(v: seq<Byte>, a: AluOp, x: Nibble, y: Nibble)
    requires |v| == 16
    requires a == Move || a == Or || a == And || a == Xor
    ensures forall r :: 0 <= r < 16 && r != x ==> AluStep(v, a, x, y)[r] == v[r]
    ensures a == Move ==> AluStep(v, a, x, y)[x] == v[y]
    ensures a == Or ==> AluStep(v, a, x, y)[x] == Or8(v[x], v[y])
    ensures a == And ==> AluStep(v, a, x, y)[x] == And8(v[x], v[y])
    ensures a == Xor ==> AluStep(v, a, x, y)[x] == Xor8(v[x], v[y])
  {
  }

  /** `8XY4`: `VF` is the carry of the unreduced sum, and since it is
      written after `VX` it wins when X is F. Otherwise `VX` and `VF` together
      hold the full 9-bit sum. */
  lemma AddCarryFlag(v: seq<Byte>, x: Nibble, y: Nibble)
    requires |v| == 16
    ensures var w := AluStep(v, AddCarry, x, y);
      && w[VF] == (if v[x] as int + v[y] as int > 0xFF then 1 else 0)
      && (x != VF ==> w[x] as int + 0x100 * w[VF] as int == v[x] as int + v[y] as int)
  {
  }

  /** `8XY5` with neither operand VF: borrow flag by strict comparison, then
      the difference modulo 256; equal operands give flag 0 and result 0. */
  lemma SubFlag(v: seq<Byte>, x: Nibble, y: Nibble)
    requires |v| == 16 && x != VF && y != VF
    ensures var w := AluStep(v, Sub, x, y);
      && w[VF] == (if v[x] > v[y] then 1 else 0)
      && w[x] as int == (if v[x] >= v[y] then v[x] - v[y] else v[x] as int - v[y] as int + 0x100)
      && (v[x] == v[y] ==> w[VF] == 0 && w[x] == 0)
  {
  }

  /** `8XY5` when an operand is VF: the subtraction reads the flag just
      written. With X = F the flag is lost; with Y = F the flag is subtracted;
      `8FF5` leaves 0. */
  lemma SubReadsFlag(v: seq<Byte>, x: Nibble, y: Nibble)
    requires |v| == 16
    ensures var flag: Byte := if v[x] > v[y] then 1 else 0;
      && (x == VF && y != VF ==> AluStep(v, Sub, x, y)[VF] == Trunc8(flag as int - v[y] as int))
      && (y == VF && x != VF ==>
            AluStep(v, Sub, x, y)[x] == Trunc8(v[x] as int - flag as int) && AluStep(v, Sub, x, y)[VF] == flag)
      && (x == VF && y == VF ==> AluStep(v, Sub, x, y)[VF] == 0)
  {
  }

  /** `8XY7` with neither operand VF: `VF := VY > VX`, `VX := VY - VX` modulo 256. */
  lemma SubReverseFlag(v: seq<Byte>, x: Nibble, y: Nibble)
    requires |v| == 16 && x != VF && y != VF
    ensures var w := AluStep(v, SubReverse, x, y);
      && w[VF] == (if v[y] > v[x] then 1 else 0)
      && w[x] as int == (if v[y] >= v[x] then v[y] - v[x] else v[y] as int - v[x] as int + 0x100)
      && (v[x] == v[y] ==> w[VF] == 0 && w[x] == 0)
  {
  }

  /** `8XY7` when an operand is VF: the subtraction reads the flag just
      written; `8FF7` leaves 0. */
  lemma SubReverseReadsFlag(v: seq<Byte>, x: Nibble, y: Nibble)
    requires |v| == 16
    ensures var flag: Byte := if v[y] > v[x] then 1 else 0;
      && (x == VF && y != VF ==> AluStep(v, SubReverse, x, y)[VF] == Trunc8(v[y] as int - flag as int))
      && (y == VF && x != VF ==>
            AluStep(v, SubReverse, x, y)[x] == Trunc8(flag as int - v[x] as int) && AluStep(v, SubReverse, x, y)[VF] == flag)
      && (x == VF && y == VF ==> AluStep(v, SubReverse, x, y)[VF] == 0)
  {
  }

  /** `8XY6`: VF gets the bit shifted out and VX the rest, so together they
      rebuild the old VX; with X = F the shifted flag leaves 0. */
  lemma ShiftRightFlag(v: seq<Byte>, x: Nibble, y: Nibble)
    requires |v| == 16
    ensures var w := AluStep(v, ShiftRight, x, y);
      && (x != VF ==> 2 * w[x] as int + w[VF] as int == v[x] as int && w[VF] <= 1)
      && (x == VF ==> w[VF] == 0)
  {
  }

  /** `8XYE`: VF gets the bit shifted out and VX the rest, so together they
      rebuild twice the old VX; with X = F the result is the flag shifted. */
  lemma ShiftLeftFlag(v: seq<Byte>, x: Nibble, y: Nibble)
    requires |v| == 16
    ensures var w := AluStep(v, ShiftLeft, x, y);
      && (x != VF ==> 0x100 * w[VF] as int + w[x] as int == 2 * v[x] as int && w[VF] <= 1)
      && (x == VF ==> w[VF] == 2 * Msb(v[VF]))
  {
    var w := AluStep(v, ShiftLeft, x, y);
    if x != VF {
      if v[x] >= 0x80 {
        assert w[x] as int == 2 * v[x] as int - 0x100;
      } else {
        assert w[x] as int == 2 * v[x] as int;
      }
    }
  }

  /** The shifts never read VY. */
  lemma ShiftsIgnoreY(v: seq<Byte>, x: Nibble, y: Nibble, y': Nibble)
    requires |v| == 16
    ensures AluStep(v, ShiftRight, x, y) == AluStep(v, ShiftRight, x, y')
    ensures AluStep(v, ShiftLeft, x, y) == AluStep(v, ShiftLeft, x, y')
  {
  }

  // ---------------------------------------------------------------------
  // Runs of cycles

  /** No implemented opcode writes memory, `I`, the stack or the keypad, and
      `sp` can only go down. */
  lemma {:induction false} RunFrame(s: State, n: nat)
    requires WellFormed(s)
    requires Run(s, n).Some?
    ensures var t := Run(s, n).value;
      t.memory == s.memory && t.I == s.I && t.stack == s.stack && t.keypad == s.keypad && t.sp <= s.sp
    decreases n
  {
    if n > 0 {
      RunFrame(Cycle(s), n - 1);
    }
  }

  /** After `n` cycles each timer has dropped by `n`, stopping at zero. */
  lemma {:induction false} RunTimers(s: State, n: nat)
    requires WellFormed(s)
    requires Run(s, n).Some?
    ensures var t := Run(s, n).value;
      && t.delayTimer as int == (if s.delayTimer as int >= n then s.delayTimer as int - n else 0)
      && t.soundTimer as int == (if s.soundTimer as int >= n then s.soundTimer as int - n else 0)
    decreases n
  {
    if n > 0 {
      RunTimers(Cycle(s), n - 1);
    }
  }

  /** `m + n` cycles are `m` cycles followed by `n` more; a run that stops
      at a hazard stays stopped. */
  lemma {:induction false} RunSplit(s: State, m: nat, n: nat)
    ensures Run(s, m).None? ==> Run(s, m + n).None?
    ensures Run(s, m).Some? ==> Run(s, m + n) == Run(Run(s, m).value, n)
    decreases m
  {
    if m > 0 && CanCycle(s) {
      RunSplit(Cycle(s), m - 1, n);
    }
  }

  /** With an empty stack no return can run, so every cycle only advances
      `pc` by 2, `sp` stays 0, and a blank display stays blank. */
  lemma {:induction false} RunFromEmptyStack(s: State, n: nat)
    requires WellFormed(s) && s.sp == 0
    requires Run(s, n).Some?
    ensures var t := Run(s, n).value;
      && t.sp == 0
      && t.pc as int == s.pc as int + 2 * n
      && (s.display == Blank() ==> t.display == Blank())
    decreases n
  {
    if n > 0 {
      var op := Fetch(s.memory, s.pc);
      assert !Decode(op).Return?;
      RunFromEmptyStack(Cycle(s), n - 1);
    }
  }

  /** Every state a loaded program reaches keeps the loaded memory (so the
      unloaded font area stays zero), `I` = 0, `sp` = 0, a blank display, and
      `pc` = 0x200 + 2n. */
  lemma BootedRun(image: seq<Byte>, n: nat)
    requires |image| <= MemorySize - ProgramStart
    requires Run(Boot(image), n).Some?
    ensures var t := Run(Boot(image), n).value;
      && t.memory == Boot(image).memory
      && (forall a :: 0 <= a < ProgramStart ==> t.memory[a] == 0)
      && t.I == 0 && t.sp == 0 && t.display == Blank()
      && t.pc as int == ProgramStart as int + 2 * n
  {
    var s := Boot(image);
    RunFrame(s, n);
    RunFromEmptyStack(s, n);
    assert s.display == Blank();
  }

  /** Since no implemented opcode pushes, a `0?EE` reached by a loaded program
      always meets an empty stack: it is the unchecked `--sp` on `sp` = 0. */
  lemma BootedReturnUnderflows(image: seq<Byte>, n: nat)
    requires |image| <= MemorySize - ProgramStart
    requires Run(Boot(image), n).Some?
    requires var t := Run(Boot(image), n).value;
      t.pc as int + 1 < MemorySize && Decode(Fetch(t.memory, t.pc)).Return?
    ensures !CanCycle(Run(Boot(image), n).value)
  {
    BootedRun(image, n);
  }
}
