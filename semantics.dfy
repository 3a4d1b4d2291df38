/** The machine state of one interpreter as a value, and the effect of each
    operation of `Chip8` on it. The `Emulator.Chip8` class is proved to
    perform exactly these transitions on its arrays. */
module Semantics {
  import opened Bits
  import opened Opcodes

  const MemorySize: nat := 4096
  const RegisterCount: nat := 16
  const StackDepth: nat := 16
  const KeyCount: nat := 16
  const DisplayWidth: nat := 64
  const DisplayHeight: nat := 32
  const DisplaySize: nat := DisplayWidth * DisplayHeight
  /** Where a program image is copied and where execution starts. */
  const ProgramStart: Word := 0x200
  /** The register that also receives the carry, borrow and shift flags. */
  const VF: Nibble := 0xF

  datatype Option<T> = None | Some(value: T)

  /** Every field of the machine, with the width the source declares. */
  datatype State = State(
    memory: seq<Byte>,
    V: seq<Byte>,
    I: Word,
    pc: Word,
    stack: seq<Word>,
    sp: Byte,
    delayTimer: Byte,
    soundTimer: Byte,
    keypad: seq<Byte>,
    display: seq<Byte>)

  /** The array sizes, and a stack pointer that stays within the stack. */
  predicate WellFormed(s: State)
  {
    && |s.memory| == MemorySize
    && |s.V| == RegisterCount
    && |s.stack| == StackDepth
    && s.sp as int <= StackDepth
    && |s.keypad| == KeyCount
    && |s.display| == DisplaySize
  }

  /** The state right after construction: everything zero except the program
      counter. No font is copied into low memory. */
  function Initial(): (s: State)
    ensures WellFormed(s)
  {
    State(
      memory := seq(MemorySize, _ => 0),
      V := seq(RegisterCount, _ => 0),
      I := 0,
      pc := ProgramStart,
      stack := seq(StackDepth, _ => 0),
      sp := 0,
      delayTimer := 0,
      soundTimer := 0,
      keypad := seq(KeyCount, _ => 0),
      display := seq(DisplaySize, _ => 0))
  }

  /** `memory` with `image` copied to `ProgramStart` onwards. The source does
      not check the size; an image that does not fit is excluded here. */
  function LoadImage(memory: seq<Byte>, image: seq<Byte>): (m: seq<Byte>)
    requires |memory| == MemorySize
    requires |image| <= MemorySize - ProgramStart
    ensures |m| == MemorySize
    ensures forall k :: 0 <= k < |image| ==> m[ProgramStart + k] == image[k]
    ensures forall a :: 0 <= a < MemorySize && !(ProgramStart <= a < ProgramStart + |image|) ==> m[a] == memory[a]
  {
    memory[..ProgramStart] + image + memory[ProgramStart + |image|..]
  }

  /** The copy step of `LoadROM`: only memory changes. */
  function Load(s: State, image: seq<Byte>): (t: State)
    requires WellFormed(s)
    requires |image| <= MemorySize - ProgramStart
    ensures WellFormed(t)
    ensures t.(memory := s.memory) == s
    ensures forall k :: 0 <= k < |image| ==> t.memory[ProgramStart + k] == image[k]
  {
    s.(memory := LoadImage(s.memory, image))
  }

  /** A freshly constructed machine with `image` loaded. */
  function Boot(image: seq<Byte>): (s: State)
    requires |image| <= MemorySize - ProgramStart
    ensures WellFormed(s) && s.pc == ProgramStart && s.sp == 0 && s.I == 0
    ensures forall k :: 0 <= k < |image| ==> s.memory[ProgramStart + k] == image[k]
    ensures forall a :: 0 <= a < MemorySize && !(ProgramStart <= a < ProgramStart + |image|) ==> s.memory[a] == 0
  {
    Load(Initial(), image)
  }

  /** The big-endian opcode at `pc`: `memory[pc]` is its high byte and
      `memory[pc + 1]` its low byte. */
  function Fetch(memory: seq<Byte>, pc: Word): (op: Word)
    requires |memory| == MemorySize
    requires pc as int + 1 < MemorySize
    ensures op / 0x100 == memory[pc] && NN(op) == memory[pc + 1]
  {
    memory[pc] as int * 0x100 + memory[pc + 1] as int
  }

  /** The register file after one `8XY?` instruction, writing `VX` and `VF`
      in the order the source does: the carry flag of `8XY4` after `VX`, the
      flags of `8XY5`, `8XY6`, `8XY7` and `8XYE` before `VX`, whose new value
      is then computed from the registers as they are after the flag write. */
  function AluStep(v: seq<Byte>, a: AluOp, x: Nibble, y: Nibble): (w: seq<Byte>)
    requires |v| == RegisterCount
    ensures |w| == RegisterCount
  {
    match a
    case Move => v[x := v[y]]
    case Or => v[x := Or8(v[x], v[y])]
    case And => v[x := And8(v[x], v[y])]
    case Xor => v[x := Xor8(v[x], v[y])]
    case AddCarry =>
      var sum := v[x] as int + v[y] as int;
      v[x := Trunc8(sum)][VF := if sum > 0xFF then 1 else 0]
    case Sub =>
      var f := v[VF := if v[x] > v[y] then 1 else 0];
      f[x := Trunc8(f[x] as int - f[y] as int)]
    case ShiftRight =>
      var f := v[VF := Lsb(v[x])];
      f[x := f[x] / 2]
    case SubReverse =>
      var f := v[VF := if v[y] > v[x] then 1 else 0];
      f[x := Trunc8(f[y] as int - f[x] as int)]
    case ShiftLeft =>
      var f := v[VF := Msb(v[x])];
      f[x := Trunc8(f[x] as int * 2)]
  }

  /** The precondition of `Execute`: a return needs a nonempty stack, since
      the source decrements `sp` unchecked and then indexes `stack` with it. */
  predicate CanExecute(s: State, i: Instr)
    ensures CanExecute(s, i) ==> WellFormed(s)
    ensures WellFormed(s) && s.sp >= 1 ==> CanExecute(s, i)
    ensures WellFormed(s) && !i.Return? ==> CanExecute(s, i)
  {
    WellFormed(s) && (i.Return? ==> s.sp >= 1)
  }

  /** The effect of one decoded instruction (`ExecuteOpcode`). */
  function Execute(s: State, i: Instr): (t: State)
    requires CanExecute(s, i)
    ensures WellFormed(t)
  {
    match i
    case ClearScreen => s.(display := seq(DisplaySize, _ => 0))
    case Return => s.(sp := s.sp - 1, pc := s.stack[s.sp - 1])
    case SetImm(x, nn) => s.(V := s.V[x := nn])
    case AddImm(x, nn) => s.(V := s.V[x := Trunc8(s.V[x] as int + nn as int)])
    case Alu(a, x, y) => s.(V := AluStep(s.V, a, x, y))
    case Unknown(_) => s
  }

  /** One decrement of a timer that stops at zero. */
  function Tick(t: Byte): (r: Byte)
    ensures r <= t
    ensures r == t <==> t == 0
    ensures t > 0 ==> r == t - 1
  {
    if t > 0 then t - 1 else 0
  }

  /** The hazards `Cycle` does not check: the fetch reads `memory[pc + 1]`,
      and a return pops the stack. */
  predicate CanCycle(s: State)
    ensures CanCycle(s) <==>
      && WellFormed(s)
      && s.pc as int + 1 < MemorySize
      && (var op := Fetch(s.memory, s.pc); Family(op) == 0x0 && NN(op) == 0xEE ==> s.sp >= 1)
  {
    && WellFormed(s)
    && s.pc as int + 1 < MemorySize
    && (Decode(Fetch(s.memory, s.pc)).Return? ==> s.sp >= 1)
  }

  /** `Cycle`: fetch, advance `pc` by 2 (as a `uint16_t`), execute, then tick
      both timers. */
  function Cycle(s: State): (t: State)
    requires CanCycle(s)
    ensures WellFormed(t)
  {
    var op := Fetch(s.memory, s.pc);
    var advanced := s.(pc := Trunc16(s.pc as int + 2));
    var executed := Execute(advanced, Decode(op));
    executed.(delayTimer := Tick(executed.delayTimer), soundTimer := Tick(executed.soundTimer))
  }

  /** `n` cycles in a row, as the driver loop performs them; `None` when one
      of them would run into a hazard of `CanCycle`. */
  function Run(s: State, n: nat): (r: Option<State>)
    ensures WellFormed(s) && r.Some? ==> WellFormed(r.value)
    decreases n
  {
    if n == 0 then Some(s)
    else if !CanCycle(s) then None
    else Run(Cycle(s), n - 1)
  }
}
