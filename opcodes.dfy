/** The instruction words the interpreter understands, and how a 16-bit
    opcode is split into fields and classified by the dispatch in
    `Chip8::ExecuteOpcode`. */
module Opcodes {
  import opened Bits

  /** The register-to-register operations of the `8XY?` family. */
  datatype AluOp =
    | Move        // 8XY0: VX := VY
    | Or          // 8XY1: VX := VX | VY
    | And         // 8XY2: VX := VX & VY
    | Xor         // 8XY3: VX := VX ^ VY
    | AddCarry    // 8XY4: VX := VX + VY, VF := carry
    | Sub         // 8XY5: VF := VX > VY, VX := VX - VY
    | ShiftRight  // 8XY6: VF := lsb VX, VX := VX >> 1
    | SubReverse  // 8XY7: VF := VY > VX, VX := VY - VX
    | ShiftLeft   // 8XYE: VF := msb VX, VX := VX << 1

  /** A decoded opcode: one variant per branch of the dispatch, with
      `Unknown` for every word that reaches its log-only `default`. */
  datatype Instr =
    | ClearScreen                             // 0?E0
    | Return                                  // 0?EE
    | SetImm(x: Nibble, nn: Byte)             // 6XNN
    | AddImm(x: Nibble, nn: Byte)             // 7XNN
    | Alu(op: AluOp, x: Nibble, y: Nibble)    // 8XY0-8XY7, 8XYE
    | Unknown(raw: Word)

  /** `(opcode & 0xF000) >> 12`: the primary dispatch key. */
  function Family(op: Word): (f: Nibble)
    ensures f * 0x1000 <= op < f * 0x1000 + 0x1000
  {
    op / 0x1000
  }

  /** `(opcode & 0x0F00) >> 8`. */
  function X(op: Word): (x: Nibble)
    ensures x * 0x100 <= op % 0x1000 < x * 0x100 + 0x100
  {
    op / 0x100 % 0x10
  }

  /** `(opcode & 0x00F0) >> 4`. */
  function Y(op: Word): (y: Nibble)
    ensures y * 0x10 <= op % 0x100 < y * 0x10 + 0x10
  {
    op / 0x10 % 0x10
  }

  /** `opcode & 0x000F`: the key of the `8XY?` dispatch. */
  function N(op: Word): (n: Nibble)
    ensures (op - n) % 0x10 == 0
  {
    op % 0x10
  }

  /** `opcode & 0x00FF`: the immediate byte, and the key of the `0x0` dispatch. */
  function NN(op: Word): (nn: Byte)
    ensures (op - nn) % 0x100 == 0
  {
    op % 0x100
  }

  /** Division by a power of sixteen, stated for the three divisors the
      field extraction uses (each case is then linear arithmetic). */
  lemma DivMod(n: int, k: int, q: int, r: int)
    requires k == 0x10 || k == 0x100 || k == 0x1000
    requires 0 <= r < k && n == q * k + r
    ensures n / k == q && n % k == r
  {
    if k == 0x10 {
      assert n == q * 0x10 + r;
    } else if k == 0x100 {
      assert n == q * 0x100 + r;
    } else {
      assert n == q * 0x1000 + r;
    }
  }

  /** An opcode is its four nibbles, and its low byte is its last two. */
  lemma Digits(op: Word)
    ensures op == Family(op) * 0x1000 + X(op) * 0x100 + Y(op) * 0x10 + N(op)
    ensures NN(op) == Y(op) * 0x10 + N(op)
  {
    var hi, lo := op / 0x100, op % 0x100;
    var f, x := hi / 0x10, hi % 0x10;
    var y, n := lo / 0x10, lo % 0x10;
    assert op == hi * 0x100 + lo;
    assert op == f * 0x1000 + (x * 0x100 + lo);
    DivMod(op, 0x1000, f, x * 0x100 + lo);
    DivMod(op, 0x10, hi * 0x10 + y, n);
    DivMod(op / 0x10, 0x10, hi, y);
  }

  /** The fields of the word assembled from four nibbles are those nibbles. */
  lemma DigitsOf(a: Nibble, b: Nibble, c: Nibble, d: Nibble)
    ensures var op := a * 0x1000 + b * 0x100 + c * 0x10 + d;
      Family(op) == a && X(op) == b && Y(op) == c && N(op) == d && NN(op) == c * 0x10 + d
  {
    var op := a * 0x1000 + b * 0x100 + c * 0x10 + d;
    DivMod(op, 0x1000, a, b * 0x100 + c * 0x10 + d);
    DivMod(op, 0x100, a * 0x10 + b, c * 0x10 + d);
    DivMod(a * 0x10 + b, 0x10, a, b);
    DivMod(op, 0x10, a * 0x100 + b * 0x10 + c, d);
    DivMod(a * 0x100 + b * 0x10 + c, 0x10, a * 0x10 + b, c);
  }

  /** The low nibble that selects `a` in the `8XY?` dispatch. */
  function AluCode(a: AluOp): Nibble
  {
    match a
    case Move => 0x0
    case Or => 0x1
    case And => 0x2
    case Xor => 0x3
    case AddCarry => 0x4
    case Sub => 0x5
    case ShiftRight => 0x6
    case SubReverse => 0x7
    case ShiftLeft => 0xE
  }

  /** The low nibbles the `8XY?` dispatch has a case for. */
  predicate IsAluCode(n: Nibble)
  {
    n <= 0x7 || n == 0xE
  }

  /** The operation the `8XY?` dispatch selects for low nibble `n`. */
  function AluOpOf(n: Nibble): (a: AluOp)
    requires IsAluCode(n)
    ensures AluCode(a) == n
  {
    match n
    case 0x0 => Move
    case 0x1 => Or
    case 0x2 => And
    case 0x3 => Xor
    case 0x4 => AddCarry
    case 0x5 => Sub
    case 0x6 => ShiftRight
    case 0x7 => SubReverse
    case 0xE => ShiftLeft
  }

  /** The canonical opcode word of an instruction (the `?` of `0?E0` and
      `0?EE` is written as 0). */
  function Encode(i: Instr): Word
  {
    match i
    case ClearScreen => 0x00E0
    case Return => 0x00EE
    case SetImm(x, nn) => 0x6000 + x * 0x100 + nn
    case AddImm(x, nn) => 0x7000 + x * 0x100 + nn
    case Alu(a, x, y) => 0x8000 + x * 0x100 + y * 0x10 + AluCode(a)
    case Unknown(raw) => raw
  }

  /** The dispatch of `ExecuteOpcode`: first on the top nibble, then on the
      low byte (family `0x0`) or the low nibble (family `0x8`). Decoding loses
      nothing but the ignored second nibble of `0?E0` and `0?EE`. */
  function Decode(op: Word): (i: Instr)
    ensures Encode(i) == if i.ClearScreen? || i.Return? then NN(op) else op
    ensures i.ClearScreen? || i.Return? ==> Family(op) == 0
  {
    Digits(op);
    match Family(op)
    case 0x0 =>
      if NN(op) == 0xE0 then ClearScreen
      else if NN(op) == 0xEE then Return
      else Unknown(op)
    case 0x6 => SetImm(X(op), NN(op))
    case 0x7 => AddImm(X(op), NN(op))
    case 0x8 =>
      if IsAluCode(N(op)) then Alu(AluOpOf(N(op)), X(op), Y(op)) else Unknown(op)
    case _ => Unknown(op)
  }

  /** An instruction that some opcode decodes to: `Unknown` carries only
      words the dispatch does not recognise. */
  predicate Canonical(i: Instr)
  {
    i.Unknown? ==> Decode(i.raw).Unknown?
  }

  /** Encoding then decoding gives back the instruction. */
  lemma DecodeEncode(i: Instr)
    requires Canonical(i)
    ensures Decode(Encode(i)) == i
  {
    match i
    case Unknown(raw) =>
    case ClearScreen =>
    case Return =>
    case SetImm(x, nn) =>
      DigitsOf(0x6, x, nn / 0x10, nn % 0x10);
    case AddImm(x, nn) =>
      DigitsOf(0x7, x, nn / 0x10, nn % 0x10);
    case Alu(a, x, y) =>
      DigitsOf(0x8, x, y, AluCode(a));
  }

  /** Exactly these words reach the log-only `default` of the dispatch: a top
      nibble other than 0, 6, 7 and 8; a `0x0` word whose low byte is neither
      E0 nor EE; an `0x8` word whose low nibble is 8 to D or F. */
  lemma UnknownExactly(op: Word)
    ensures Decode(op).Unknown? <==>
      || (Family(op) != 0x0 && Family(op) != 0x6 && Family(op) != 0x7 && Family(op) != 0x8)
      || (Family(op) == 0x0 && NN(op) != 0xE0 && NN(op) != 0xEE)
      || (Family(op) == 0x8 && (0x8 <= N(op) <= 0xD || N(op) == 0xF))
  {
  }
}
