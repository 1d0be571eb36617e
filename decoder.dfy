/** The instruction decoder shared by every later generation of the machine
    (`get_cmd` and `get_mode`): the opcode table and the addressing-mode digits. */
module Decoder {
  import opened Common

  datatype Op = Add | Mul | In | Out | Jnz | Jz | Lt | Cmp | AdjBp | Hlt

  /** A decoded instruction: the operation, how many operand cells follow it,
      and whether the last operand is a write target. */
  datatype Cmd = Cmd(op: Op, nOperands: nat, writes: bool)

  datatype RegMode = Pos | Imm | Rel

  /** Operand count of each operation. */
  function Arity(op: Op): nat
  {
    match op
    case Add => 3
    case Mul => 3
    case In => 1
    case Out => 1
    case Jnz => 2
    case Jz => 2
    case Lt => 3
    case Cmp => 3
    case AdjBp => 1
    case Hlt => 0
  }

  /** The operations whose last operand is an address to store into. */
  predicate Writes(op: Op)
  {
    op == Add || op == Mul || op == In || op == Lt || op == Cmp
  }

  /** A command as the table produces it. */
  predicate WellFormed(cmd: Cmd)
  {
    cmd.nOperands == Arity(cmd.op) && cmd.writes == Writes(cmd.op)
  }

  /** The opcode table. The opcode is Rust's truncating `instruction % 100`,
      so a negative instruction never decodes (Dafny's own `%` would turn
      -1 into 99, a halt). */
  function GetCmd(instruction: int): (r: Option<Cmd>)
    ensures r.Some? <==> TruncRem(instruction, 100) in {1, 2, 3, 4, 5, 6, 7, 8, 9, 99}
    ensures r.Some? ==> WellFormed(r.value) && instruction > 0
    ensures r.Some? ==> (r.value.op == Hlt <==> TruncRem(instruction, 100) == 99)
  {
    match TruncRem(instruction, 100)
    case 1 => Some(Cmd(Add, 3, true))
    case 2 => Some(Cmd(Mul, 3, true))
    case 3 => Some(Cmd(In, 1, true))
    case 4 => Some(Cmd(Out, 1, false))
    case 5 => Some(Cmd(Jnz, 2, false))
    case 6 => Some(Cmd(Jz, 2, false))
    case 7 => Some(Cmd(Lt, 3, true))
    case 8 => Some(Cmd(Cmp, 3, true))
    case 9 => Some(Cmd(AdjBp, 1, false))
    case 99 => Some(Cmd(Hlt, 0, false))
    case _ => None
  }

  /** Only the two low decimal digits select the operation: the mode digits
      above them never change which command is decoded. */
  lemma DecodeIgnoresModeDigits(instruction: int, k: nat)
    requires instruction >= 0
    ensures GetCmd(instruction + 100 * k) == GetCmd(instruction)
    ensures GetCmd(instruction) == GetCmd(instruction % 100)
  {
    assert (instruction + 100 * k) % 100 == instruction % 100;
    assert instruction % 100 % 100 == instruction % 100;
  }

  /** One addressing-mode digit: 0 is position, 1 immediate, 2 relative;
      anything else panics ("Register mode not implemented!"). */
  function ModeOf(d: int): (r: Option<RegMode>)
    ensures r.Some? <==> 0 <= d <= 2
  {
    if d == 0 then Some(Pos) else if d == 1 then Some(Imm) else if d == 2 then Some(Rel) else None
  }

  /** The modes of n operands, least significant digit of `digits` first. */
  function ModeDigits(digits: int, n: nat): (r: Option<seq<RegMode>>)
    ensures r.Some? ==> |r.value| == n
    decreases n
  {
    if n == 0 then Some([])
    else
      match ModeOf(TruncRem(digits, 10))
      case None => None
      case Some(m) =>
        match ModeDigits(TruncDiv(digits, 10), n - 1)
        case None => None
        case Some(rest) => Some([m] + rest)
  }

  /** `get_mode`: the modes of the n operands of `instruction`. */
  function GetMode(instruction: int, n: nat): Option<seq<RegMode>>
  {
    ModeDigits(TruncDiv(instruction, 100), n)
  }

  /** Decimal digit i of x, counting from the least significant. */
  function DecimalDigit(x: nat, i: nat): (r: nat)
    ensures r < 10
  {
    if i == 0 then x % 10 else DecimalDigit(x / 10, i - 1)
  }

  /** The i-th mode digit of an instruction, least significant first. */
  function ModeDigit(instruction: nat, i: nat): nat
  {
    DecimalDigit(instruction / 100, i)
  }

  /** Proof helper: multiplying by a non-negative number keeps the order. */
  lemma MulMono(d: int, x: int, y: int)
    requires d >= 0 && x <= y
    ensures d * x <= d * y
  {
    assert d * y - d * x == d * (y - x);
  }

  /** Proof helper: Euclidean division has one quotient and remainder. */
  lemma DivUnique(a: int, d: int, q: int, r: int)
    requires d > 0 && a == d * q + r && 0 <= r < d
    ensures a / d == q
  {
    var q0, r0 := a / d, a % d;
    assert a == d * q0 + r0;
    if q > q0 {
      assert d * (q0 + 1) == d * q0 + d;
      MulMono(d, q0 + 1, q);
    } else if q < q0 {
      assert d * (q + 1) == d * q + d;
      MulMono(d, q + 1, q0);
    }
  }

  /** Proof helper: dividing twice is dividing by the product. */
  lemma DivDiv(a: nat, b: nat, c: nat)
    requires b > 0 && c > 0
    ensures a / b / c == a / (b * c)
  {
    var q, r := a / b, a % b;
    var q2, r2 := q / c, q % c;
    assert a == b * q + r;
    assert q == c * q2 + r2;
    assert b * q == (b * c) * q2 + b * r2 by {
      assert b * (c * q2 + r2) == b * (c * q2) + b * r2;
      assert b * (c * q2) == (b * c) * q2;
    }
    MulMono(b, r2, c - 1);
    assert b * (c - 1) == b * c - b;
    DivUnique(a, b * c, q2, b * r2 + r);
  }

  /** Digit i is what remains after dividing by 10^i, reduced modulo 10. */
  lemma {:induction false} DecimalDigitDiv(x: nat, i: nat)
    ensures DecimalDigit(x, i) == x / Pow10(i) % 10
  {
    if i > 0 {
      DecimalDigitDiv(x / 10, i - 1);
      DivDiv(x, 10, Pow10(i - 1));
    }
  }

  lemma {:induction false} ModeDigitsAt(digits: nat, n: nat, i: nat)
    requires i < n
    ensures ModeDigits(digits, n).Some? ==>
              Some(ModeDigits(digits, n).value[i]) == ModeOf(DecimalDigit(digits, i))
  {
    if i > 0 {
      ModeDigitsAt(digits / 10, n - 1, i - 1);
    }
  }

  /** Each of the n low decimal digits of `digits` names a mode. */
  predicate ModeDigitsValid(digits: nat, n: nat)
  {
    forall j :: 0 <= j < n ==> DecimalDigit(digits, j) <= 2
  }

  lemma ModeDigitsValidStep(digits: nat, n: nat)
    requires n > 0
    ensures ModeDigitsValid(digits, n) <==> digits % 10 <= 2 && ModeDigitsValid(digits / 10, n - 1)
  {
    var next := digits / 10;
    assert forall j :: 0 < j ==> DecimalDigit(digits, j) == DecimalDigit(next, j - 1);
    if ModeDigitsValid(digits, n) {
      assert DecimalDigit(digits, 0) <= 2;
      forall j | 0 <= j < n - 1
        ensures DecimalDigit(next, j) <= 2
      {
        assert DecimalDigit(digits, j + 1) <= 2;
      }
    }
    if digits % 10 <= 2 && ModeDigitsValid(next, n - 1) {
      forall j | 0 <= j < n
        ensures DecimalDigit(digits, j) <= 2
      {
        if j > 0 {
          assert DecimalDigit(next, j - 1) <= 2;
        }
      }
    }
  }

  lemma {:induction false} ModeDigitsSome(digits: nat, n: nat)
    ensures ModeDigits(digits, n).Some? <==> ModeDigitsValid(digits, n)
  {
    if n > 0 {
      var next := digits / 10;
      ModeDigitsSome(next, n - 1);
      ModeDigitsValidStep(digits, n);
      assert TruncRem(digits, 10) == digits % 10;
      assert TruncDiv(digits, 10) == next;
    }
  }

  /** Proof helper: a natural number below the divisor divides to 0. */
  lemma DivSmall(a: nat, d: nat)
    requires a < d
    ensures a / d == 0
  {
    DivUnique(a, d, 0, a);
  }

  /** `get_mode` gives operand i the i-th least significant digit of
      instruction / 100 (that is, instruction / (100 * 10^i) % 10); it panics
      exactly when one of those n digits is above 2; and a digit beyond the
      written ones is 0, position mode. */
  lemma {:induction false} GetModeDigits(instruction: nat, n: nat, i: nat)
    requires i < n
    ensures ModeDigit(instruction, i) == instruction / (100 * Pow10(i)) % 10
    ensures GetMode(instruction, n).Some? <==> forall j :: 0 <= j < n ==> ModeDigit(instruction, j) <= 2
    ensures GetMode(instruction, n).Some? ==>
              Some(GetMode(instruction, n).value[i]) == ModeOf(ModeDigit(instruction, i))
    ensures GetMode(instruction, n).Some? && instruction < 100 * Pow10(i) ==>
              GetMode(instruction, n).value[i] == Pos
  {
    var digits := instruction / 100;
    assert GetMode(instruction, n) == ModeDigits(digits, n);
    assert forall j :: ModeDigit(instruction, j) == DecimalDigit(digits, j);
    DecimalDigitDiv(digits, i);
    DivDiv(instruction, 100, Pow10(i));
    ModeDigitsAt(digits, n, i);
    ModeDigitsSome(digits, n);
    assert ModeDigitsValid(digits, n) <==> forall j :: 0 <= j < n ==> ModeDigit(instruction, j) <= 2;
    if instruction < 100 * Pow10(i) {
      DivSmall(instruction, 100 * Pow10(i));
    }
  }
}
