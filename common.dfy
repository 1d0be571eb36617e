/** Values and integer operations shared by every part of the model. */
module Common {

  datatype Option<T> = None | Some(value: T)

  /** Bounds of Rust's `i64`. */
  const I64Min: int := -0x8000_0000_0000_0000
  const I64Max: int := 0x7FFF_FFFF_FFFF_FFFF

  /** 2^64: the modulus of a `usize` on a 64-bit target. */
  const UsizeModulus: int := 0x1_0000_0000_0000_0000

  /** Rust's `/` on integers: the quotient is truncated toward zero. */
  function TruncDiv(a: int, b: int): int
    requires b > 0
  {
    if a >= 0 then a / b else -((-a) / b)
  }

  /** Rust's `%` on integers: the remainder takes the sign of the dividend. */
  function TruncRem(a: int, b: int): int
    requires b > 0
  {
    if a >= 0 then a % b else -((-a) % b)
  }

  /** The two truncating operators fit together as Rust promises, and the
      remainder is never positive for a negative dividend. */
  lemma TruncDivRem(a: int, b: int)
    requires b > 0
    ensures a == TruncDiv(a, b) * b + TruncRem(a, b)
    ensures a >= 0 ==> 0 <= TruncRem(a, b) < b
    ensures a < 0 ==> -b < TruncRem(a, b) <= 0
  {
    if a < 0 {
      var q, r := (-a) / b, (-a) % b;
      assert -a == q * b + r;
    }
  }

  /** `x as usize` on a 64-bit target: the value reduced modulo 2^64, so a
      negative `i64` lands at 2^64 + x, far beyond any tape. */
  function Usize(x: int): (r: nat)
    ensures r < UsizeModulus
    ensures 0 <= x < UsizeModulus ==> r == x
    ensures I64Min <= x < 0 ==> r == UsizeModulus + x && r >= UsizeModulus / 2
  {
    x % UsizeModulus
  }

  /** `x as u8`: keep the low eight bits (two's complement), for any integer. */
  function AsU8(x: int): (r: nat)
    ensures r < 256
    ensures 0 <= x < 256 ==> r == x
  {
    x % 256
  }

  /** `c as u8 as i64` for a character. */
  function CharCode(c: char): (r: nat)
    ensures r < 256
    ensures (c as int) < 256 ==> r == c as int
  {
    AsU8(c as int)
  }

  /** `n as u8 as char` for an integer. */
  function CodeChar(n: int): (c: char)
    ensures c as int == AsU8(n)
  {
    AsU8(n) as char
  }

  /** The character codes of a string, in order (`s.chars()` mapped through `as u8 as i64`). */
  function Codes(s: string): (r: seq<int>)
    ensures |r| == |s|
    ensures forall i :: 0 <= i < |s| ==> r[i] == CharCode(s[i])
  {
    if s == [] then [] else [CharCode(s[0])] + Codes(s[1..])
  }

  lemma {:induction false} CodesAppend(s: string, t: string)
    ensures Codes(s + t) == Codes(s) + Codes(t)
  {
    if s != [] {
      assert (s + t)[1..] == s[1..] + t;
      CodesAppend(s[1..], t);
    } else {
      assert s + t == t;
    }
  }

  /** 10 to the power k. */
  function Pow10(k: nat): (r: nat)
    ensures r >= 1
  {
    if k == 0 then 1 else 10 * Pow10(k - 1)
  }
}
