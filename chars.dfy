/** Character classes, decimal numerals and the host's fixed-width integers. */
module Chars {

  const I32_MAX: int := 0x7fff_ffff
  const I64_MIN: int := -0x8000_0000_0000_0000
  const I64_MAX: int := 0x7fff_ffff_ffff_ffff

  /** Rust's `i32`, the payload of the lexer's integer token. */
  newtype i32 = x: int | -0x8000_0000 <= x <= 0x7fff_ffff

  /** Rust's `i64`, the width of integer literals and integer objects. */
  newtype i64 = x: int | -0x8000_0000_0000_0000 <= x <= 0x7fff_ffff_ffff_ffff

  predicate InI64(x: int) { I64_MIN <= x <= I64_MAX }

  /** `char::is_alphabetic`, restricted to ASCII. */
  predicate IsLetter(c: char) { 'a' <= c <= 'z' || 'A' <= c <= 'Z' }

  /** `char::is_numeric`, restricted to ASCII. */
  predicate IsDigit(c: char) { '0' <= c <= '9' }

  /** The four characters the lexer skips between tokens. */
  predicate IsWhitespace(c: char) { c == ' ' || c == '\t' || c == '\n' || c == '\r' }

  predicate AllDigits(s: string) { forall i :: 0 <= i < |s| ==> IsDigit(s[i]) }

  function DigitValue(c: char): (d: nat)
    requires IsDigit(c)
    ensures d < 10
  {
    (c as int - '0' as int) as nat
  }

  function DigitChar(d: nat): (c: char)
    requires d < 10
    ensures IsDigit(c) && DigitValue(c) == d
  {
    ('0' as int + d) as char
  }

  /** The value of a decimal numeral, most significant digit first (what `str::parse` computes). */
  function DecimalValue(s: string): nat
    requires AllDigits(s)
  {
    if s == [] then 0 else DecimalValue(s[..|s| - 1]) * 10 + DigitValue(s[|s| - 1])
  }

  /** The decimal numeral of a natural number, without leading zeros. */
  function NatToString(n: nat): (s: string)
    ensures |s| > 0 && AllDigits(s)
    ensures s[0] == '0' ==> n == 0 && s == "0"
    decreases n
  {
    if n < 10 then [DigitChar(n)] else NatToString(n / 10) + [DigitChar(n % 10)]
  }

  /** The decimal form of an integer, with a leading `-` when it is negative (Rust's `{}` for integers). */
  function IntToString(n: int): string
  {
    if n < 0 then "-" + NatToString(-n) else NatToString(n)
  }

  /** Reading back a printed natural number gives the number. */
  lemma {:induction false} DecimalValueOfNatToString(n: nat)
    ensures DecimalValue(NatToString(n)) == n
    decreases n
  {
    var s := NatToString(n);
    if n >= 10 {
      DecimalValueOfNatToString(n / 10);
      assert s[..|s| - 1] == NatToString(n / 10);
    }
  }

  /** The printed form of an integer determines it: its sign is the leading `-`, its magnitude the digits after it. */
  lemma IntToStringRoundTrip(n: int)
    ensures var s := IntToString(n);
      && |s| > 0
      && (s[0] == '-' <==> n < 0)
      && (n < 0 ==> AllDigits(s[1..]) && DecimalValue(s[1..]) == -n)
      && (n >= 0 ==> AllDigits(s) && DecimalValue(s) == n)
  {
    if n < 0 {
      DecimalValueOfNatToString(-n);
      assert IntToString(n)[1..] == NatToString(-n);
    } else {
      DecimalValueOfNatToString(n);
    }
  }
}

/** Integer division as the host does it: Rust's `/` on `i64` rounds toward zero. */
module Division {
  import opened Chars

  function Abs(x: int): nat
  {
    if x < 0 then -x else x
  }

  /** Rust's integer `/`: the quotient rounded toward zero. */
  function TruncDiv(a: int, b: int): int
    requires b != 0
  {
    var q := Abs(a) / Abs(b);
    if (a < 0) == (b < 0) then q else -q
  }

  /** Euclidean division of naturals. */
  lemma {:induction false} NaturalDivision(x: nat, y: nat)
    requires y > 0
    ensures x == (x / y) * y + x % y && 0 <= x % y < y && x / y <= x
  {
    QuotientBounds(x, y);
  }

  /** How large the quotient of two naturals can be. */
  lemma {:induction false} QuotientBounds(x: nat, y: nat)
    requires y > 0
    ensures x / y <= x
    ensures y == 1 ==> x / y == x
    ensures y >= 2 ==> (x / y) * 2 <= x
  {
    var q := x / y;
    assert q * y <= x;
    if y >= 2 {
      assert q * 2 <= q * y;
    }
  }

  /** The quotient times the divisor has the magnitude of the natural product and the sign of the dividend. */
  lemma {:induction false} QuotientTimesDivisor(a: int, b: int)
    requires b != 0
    ensures var p := (Abs(a) / Abs(b)) * Abs(b);
            TruncDiv(a, b) * b == if a < 0 then -p else p
  {
    var q0 := Abs(a) / Abs(b);
    if b < 0 {
      assert q0 * b == -(q0 * Abs(b));
    }
  }

  /** The sign bookkeeping of rounding toward zero, with the products already named. */
  lemma {:induction false} SignedRemainder(a: int, b: int, q: int, q0: int, p: int, m: int, qb: int)
    requires b != 0 && 0 <= q0 <= Abs(a) && p >= 0 && 0 <= m < Abs(b) && Abs(a) == p + m
    requires qb == (if a < 0 then -p else p) && (q == q0 || q == -q0)
    ensures Abs(a - qb) < Abs(b) && (a - qb == 0 || (a - qb < 0 <==> a < 0)) && Abs(q) <= Abs(a)
  {
  }

  /** The quotient rounded toward zero: the remainder is smaller than the divisor and has the sign of the dividend. */
  lemma {:induction false} TruncDivIsRounding(a: int, b: int)
    requires b != 0
    ensures var q := TruncDiv(a, b); var rem := a - q * b;
            Abs(rem) < Abs(b) && (rem == 0 || (rem < 0 <==> a < 0)) && Abs(q) <= Abs(a)
  {
    var q0 := Abs(a) / Abs(b);
    NaturalDivision(Abs(a), Abs(b));
    QuotientTimesDivisor(a, b);
    SignedRemainder(a, b, TruncDiv(a, b), q0, q0 * Abs(b), Abs(a) % Abs(b), TruncDiv(a, b) * b);
  }

  /** The rounded quotient of an `i64` by a non-zero `i64` fits `i64`, except for `i64::MIN / -1`. */
  lemma {:induction false} QuotientFits(a: int, b: int)
    requires InI64(a) && InI64(b) && b != 0
    ensures InI64(TruncDiv(a, b)) <==> !(a == I64_MIN && b == -1)
  {
    var q := TruncDiv(a, b);
    if b == 1 || b == -1 {
      assert Abs(b) == 1;
      QuotientBounds(Abs(a), 1);
      assert q == if b == 1 then a else -a;
    } else {
      var q0 := Abs(a) / Abs(b);
      QuotientBounds(Abs(a), Abs(b));
      assert q == q0 || q == -q0;
      assert q0 * 2 <= Abs(a);
    }
  }
}
