/**
 * Go's decimal conversions between `int` and `string` as the customer handlers use them:
 * `strconv.Itoa` (and `fmt`'s `%v` on an int, which prints the same digits) and the value
 * part of `strconv.Atoi` on a 64-bit platform. The handlers discard Atoi's error, so only the
 * value it returns matters here: the number for a well-formed decimal, clamped to the int64
 * range when it is too large, and 0 for anything else.
 */
module Strconv {
  const MinInt64: int := -0x8000_0000_0000_0000
  const MaxInt64: int := 0x7fff_ffff_ffff_ffff

  predicate IsInt64(n: int) {
    MinInt64 <= n <= MaxInt64
  }

  predicate IsDigit(c: char) {
    '0' <= c <= '9'
  }

  predicate AllDigits(s: string) {
    forall i :: 0 <= i < |s| ==> IsDigit(s[i])
  }

  function DigitChar(d: nat): (c: char)
    requires d < 10
    ensures IsDigit(c) && c as int - '0' as int == d
  {
    ('0' as int + d) as char
  }

  /** The decimal digits of `n`, most significant first, with no leading zero. */
  function Digits(n: nat): (s: string)
    ensures |s| > 0 && AllDigits(s)
    ensures n >= 10 ==> s[0] != '0'
  {
    if n < 10 then [DigitChar(n)] else Digits(n / 10) + [DigitChar(n % 10)]
  }

  /** `strconv.Itoa(n)`: a minus sign for negative numbers, then the digits of the magnitude. */
  function Itoa(n: int): (s: string)
    ensures IsDecimal(s)
    ensures s[0] == '-' <==> n < 0
  {
    if n < 0 then "-" + Digits(-n) else (assert IsDigit(Digits(n)[0]); Digits(n))
  }

  /** The number a run of decimal digits denotes. */
  function DigitsValue(s: string): (v: nat)
    requires AllDigits(s)
  {
    if s == [] then 0 else DigitsValue(s[..|s| - 1]) * 10 + (s[|s| - 1] as int - '0' as int)
  }

  /** `s` without its leading sign, if it has one. */
  function Unsigned(s: string): (u: string) {
    if |s| > 0 && (s[0] == '+' || s[0] == '-') then s[1..] else s
  }

  /** Whether Atoi accepts `s`: an optional `+` or `-` followed by at least one decimal digit. */
  predicate IsDecimal(s: string) {
    |Unsigned(s)| > 0 && AllDigits(Unsigned(s))
  }

  /** The value `strconv.Atoi(s)` returns, whatever its error. */
  function Atoi(s: string): (n: int)
    ensures IsInt64(n)
  {
    if !IsDecimal(s) then 0
    else
      var v: int := DigitsValue(Unsigned(s));
      if s[0] == '-' then (if v > -MinInt64 then MinInt64 else -v)
      else (if v > MaxInt64 then MaxInt64 else v)
  }

  /** Reading back the digits of `n` gives `n`. */
  lemma {:induction false} DigitsValueOfDigits(n: nat)
    ensures DigitsValue(Digits(n)) == n
  {
    if n >= 10 {
      var s := Digits(n);
      assert s[..|s| - 1] == Digits(n / 10);
      DigitsValueOfDigits(n / 10);
    }
  }

  /** Atoi inverts Itoa on every int64 value. */
  lemma AtoiItoa(n: int)
    requires IsInt64(n)
    ensures Atoi(Itoa(n)) == n
  {
    var s := Itoa(n);
    if n < 0 {
      assert Unsigned(s) == Digits(-n);
      DigitsValueOfDigits(-n);
    } else {
      assert IsDigit(s[0]);
      assert Unsigned(s) == Digits(n);
      DigitsValueOfDigits(n);
    }
  }

  /** The same round trip, for callers that cannot establish the range first. */
  lemma AtoiItoaInRange(n: int)
    ensures IsInt64(n) ==> Atoi(Itoa(n)) == n
  {
    if IsInt64(n) {
      AtoiItoa(n);
    }
  }

  /** Different ints are printed differently, with no bound on their size. */
  lemma ItoaInjective(a: int, b: int)
    requires Itoa(a) == Itoa(b)
    ensures a == b
  {
    var s := Itoa(a);
    assert s[0] == '-' <==> a < 0 by {
      if a >= 0 { assert IsDigit(Digits(a)[0]); }
    }
    assert s[0] == '-' <==> b < 0 by {
      if b >= 0 { assert IsDigit(Digits(b)[0]); }
    }
    if a < 0 {
      assert Digits(-a) == s[1..] == Digits(-b);
      DigitsValueOfDigits(-a);
      DigitsValueOfDigits(-b);
    } else {
      DigitsValueOfDigits(a);
      DigitsValueOfDigits(b);
    }
  }

  /** Anything that is not an optionally signed run of digits reads as 0. */
  lemma AtoiOfNonDecimal(s: string)
    requires !IsDecimal(s)
    ensures Atoi(s) == 0
  {
  }
}
