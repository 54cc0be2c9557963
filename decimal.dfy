/** Decimal text for natural numbers: Python's `str(n)`, `int(digits)` and the
    zero-padded `%0<width>d` conversion, all for non-negative numbers. */
module Decimal {

  predicate IsDigit(c: char) {
    '0' <= c <= '9'
  }

  predicate AllDigits(s: string) {
    forall i :: 0 <= i < |s| ==> IsDigit(s[i])
  }

  function DigitChar(d: nat): (c: char)
    requires d < 10
    ensures IsDigit(c)
  {
    (('0' as int) + d) as char
  }

  function DigitValue(c: char): (d: nat)
    requires IsDigit(c)
    ensures d < 10 && DigitChar(d) == c
  {
    (c as int) - ('0' as int)
  }

  /** `str(n)`: the shortest decimal text of `n`. */
  function Digits(n: nat): (s: string)
    ensures |s| >= 1 && AllDigits(s)
    ensures s[0] == '0' ==> n == 0
    decreases n
  {
    if n < 10 then [DigitChar(n)] else Digits(n / 10) + [DigitChar(n % 10)]
  }

  /** `int(s)` for a string of ASCII digits (leading zeros allowed). */
  function Parse(s: string): nat
    requires AllDigits(s)
    decreases |s|
  {
    if s == [] then 0 else Parse(s[..|s| - 1]) * 10 + DigitValue(s[|s| - 1])
  }

  lemma {:induction false} ParseDigits(n: nat)
    ensures Parse(Digits(n)) == n
    decreases n
  {
    if n >= 10 {
      var s := Digits(n);
      assert s[..|s| - 1] == Digits(n / 10);
      ParseDigits(n / 10);
    }
  }

  /** `str` is injective on naturals. */
  lemma DigitsInjective(a: nat, b: nat)
    ensures Digits(a) == Digits(b) ==> a == b
  {
    ParseDigits(a);
    ParseDigits(b);
  }

  function Zeros(k: nat): (s: string)
    ensures |s| == k && AllDigits(s)
    ensures forall i :: 0 <= i < k ==> s[i] == '0'
  {
    seq(k, _ => '0')
  }

  lemma {:induction false} ParseLeadingZero(s: string)
    requires AllDigits(s)
    ensures Parse(['0'] + s) == Parse(s)
    decreases |s|
  {
    if s != [] {
      var t := ['0'] + s;
      assert t[..|t| - 1] == ['0'] + s[..|s| - 1];
      ParseLeadingZero(s[..|s| - 1]);
    }
  }

  /** Leading zeros do not change the value `int` reads. */
  lemma {:induction false} ParseLeadingZeros(k: nat, s: string)
    requires AllDigits(s)
    ensures Parse(Zeros(k) + s) == Parse(s)
    decreases k
  {
    if k == 0 {
      assert Zeros(k) + s == s;
    } else {
      assert Zeros(k) + s == ['0'] + (Zeros(k - 1) + s);
      ParseLeadingZero(Zeros(k - 1) + s);
      ParseLeadingZeros(k - 1, s);
    }
  }

  function Max(a: nat, b: nat): nat {
    if a < b then b else a
  }

  /** Python's `"%0<width>d" % n` for a non-negative `n`: `str(n)` left-padded
      with zeros to `width` characters, never truncated. */
  function Pad(n: nat, width: nat): (s: string)
    ensures AllDigits(s)
    ensures |s| == Max(width, |Digits(n)|)
    ensures Parse(s) == n
  {
    var d := Digits(n);
    var k: nat := if width > |d| then width - |d| else 0;
    ParseDigits(n);
    ParseLeadingZeros(k, d);
    Zeros(k) + d
  }

  /** `str(i)` for any integer: a `-` exactly when `i` is negative, then
      digits that parse back to the magnitude of `i`. */
  function IntText(i: int): (s: string)
    ensures |s| >= 1 && (s[0] == '-' <==> i < 0)
    ensures var digits := if i < 0 then s[1..] else s;
      |digits| >= 1 && AllDigits(digits) && Parse(digits) == (if i < 0 then -i else i)
      && (digits[0] == '0' ==> i == 0)
  {
    ParseDigits(if i < 0 then -i else i);
    if i < 0 then "-" + Digits(-i) else Digits(i)
  }
}
