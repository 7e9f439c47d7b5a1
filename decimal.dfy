/**
 * The decimal form of a non-negative integer: most significant digit first,
 * no leading zero, and "0" for zero. For integers up to 2^53, which include
 * the route's suffixes below 10000, this is how a JavaScript template literal
 * `${n}` renders them. `ToNat` reads such a form back.
 */
module Decimal {

  predicate IsDigit(c: char) {
    '0' <= c <= '9'
  }

  predicate AllDigits(s: string) {
    forall i :: 0 <= i < |s| ==> IsDigit(s[i])
  }

  /** A canonical decimal form: non-empty, digits only, no leading zero unless it is "0". */
  predicate IsCanonical(s: string) {
    |s| >= 1 && AllDigits(s) && (s[0] == '0' ==> |s| == 1)
  }

  function DigitChar(d: nat): (c: char)
    requires d < 10
    ensures IsDigit(c) && c as int - '0' as int == d
  {
    ('0' as int + d) as char
  }

  function DigitValue(c: char): (d: nat)
    requires IsDigit(c)
    ensures d < 10 && DigitChar(d) == c
  {
    c as int - '0' as int
  }

  /** The decimal form of n; `${n}` in JavaScript for n up to 2^53. */
  function FromNat(n: nat): (s: string)
    ensures IsCanonical(s)
    ensures s[0] == '0' <==> n == 0
    decreases n
  {
    if n < 10 then [DigitChar(n)] else FromNat(n / 10) + [DigitChar(n % 10)]
  }

  /** The value of a string of decimal digits, most significant first. */
  function ToNat(s: string): nat
    requires AllDigits(s)
  {
    if |s| == 0 then 0 else ToNat(s[..|s| - 1]) * 10 + DigitValue(s[|s| - 1])
  }

  /** Reading the decimal form of n gives n back. */
  lemma {:induction false} ToNatFromNat(n: nat)
    ensures ToNat(FromNat(n)) == n
    decreases n
  {
    if n >= 10 {
      var s := FromNat(n);
      assert s[..|s| - 1] == FromNat(n / 10);
      ToNatFromNat(n / 10);
    }
  }

  lemma {:induction false} ToNatPositive(s: string)
    requires |s| >= 1 && AllDigits(s) && s[0] != '0'
    ensures ToNat(s) >= 1
    decreases |s|
  {
    if |s| > 1 {
      ToNatPositive(s[..|s| - 1]);
    }
  }

  /** Every canonical decimal form is the form of the number it denotes. */
  lemma {:induction false} FromNatToNat(s: string)
    requires IsCanonical(s)
    ensures FromNat(ToNat(s)) == s
    decreases |s|
  {
    if |s| > 1 {
      var init := s[..|s| - 1];
      ToNatPositive(init);
      assert ToNat(s) >= 10;
      FromNatToNat(init);
      assert ToNat(s) / 10 == ToNat(init);
      assert ToNat(s) % 10 == DigitValue(s[|s| - 1]);
      assert s == init + [s[|s| - 1]];
    }
  }

  /** Different numbers have different decimal forms. */
  lemma FromNatInjective(a: nat, b: nat)
    requires FromNat(a) == FromNat(b)
    ensures a == b
  {
    ToNatFromNat(a);
    ToNatFromNat(b);
  }
}
