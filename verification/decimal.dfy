/** Decimal rendering of non-negative integers, as an f-string renders an int
    (scores and overtime counts in the final-score line). */
module Decimal {

  predicate IsDigit(c: char)
  {
    '0' <= c <= '9'
  }

  function DigitChar(d: int): (c: char)
    requires 0 <= d <= 9
    ensures IsDigit(c)
    ensures DigitValue(c) == d
  {
    ('0' as int + d) as char
  }

  function DigitValue(c: char): int
  {
    c as int - '0' as int
  }

  /** The number a string of decimal digits denotes, most significant first. */
  function DecimalValue(s: string): int
  {
    if |s| == 0 then 0 else 10 * DecimalValue(s[..|s| - 1]) + DigitValue(s[|s| - 1])
  }

  /** The digit strings `str` produces: non-empty, all digits, and no
      leading zero except in "0" itself. */
  predicate Canonical(s: string)
  {
    && 1 <= |s|
    && (forall i :: 0 <= i < |s| ==> IsDigit(s[i]))
    && (s[0] == '0' ==> s == "0")
  }

  /** Python's `str(n)` for n >= 0: the shortest digit string denoting n. */
  function NatToDecimal(n: nat): (s: string)
    ensures Canonical(s)
    ensures DecimalValue(s) == n
    decreases n
  {
    if n < 10 then [DigitChar(n)]
    else
      var prefix := NatToDecimal(n / 10);
      var s := prefix + [DigitChar(n % 10)];
      assert s[..|s| - 1] == prefix;
      assert s[0] == prefix[0];
      s
  }

  /** Different counts never render the same. */
  lemma NatToDecimalInjective(m: nat, n: nat)
    requires NatToDecimal(m) == NatToDecimal(n)
    ensures m == n
  {
  }

  /** A digit string that does not start with 0 denotes at least 1. */
  lemma {:induction false} LeadingDigitPositive(s: string)
    requires 1 <= |s| && forall i :: 0 <= i < |s| ==> IsDigit(s[i])
    requires s[0] != '0'
    ensures 1 <= DecimalValue(s)
  {
    if |s| > 1 {
      var t := s[..|s| - 1];
      assert t[0] == s[0];
      LeadingDigitPositive(t);
    }
  }

  /** Splitting off the last decimal digit. */
  lemma LastDigit(x: int, d: int)
    requires 0 <= d <= 9
    ensures (10 * x + d) / 10 == x && (10 * x + d) % 10 == d
  {
  }

  /** Reading back is the inverse of rendering: the one canonical digit
      string that denotes n is the one `str(n)` produces. */
  lemma {:induction false} CanonicalIsNatToDecimal(s: string)
    requires Canonical(s)
    ensures 0 <= DecimalValue(s)
    ensures NatToDecimal(DecimalValue(s)) == s
  {
    var t := s[..|s| - 1];
    var c := s[|s| - 1];
    if |t| == 0 {
      assert s == [c];
      assert DigitChar(DigitValue(c)) == c;
    } else {
      assert t[0] == s[0];
      LeadingDigitPositive(t);
      CanonicalIsNatToDecimal(t);
      var high := DecimalValue(t);
      var d := DigitValue(c);
      var n := DecimalValue(s);
      assert n == 10 * high + d;
      LastDigit(high, d);
      assert NatToDecimal(n) == NatToDecimal(high) + [DigitChar(d)];
      assert DigitChar(d) == c;
      assert s == t + [c];
    }
  }
}
