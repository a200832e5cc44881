/** Decimal digit strings: the text `Number.prototype.toString` gives a
    safe integer (one of magnitude below 2^53, which JavaScript holds exactly
    and prints without an exponent), and the value a string of ASCII digits
    denotes. Shared by the literal serialiser and the code-page index
    validator. */
module Decimal {

  predicate IsDigit(c: char) {
    '0' <= c <= '9'
  }

  predicate AllDigits(s: string) {
    forall i :: 0 <= i < |s| ==> IsDigit(s[i])
  }

  /** Canonical decimal text: at least one digit and no leading zero,
      except for the single digit "0". */
  predicate Canonical(s: string) {
    && |s| >= 1
    && AllDigits(s)
    && (|s| > 1 ==> s[0] != '0')
  }

  function DigitValue(c: char): nat
    requires IsDigit(c)
  {
    c as int - '0' as int
  }

  function DigitChar(d: nat): (c: char)
    requires d < 10
    ensures IsDigit(c) && DigitValue(c) == d
  {
    ('0' as int + d) as char
  }

  function Pow10(k: nat): (p: nat)
    ensures p >= 1
  {
    if k == 0 then 1 else 10 * Pow10(k - 1)
  }

  /** The number a digit string denotes, most significant digit first. */
  function Value(s: string): nat
    requires AllDigits(s)
  {
    if |s| == 0 then 0 else Value(s[..|s| - 1]) * 10 + DigitValue(s[|s| - 1])
  }

  /** The decimal text of a natural number: all its digits, most
      significant first, with no leading zero. For a safe integer this is
      what JavaScript prints; larger numbers are printed here in full. */
  function FromNat(n: nat): (s: string)
    ensures Canonical(s)
    ensures Value(s) == n
  {
    if n < 10 then [DigitChar(n)]
    else
      var s := FromNat(n / 10) + [DigitChar(n % 10)];
      assert s[..|s| - 1] == FromNat(n / 10);
      s
  }

  /** The decimal text of an integer: a `-` sign, then the digits of its
      magnitude, when it is negative. */
  function FromInt(i: int): (s: string)
    ensures |s| >= 1
    ensures s[0] == '-' <==> i < 0
    ensures i < 0 ==> Canonical(s[1..]) && Value(s[1..]) == -i
    ensures i >= 0 ==> Canonical(s) && Value(s) == i
  {
    if i < 0 then "-" + FromNat(-i) else FromNat(i)
  }

  lemma {:induction false} ValueBelowPow10(s: string)
    requires AllDigits(s)
    ensures Value(s) < Pow10(|s|)
  {
    if |s| > 0 {
      ValueBelowPow10(s[..|s| - 1]);
    }
  }

  /** A canonical string of k > 1 digits denotes at least 10^(k-1). */
  lemma {:induction false} CanonicalAtLeast(s: string)
    requires Canonical(s)
    ensures |s| > 1 ==> Value(s) >= Pow10(|s| - 1)
    ensures s[0] != '0' ==> Value(s) >= 1
  {
    if |s| > 1 {
      var p := s[..|s| - 1];
      assert p[0] == s[0];
      CanonicalAtLeast(p);
    }
  }

  /** Canonical decimal text is unique: it is the text FromNat prints. */
  lemma {:induction false} CanonicalIsFromNat(s: string)
    requires Canonical(s)
    ensures FromNat(Value(s)) == s
  {
    if |s| > 1 {
      var p := s[..|s| - 1];
      assert p[0] == s[0];
      CanonicalAtLeast(p);
      CanonicalIsFromNat(p);
      assert s == p + [s[|s| - 1]];
    }
  }

  /** Distinct integers print as distinct text. */
  lemma FromIntInjective(a: int, b: int)
    requires FromInt(a) == FromInt(b)
    ensures a == b
  {
    var s := FromInt(a);
    if a < 0 {
      assert Value(s[1..]) == -a == -b;
    } else {
      assert Value(s) == a == b;
    }
  }

  lemma Value1(s: string)
    requires |s| == 1 && AllDigits(s)
    ensures Value(s) == DigitValue(s[0])
  {
    assert s[..0] == [];
  }

  lemma Value2(s: string)
    requires |s| == 2 && AllDigits(s)
    ensures Value(s) == 10 * DigitValue(s[0]) + DigitValue(s[1])
  {
    Value1(s[..1]);
  }

  lemma Value3(s: string)
    requires |s| == 3 && AllDigits(s)
    ensures Value(s) == 100 * DigitValue(s[0]) + 10 * DigitValue(s[1]) + DigitValue(s[2])
  {
    Value2(s[..2]);
  }
}
