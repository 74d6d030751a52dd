/** Decimal printing of naturals, and what it means to read one back. */
module Decimal {

  predicate IsDigit(c: char) {
    '0' <= c <= '9'
  }

  function DigitChar(d: nat): (c: char)
    requires d < 10
    ensures IsDigit(c)
  {
    '0' + d as char
  }

  function DigitValue(c: char): nat
    requires IsDigit(c)
  {
    (c - '0') as nat
  }

  function Digits(n: nat): string {
    if n < 10 then [DigitChar(n)] else Digits(n / 10) + [DigitChar(n % 10)]
  }

  predicate AllDigits(s: string) {
    forall i :: 0 <= i < |s| ==> IsDigit(s[i])
  }

  function ValueOf(s: string): nat
    requires AllDigits(s)
  {
    if s == "" then 0 else 10 * ValueOf(s[..|s| - 1]) + DigitValue(s[|s| - 1])
  }

  /** Nonempty, digits only, no superfluous leading zero. */
  predicate Canonical(s: string) {
    s != "" && AllDigits(s) && (|s| > 1 ==> s[0] != '0')
  }

  lemma {:induction false} DigitsAreCanonical(n: nat)
    ensures Canonical(Digits(n)) && ValueOf(Digits(n)) == n
    ensures n > 0 ==> Digits(n)[0] != '0'
  {
    if n >= 10 {
      DigitsAreCanonical(n / 10);
      var s := Digits(n);
      assert s[..|s| - 1] == Digits(n / 10);
    }
  }

  lemma {:induction false} LeadingDigitIsPositive(s: string)
    requires AllDigits(s) && s != "" && s[0] != '0'
    ensures ValueOf(s) > 0
  {
    if |s| > 1 { LeadingDigitIsPositive(s[..|s| - 1]); }
  }

  lemma {:induction false} CanonicalIsDigits(s: string)
    requires Canonical(s)
    ensures Digits(ValueOf(s)) == s
  {
    if |s| == 1 {
      assert ValueOf(s[..0]) == 0;
      assert s == [s[0]];
    } else {
      var front := s[..|s| - 1];
      CanonicalIsDigits(front);
      LeadingDigitIsPositive(front);
      assert s == front + [s[|s| - 1]];
    }
  }

  lemma DigitsAreInjective(a: nat, b: nat)
    requires Digits(a) == Digits(b)
    ensures a == b
  {
    DigitsAreCanonical(a);
    DigitsAreCanonical(b);
  }
}
