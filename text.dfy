// Decimal text: the `%d` rendering of counters used in generated names, and
// the C library `atoi` that reads a number back from register names.

module Text {

  predicate IsDigit(c: char) { '0' <= c <= '9' }

  /** The white-space characters `atoi` skips (C `isspace` in the C locale). */
  predicate IsSpace(c: char) { c == ' ' || c == '\t' || c == '\n' || c == '\U{B}' || c == '\U{C}' || c == '\r' }

  predicate AllDigits(s: string) { forall i :: 0 <= i < |s| ==> IsDigit(s[i]) }

  function DigitChar(d: nat): (c: char)
    requires d < 10
    ensures IsDigit(c) && (c as int) - ('0' as int) == d
  {
    (('0' as int) + d) as char
  }

  /** `%d` applied to a non-negative number: its decimal digits, without leading zeros. */
  function NatToString(n: nat): (s: string)
    decreases n
  {
    if n < 10 then [DigitChar(n)] else NatToString(n / 10) + [DigitChar(n % 10)]
  }

  /** The value of a string of decimal digits, read most significant first. */
  function DigitsValue(s: string): nat
    requires AllDigits(s)
  {
    if s == [] then 0
    else DigitsValue(s[..|s| - 1]) * 10 + ((s[|s| - 1] as int) - ('0' as int))
  }

  /** Length of the run of digits that starts `s`. */
  function DigitRun(s: string): (k: nat)
    ensures k <= |s| && AllDigits(s[..k])
    ensures k < |s| ==> !IsDigit(s[k])
  {
    if s != [] && IsDigit(s[0]) then
      var k := 1 + DigitRun(s[1..]);
      assert s[..k] == [s[0]] + s[1..][..k - 1];
      k
    else 0
  }

  /** The digits of `s` past any leading white space and an optional sign, as `atoi` reads them. */
  function AtoiMagnitude(s: string): nat
  {
    DigitsValue(s[..DigitRun(s)])
  }

  /**
   * C `atoi`: skip leading white space, accept one optional sign, then read
   * the longest run of digits; text with no digits reads as 0. Overflow
   * (undefined in C) is not modelled: the value is unbounded.
   */
  function Atoi(s: string): int
    decreases |s|
  {
    if s == [] then 0
    else if IsSpace(s[0]) then Atoi(s[1..])
    else if s[0] == '-' then -(AtoiMagnitude(s[1..]) as int)
    else if s[0] == '+' then AtoiMagnitude(s[1..])
    else AtoiMagnitude(s)
  }

  lemma {:induction false} NatToStringDigits(n: nat)
    ensures |NatToString(n)| > 0 && AllDigits(NatToString(n))
    ensures DigitsValue(NatToString(n)) == n
    decreases n
  {
    if n >= 10 {
      NatToStringDigits(n / 10);
      var s := NatToString(n);
      assert s[..|s| - 1] == NatToString(n / 10);
    }
  }

  /** `atoi` reads back exactly the number that `%d` printed. */
  lemma AtoiNatToString(n: nat)
    ensures Atoi(NatToString(n)) == n
  {
    NatToStringDigits(n);
    var s := NatToString(n);
    AllDigitsRun(s);
    assert s[..|s|] == s;
  }

  lemma {:induction false} AllDigitsRun(s: string)
    requires AllDigits(s)
    ensures DigitRun(s) == |s|
    decreases |s|
  {
    if s != [] {
      AllDigitsRun(s[1..]);
    }
  }

  /** Different numbers print differently. */
  lemma NatToStringInjective(m: nat, n: nat)
    ensures NatToString(m) == NatToString(n) <==> m == n
  {
    if NatToString(m) == NatToString(n) {
      NatToStringDigits(m);
      NatToStringDigits(n);
    }
  }
}
