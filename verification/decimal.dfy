/** Decimal digit strings: `str(n)` for integers and `int(s)` for runs of digits. */
module Decimal {
  import opened Wrappers
  import opened Chars

  function DigitChar(d: nat): (c: char)
    requires d < 10
    ensures IsDigit(c)
  {
    ('0' as int + d) as char
  }

  function DigitValue(c: char): (d: nat)
    requires IsDigit(c)
    ensures d < 10
  {
    c as int - '0' as int
  }

  predicate AllDigits(s: string) {
    forall i :: 0 <= i < |s| ==> IsDigit(s[i])
  }

  /** `int(s)` for a string of ASCII digits (leading zeros allowed). */
  function ValueOf(s: string): nat
    requires AllDigits(s)
  {
    if s == [] then 0 else ValueOf(s[..|s| - 1]) * 10 + DigitValue(s[|s| - 1])
  }

  /** `str(n)` for a non-negative integer: non-empty, all digits, no leading zero. */
  function NatToString(n: nat): (s: string)
    ensures |s| > 0 && AllDigits(s)
    ensures s[0] == '0' ==> n == 0 && s == "0"
  {
    if n < 10 then [DigitChar(n)] else NatToString(n / 10) + [DigitChar(n % 10)]
  }

  /** A digit run without a leading zero, unless it is "0" itself. */
  predicate NatText(s: string) {
    |s| > 0 && AllDigits(s) && (s[0] == '0' ==> s == "0")
  }

  /** The form `str` gives an integer: a `NatText`, or a minus sign before a
      `NatText` other than "0". */
  predicate IntText(s: string) {
    || NatText(s)
    || (|s| > 1 && s[0] == '-' && NatText(s[1..]) && s[1] != '0')
  }

  /** `str(i)` for any integer. */
  function IntToString(i: int): (s: string)
    ensures IntText(s)
    ensures i >= 0 <==> IsDigit(s[0])
  {
    if i < 0 then "-" + NatToString(-i) else NatToString(i)
  }

  /** Reads back a string written by `IntToString`: an optional minus sign and a non-empty digit run. */
  function ParseInt(s: string): Option<int> {
    if |s| > 1 && s[0] == '-' && AllDigits(s[1..]) then Some(-(ValueOf(s[1..]) as int))
    else if |s| > 0 && AllDigits(s) then Some(ValueOf(s))
    else None
  }

  lemma {:induction false} ValueOfNatToString(n: nat)
    ensures ValueOf(NatToString(n)) == n
  {
    if n >= 10 {
      var s := NatToString(n);
      assert s[..|s| - 1] == NatToString(n / 10);
      ValueOfNatToString(n / 10);
    }
  }

  /** A digit run with a non-zero lead reads as at least 1. */
  lemma {:induction false} LeadingDigitPositive(s: string)
    requires |s| > 0 && AllDigits(s) && s[0] != '0'
    ensures ValueOf(s) >= 1
  {
    if |s| > 1 {
      var p := s[..|s| - 1];
      assert p[0] == s[0];
      LeadingDigitPositive(p);
    }
  }

  /** A `NatText` is the only text `str` gives for its value. */
  lemma {:induction false} NatTextUnique(s: string)
    requires NatText(s)
    ensures NatToString(ValueOf(s)) == s
  {
    var p, d := s[..|s| - 1], DigitValue(s[|s| - 1]);
    assert DigitChar(d) == s[|s| - 1];
    if |s| > 1 {
      assert p[0] == s[0] && s[0] != '0';
      LeadingDigitPositive(p);
      NatTextUnique(p);
      assert s == p + [s[|s| - 1]];
    } else {
      assert s == [s[0]];
    }
  }

  /** An `IntText` that reads as `i` is exactly `str(i)`: the canonical form and
      the value together pin the text. */
  lemma IntTextUnique(s: string, i: int)
    requires IntText(s) && ParseInt(s) == Some(i)
    ensures s == IntToString(i)
  {
    if NatText(s) {
      assert !(s[0] == '-');
      NatTextUnique(s);
    } else {
      var t := s[1..];
      LeadingDigitPositive(t);
      NatTextUnique(t);
      assert s == "-" + t;
    }
  }

  lemma ParseNegative(n: nat)
    requires n > 0
    ensures ParseInt("-" + NatToString(n)) == Some(-(n as int))
  {
    var t := NatToString(n);
    var s := "-" + t;
    assert s[0] == '-' && s[1..] == t;
    ValueOfNatToString(n);
  }

  /** `str` and `int` are inverse on integers. */
  lemma ParseIntToString(i: int)
    ensures ParseInt(IntToString(i)) == Some(i)
  {
    if i < 0 {
      ParseNegative(-i);
    } else {
      ValueOfNatToString(i);
    }
  }
}
