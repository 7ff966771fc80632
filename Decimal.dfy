/** Decimal numerals: the "%u" conversion of sprintf and the digit scan of strtoul. */
module Decimal {
  predicate IsDigit(c: char)
  {
    '0' <= c <= '9'
  }

  function DigitOf(c: char): (d: nat)
    requires IsDigit(c)
    ensures d < 10
  {
    assert '0' as int <= c as int;
    c as int - '0' as int
  }

  function DigitChar(d: nat): (c: char)
    requires d < 10
    ensures IsDigit(c) && DigitOf(c) == d
  {
    (d + '0' as int) as char
  }

  /** The "%u" rendering of n: its decimal digits, most significant first. */
  function NatToString(n: nat): (s: string)
    ensures |s| >= 1 && forall i :: 0 <= i < |s| ==> IsDigit(s[i])
    ensures n < 10 <==> |s| == 1
  {
    if n < 10 then [DigitChar(n)] else NatToString(n / 10) + [DigitChar(n % 10)]
  }

  /** The number a string of decimal digits denotes. */
  function DigitsValue(s: string): nat
    requires forall i :: 0 <= i < |s| ==> IsDigit(s[i])
  {
    if s == [] then 0 else DigitsValue(s[..|s| - 1]) * 10 + DigitOf(s[|s| - 1])
  }

  /** Reading back a rendered number yields the number. */
  lemma {:induction false} NatToStringValue(n: nat)
    ensures DigitsValue(NatToString(n)) == n
  {
    if n >= 10 {
      var s := NatToString(n);
      NatToStringValue(n / 10);
      assert s[..|s| - 1] == NatToString(n / 10);
    }
  }

  /** Distinct numbers have distinct renderings. */
  lemma NatToStringInjective(m: nat, n: nat)
    requires NatToString(m) == NatToString(n)
    ensures m == n
  {
    NatToStringValue(m);
    NatToStringValue(n);
  }

  /** The white space isspace accepts in the C locale: space, \t, \n, \v, \f, \r. */
  predicate IsSpace(c: char)
  {
    c == ' ' || 9 <= c as int <= 13
  }

  /** The first index at or after i that is not white space. */
  function SpaceEnd(s: string, i: nat): (r: nat)
    requires i <= |s|
    ensures i <= r <= |s|
    decreases |s| - i
  {
    if i < |s| && IsSpace(s[i]) then SpaceEnd(s, i + 1) else i
  }

  /** The end of the run of digits starting at i. */
  function DigitEnd(s: string, i: nat): (r: nat)
    requires i <= |s|
    ensures i <= r <= |s| && forall k :: i <= k < r ==> IsDigit(s[k])
    decreases |s| - i
  {
    if i < |s| && IsDigit(s[i]) then DigitEnd(s, i + 1) else i
  }

  /** ULONG_MAX of a platform whose unsigned long has 64 bits. */
  const ULongMax: nat := 0xFFFF_FFFF_FFFF_FFFF

  /** strtoul(s, &end, 10): the value and the index end points at. White
      space is skipped, then an optional sign, then the longest run of
      digits. Without digits the value is 0 and end is s itself; a
      magnitude above ULONG_MAX gives ULONG_MAX; a '-' negates modulo
      ULONG_MAX + 1. */
  function Strtoul(s: string): (r: (nat, nat))
    ensures r.0 <= ULongMax && r.1 <= |s|
  {
    var k := SpaceEnd(s, 0);
    var d := if k < |s| && (s[k] == '+' || s[k] == '-') then k + 1 else k;
    var e := DigitEnd(s, d);
    if e == d then (0, 0)
    else
      var v := DigitsValue(s[d..e]);
      if v > ULongMax then (ULongMax, e)
      else if s[k] == '-' && v > 0 then (ULongMax + 1 - v, e)
      else (v, e)
  }

  lemma {:induction false} DigitRun(s: string, i: nat, m: nat)
    requires i + m <= |s| && forall k :: i <= k < i + m ==> IsDigit(s[k])
    requires i + m < |s| ==> !IsDigit(s[i + m])
    ensures DigitEnd(s, i) == i + m
    decreases m
  {
    if m > 0 {
      DigitRun(s, i + 1, m - 1);
    }
  }

  /** strtoul reads back a rendered number that ends the string or is
      followed by a character other than a digit. */
  lemma StrtoulRendered(s: string, n: nat)
    requires n <= ULongMax
    requires |NatToString(n)| <= |s| && s[..|NatToString(n)|] == NatToString(n)
    requires |NatToString(n)| < |s| ==> !IsDigit(s[|NatToString(n)|])
    ensures Strtoul(s) == (n, |NatToString(n)|)
  {
    var t := NatToString(n);
    assert s[0] == t[0];
    assert forall k :: 0 <= k < |t| ==> s[k] == t[k];
    DigitRun(s, 0, |t|);
    assert s[0..|t|] == t;
    NatToStringValue(n);
  }
}
