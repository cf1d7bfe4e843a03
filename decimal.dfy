/**
 * Decimal text of integers, as a JavaScript template string writes an
 * integral number (`${n}`), and the reading of a leading decimal integer back
 * out of a string.
 */
module Decimal {
  import opened Wrappers

  predicate IsDigit(c: char) {
    '0' <= c <= '9'
  }

  predicate AllDigits(s: string) {
    forall i :: 0 <= i < |s| ==> IsDigit(s[i])
  }

  function DigitChar(d: int): (c: char)
    requires 0 <= d < 10
    ensures IsDigit(c)
  {
    ('0' as int + d) as char
  }

  function DigitValue(c: char): (d: int)
    requires IsDigit(c)
    ensures 0 <= d < 10
  {
    c as int - '0' as int
  }

  /** The decimal digits of n, most significant first, without leading zeros. */
  function NatToString(n: nat): (s: string)
    ensures |s| >= 1 && AllDigits(s)
    decreases n
  {
    if n < 10 then [DigitChar(n)] else NatToString(n / 10) + [DigitChar(n % 10)]
  }

  /** `${n}` for an integral number n. */
  function IntToString(n: int): (s: string)
    ensures |s| >= 1
    ensures n < 0 <==> s[0] == '-'
    ensures n >= 0 ==> AllDigits(s)
    ensures n < 0 ==> AllDigits(s[1..])
  {
    if n < 0 then "-" + NatToString(-n) else NatToString(n)
  }

  /** The number a string of digits denotes. */
  function DigitsValue(s: string): nat
    requires AllDigits(s)
  {
    if s == [] then 0 else DigitsValue(s[..|s| - 1]) * 10 + DigitValue(s[|s| - 1])
  }

  /** The length of the run of digits at the start of s. */
  function DigitRun(s: string): (k: nat)
    ensures k <= |s| && AllDigits(s[..k])
    ensures k < |s| ==> !IsDigit(s[k])
  {
    if s != [] && IsDigit(s[0]) then
      var k := 1 + DigitRun(s[1..]);
      assert s[..k] == [s[0]] + s[1..][..k - 1];
      k
    else 0
  }

  /**
   * The integer written at the start of s, an optional minus sign followed
   * by the longest run of digits, with the number of characters it takes.
   */
  function ParseLeadingInt(s: string): (r: Option<(int, nat)>)
    ensures r.Some? ==> r.value.1 <= |s|
  {
    if s != [] && s[0] == '-' then
      var k := DigitRun(s[1..]);
      var v: int := DigitsValue(s[1..][..k]);
      if k == 0 then None else Some((-v, k + 1))
    else
      var k := DigitRun(s);
      if k == 0 then None else Some((DigitsValue(s[..k]), k))
  }

  lemma {:induction false} NatToStringValue(n: nat)
    ensures DigitsValue(NatToString(n)) == n
    decreases n
  {
    var s := NatToString(n);
    if n >= 10 {
      NatToStringValue(n / 10);
      assert s[..|s| - 1] == NatToString(n / 10);
    }
  }

  lemma {:induction false} DigitRunOf(a: string, b: string)
    requires AllDigits(a)
    requires b == [] || !IsDigit(b[0])
    ensures DigitRun(a + b) == |a|
  {
    if a != [] {
      assert (a + b)[1..] == a[1..] + b;
      DigitRunOf(a[1..], b);
    }
  }

  /** The digits of n followed by a non-digit read back as n. */
  lemma ParseNatToString(n: nat, rest: string)
    requires rest == [] || !IsDigit(rest[0])
    ensures ParseLeadingInt(NatToString(n) + rest) == Some((n, |NatToString(n)|))
  {
    var digits := NatToString(n);
    var s := digits + rest;
    assert s[0] == digits[0];
    DigitRunOf(digits, rest);
    assert s[..|digits|] == digits;
    NatToStringValue(n);
  }

  /** A minus sign and the digits of m followed by a non-digit read back as -m. */
  lemma ParseNegative(m: nat, rest: string)
    requires m > 0
    requires rest == [] || !IsDigit(rest[0])
    ensures ParseLeadingInt("-" + NatToString(m) + rest) == Some((0 - m as int, 1 + |NatToString(m)|))
  {
    var digits := NatToString(m);
    var s := "-" + digits + rest;
    assert s[0] == '-';
    assert s[1..] == digits + rest;
    DigitRunOf(digits, rest);
    assert s[1..][..|digits|] == digits;
    NatToStringValue(m);
  }

  /**
   * The decimal text of n followed by anything that does not start with a
   * digit reads back as n, consuming exactly the decimal text.
   */
  lemma ParseIntToString(n: int, rest: string)
    requires rest == [] || !IsDigit(rest[0])
    ensures ParseLeadingInt(IntToString(n) + rest) == Some((n, |IntToString(n)|))
  {
    if n < 0 {
      ParseNegative(-n, rest);
    } else {
      ParseNatToString(n, rest);
    }
  }
}
