/** The JavaScript string operations the test harness relies on:
    `includes`, `toLowerCase` and the rendering of numbers in template
    literals. */
module Text {

  /** `t` occurs in `s` (JavaScript `s.includes(t)`). */
  predicate Contains(s: string, t: string) {
    exists i :: 0 <= i <= |s| && t <= s[i..]
  }

  /** Whatever contains `p + t` contains `t`. */
  lemma ContainsSuffix(s: string, p: string, t: string)
    requires Contains(s, p + t)
    ensures Contains(s, t)
  {
    var i :| 0 <= i <= |s| && p + t <= s[i..];
    assert t <= s[i + |p|..] by {
      assert forall k :: 0 <= k < |t| ==> t[k] == (p + t)[|p| + k] == s[i..][|p| + k];
    }
  }

  /** A string contains each of its infixes. */
  lemma ContainsInfix(a: string, t: string, b: string)
    ensures Contains(a + t + b, t)
  {
    var s := a + t + b;
    assert t <= s[|a|..] by {
      assert forall k :: 0 <= k < |t| ==> s[|a|..][k] == t[k];
    }
  }

  /** ASCII upper-case letters mapped to lower case, everything else kept. */
  function LowerChar(c: char): (d: char)
    ensures 'A' <= c <= 'Z' ==> 'a' <= d <= 'z' && d as int - c as int == 32
    ensures !('A' <= c <= 'Z') ==> d == c
  {
    if 'A' <= c <= 'Z' then (c as int + 32) as char else c
  }

  /** JavaScript `toLowerCase`, restricted to ASCII letters. */
  function ToLower(s: string): (r: string)
    ensures |r| == |s|
    ensures forall i :: 0 <= i < |s| ==> r[i] == LowerChar(s[i])
  {
    if s == [] then [] else [LowerChar(s[0])] + ToLower(s[1..])
  }

  /** `a.toLowerCase() === b.toLowerCase()`. */
  predicate EqualsIgnoringCase(a: string, b: string) {
    ToLower(a) == ToLower(b)
  }

  /** Ignoring case, names differ at most in the case of their letters. */
  lemma {:induction false} EqualsIgnoringCaseIsCaseOnly(a: string, b: string)
    requires EqualsIgnoringCase(a, b)
    ensures |a| == |b|
    ensures forall i :: 0 <= i < |a| && !('A' <= a[i] <= 'Z') && !('a' <= a[i] <= 'z') ==> a[i] == b[i]
  {
    assert |ToLower(a)| == |a| && |ToLower(b)| == |b|;
    forall i | 0 <= i < |a| && !('A' <= a[i] <= 'Z') && !('a' <= a[i] <= 'z')
      ensures a[i] == b[i]
    {
      assert ToLower(a)[i] == LowerChar(a[i]) == a[i];
      assert ToLower(b)[i] == LowerChar(b[i]);
    }
  }

  predicate IsDigit(c: char) {
    '0' <= c <= '9'
  }

  function DigitChar(d: nat): (c: char)
    requires d < 10
    ensures IsDigit(c) && c as int - '0' as int == d
  {
    ('0' as int + d) as char
  }

  /** The decimal text of a natural number, as `${n}` renders it. */
  function NatToDecimal(n: nat): (s: string)
    ensures |s| >= 1
    ensures forall i :: 0 <= i < |s| ==> IsDigit(s[i])
    ensures n >= 10 ==> s[0] != '0'
  {
    if n < 10 then [DigitChar(n)] else NatToDecimal(n / 10) + [DigitChar(n % 10)]
  }

  /** The value of a string of decimal digits. */
  function DecimalValue(s: string): nat
    requires forall i :: 0 <= i < |s| ==> IsDigit(s[i])
  {
    if s == [] then 0
    else
      assert IsDigit(s[|s| - 1]);
      DecimalValue(s[..|s| - 1]) * 10 + (s[|s| - 1] as int - '0' as int)
  }

  /** Rendering a number and reading it back gives the number, so distinct
      numbers render to distinct texts. */
  lemma {:induction false} DecimalRoundTrip(n: nat)
    ensures DecimalValue(NatToDecimal(n)) == n
  {
    if n >= 10 {
      DecimalRoundTrip(n / 10);
      var s := NatToDecimal(n);
      assert s[..|s| - 1] == NatToDecimal(n / 10);
    }
  }

  /** The decimal text of an integer, with a leading '-' when negative. */
  function IntToDecimal(n: int): (s: string)
    ensures n >= 0 ==> s == NatToDecimal(n)
    ensures n < 0 ==> s == "-" + NatToDecimal(-n)
    ensures IsSignedDecimal(s)
    ensures s[0] == '-' <==> n < 0
  {
    if n < 0 then "-" + NatToDecimal(-n) else NatToDecimal(n)
  }

  /** A decimal numeral with an optional leading '-'. */
  predicate IsSignedDecimal(s: string) {
    && |s| >= 1
    && (s[0] == '-' ==> |s| >= 2)
    && (forall i :: 0 < i < |s| ==> IsDigit(s[i]))
    && (s[0] == '-' || IsDigit(s[0]))
  }

  /** The value of a signed decimal numeral. */
  function SignedDecimalValue(s: string): int
    requires IsSignedDecimal(s)
  {
    if s[0] == '-' then
      assert forall i :: 0 <= i < |s| - 1 ==> s[1..][i] == s[i + 1];
      -(DecimalValue(s[1..]) as int)
    else DecimalValue(s)
  }

  /** Rendering an integer and reading it back gives the integer, negative
      ones included; the text starts with '-' exactly when it is negative. */
  lemma IntDecimalRoundTrip(n: int)
    ensures IsSignedDecimal(IntToDecimal(n))
    ensures IntToDecimal(n)[0] == '-' <==> n < 0
    ensures SignedDecimalValue(IntToDecimal(n)) == n
  {
    var s := IntToDecimal(n);
    if n < 0 {
      DecimalRoundTrip(-n);
      assert s[1..] == NatToDecimal(-n);
    } else {
      DecimalRoundTrip(n);
    }
  }
}
