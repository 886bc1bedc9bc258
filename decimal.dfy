/** Decimal text of integers as Python's str() writes it, and a reader that
    takes such a numeral off the front of a string. */
module Decimal {
  import opened Common

  predicate IsDigit(c: char) {
    '0' <= c <= '9'
  }

  predicate AllDigits(s: string) {
    forall i :: 0 <= i < |s| ==> IsDigit(s[i])
  }

  /** The value of a digit character; other characters are never read as digits. */
  function DigitValue(c: char): (d: nat)
    ensures d < 10
  {
    if IsDigit(c) then c as int - '0' as int else 0
  }

  function DigitChar(d: nat): (c: char)
    requires d < 10
    ensures IsDigit(c) && DigitValue(c) == d
  {
    ('0' as int + d) as char
  }

  /** The digits of n, most significant first, with no leading zero. */
  function NatText(n: nat): (s: string)
    ensures |s| > 0 && IsDigit(s[0])
    ensures (s[0] == '0') == (n == 0)
    ensures n == 0 ==> s == "0"
  {
    if n < 10 then [DigitChar(n)] else NatText(n / 10) + [DigitChar(n % 10)]
  }

  /** The decimal text CPython writes for an int: a minus sign before the digits of a negative number. */
  function IntText(n: int): (s: string)
    ensures |s| > 0 && (s[0] == '-') == (n < 0)
  {
    if n < 0 then "-" + NatText(-n) else NatText(n)
  }

  /** The length of the run of digits at the front of s. */
  function LeadingDigits(s: string): (k: nat)
    ensures k <= |s|
    ensures k < |s| ==> !IsDigit(s[k])
  {
    if |s| > 0 && IsDigit(s[0]) then 1 + LeadingDigits(s[1..]) else 0
  }

  /** The number a run of digits denotes. */
  function DigitsValue(s: string): nat {
    if |s| == 0 then 0 else 10 * DigitsValue(s[..|s| - 1]) + DigitValue(s[|s| - 1])
  }

  /** Reads an optionally negative decimal numeral at the front of s, taking
      every digit there is; gives its value and the unread rest of s. */
  function ReadInt(s: string): (r: Option<(int, string)>)
    ensures r.Some? ==> |r.value.1| < |s|
    ensures r.Some? ==> r.value.1 == [] || !IsDigit(r.value.1[0])
  {
    if |s| > 0 && s[0] == '-' then
      var t := s[1..];
      var k := LeadingDigits(t);
      if k == 0 then None else Some((-(DigitsValue(t[..k]) as int), t[k..]))
    else
      var k := LeadingDigits(s);
      if k == 0 then None else Some((DigitsValue(s[..k]), s[k..]))
  }

  lemma {:induction false} NatTextDigits(n: nat)
    ensures AllDigits(NatText(n))
  {
    if n >= 10 {
      NatTextDigits(n / 10);
    }
  }

  lemma {:induction false} LeadingDigitsOfRun(d: string, rest: string)
    requires AllDigits(d)
    requires rest == [] || !IsDigit(rest[0])
    ensures LeadingDigits(d + rest) == |d|
  {
    if |d| > 0 {
      assert (d + rest)[1..] == d[1..] + rest;
      LeadingDigitsOfRun(d[1..], rest);
    } else {
      assert d + rest == rest;
    }
  }

  lemma {:induction false} NatTextValue(n: nat)
    ensures DigitsValue(NatText(n)) == n
  {
    if n >= 10 {
      var s := NatText(n);
      assert s[..|s| - 1] == NatText(n / 10);
      NatTextValue(n / 10);
    }
  }

  /** ReadInt on a signed numeral whose digit run has length k. */
  lemma ReadIntNegative(s: string, k: nat)
    requires |s| > 0 && s[0] == '-' && LeadingDigits(s[1..]) == k && k > 0
    ensures ReadInt(s) == Some((-(DigitsValue(s[1..][..k]) as int), s[1..][k..]))
  {
  }

  /** ReadInt on an unsigned numeral whose digit run has length k. */
  lemma ReadIntNonNegative(s: string, k: nat)
    requires |s| > 0 && s[0] != '-' && LeadingDigits(s) == k && k > 0
    ensures ReadInt(s) == Some((DigitsValue(s[..k]) as int, s[k..]))
  {
  }

  /** Reading a numeral whose digit run is exactly d. */
  lemma ReadDigits(d: string, rest: string)
    requires |d| > 0 && d[0] != '-' && LeadingDigits(d + rest) == |d|
    ensures ReadInt(d + rest) == Some((DigitsValue(d) as int, rest))
  {
    var s := d + rest;
    assert s[0] == d[0];
    ReadIntNonNegative(s, |d|);
    assert s[..|d|] == d;
    assert s[|d|..] == rest;
  }

  /** Reading a minus sign followed by a numeral whose digit run is exactly d. */
  lemma ReadNegativeDigits(d: string, rest: string)
    requires |d| > 0 && LeadingDigits(d + rest) == |d|
    ensures ReadInt("-" + d + rest) == Some((-(DigitsValue(d) as int), rest))
  {
    var t := d + rest;
    var s := "-" + d + rest;
    assert s[1..] == t;
    ReadIntNegative(s, |d|);
    assert t[..|d|] == d;
    assert t[|d|..] == rest;
  }

  /** Reading back what str() wrote gives the number and leaves the rest,
      whenever the rest does not itself start with a digit. */
  lemma ReadIntText(n: int, rest: string)
    requires rest == [] || !IsDigit(rest[0])
    ensures ReadInt(IntText(n) + rest) == Some((n, rest))
  {
    var m: nat := if n < 0 then -n else n;
    NatTextDigits(m);
    LeadingDigitsOfRun(NatText(m), rest);
    NatTextValue(m);
    if n < 0 {
      ReadNegativeDigits(NatText(m), rest);
    } else {
      ReadDigits(NatText(m), rest);
    }
  }

  /** str() is injective on integers: different numbers never share a text. */
  lemma IntTextInjective(a: int, b: int)
    ensures IntText(a) == IntText(b) <==> a == b
  {
    if IntText(a) == IntText(b) {
      ReadIntText(a, []);
      ReadIntText(b, []);
      assert IntText(a) + [] == IntText(a);
      assert IntText(b) + [] == IntText(b);
    }
  }
}
