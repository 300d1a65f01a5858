/** Decimal text: Python's str() of an integer and int() of a run of ASCII digits. */
module Decimal {
  import opened Wrappers

  predicate IsDigit(c: char) { '0' <= c <= '9' }

  predicate AllDigits(s: string) { forall i :: 0 <= i < |s| ==> IsDigit(s[i]) }

  function DigitValue(c: char): (d: nat)
    requires IsDigit(c)
    ensures d < 10
  {
    (c as int) - ('0' as int)
  }

  function DigitChar(d: nat): (c: char)
    requires d < 10
    ensures IsDigit(c) && DigitValue(c) == d
  {
    (('0' as int) + d) as char
  }

  /** str(n) for a natural number: the shortest decimal spelling. */
  function NatToString(n: nat): (s: string)
    ensures |s| >= 1 && AllDigits(s)
    ensures |s| > 1 ==> s[0] != '0'
    decreases n
  {
    if n < 10 then [DigitChar(n)] else NatToString(n / 10) + [DigitChar(n % 10)]
  }


  /** The value of a digit string read as a decimal number (leading zeros allowed, as int() does). */
  function DigitsValue(ds: string): nat
    requires AllDigits(ds)
  {
    if ds == [] then 0 else DigitsValue(ds[..|ds| - 1]) * 10 + DigitValue(ds[|ds| - 1])
  }

  lemma {:induction false} DigitsValueOfNatToString(n: nat)
    ensures DigitsValue(NatToString(n)) == n
    decreases n
  {
    if n >= 10 {
      var s := NatToString(n);
      assert s[..|s| - 1] == NatToString(n / 10);
      DigitsValueOfNatToString(n / 10);
    }
  }

  /** The longest prefix of s made of digits. */
  function LeadingDigits(s: string): (ds: string)
    ensures |ds| <= |s| && ds == s[..|ds|]
    ensures AllDigits(ds)
    ensures |ds| < |s| ==> !IsDigit(s[|ds|])
  {
    if s == [] || !IsDigit(s[0]) then [] else [s[0]] + LeadingDigits(s[1..])
  }

  /** The number a string starts with, or None when it does not start with a digit. */
  function ParseLeadingNat(s: string): (r: Option<nat>)
    ensures r.None? <==> (s == [] || !IsDigit(s[0]))
  {
    var ds := LeadingDigits(s);
    if ds == [] then None else Some(DigitsValue(ds))
  }

  lemma LeadingDigitsOfDigitsThenRest(ds: string, rest: string)
    requires AllDigits(ds)
    requires rest == [] || !IsDigit(rest[0])
    ensures LeadingDigits(ds + rest) == ds
  {
    var s := ds + rest;
    var ld := LeadingDigits(s);
    assert ld == s[..|ds|] == ds;
  }

  /** Reading back what str() wrote: int() of the leading number recovers n. */
  lemma ParseNatToString(n: nat, rest: string)
    requires rest == [] || !IsDigit(rest[0])
    ensures ParseLeadingNat(NatToString(n) + rest) == Some(n)
  {
    LeadingDigitsOfDigitsThenRest(NatToString(n), rest);
    DigitsValueOfNatToString(n);
  }

  /** str(x) for any integer: a minus sign before the digits of a negative number. */
  function IntToString(x: int): (s: string)
    ensures |s| >= 1
    ensures (s[0] == '-') <==> x < 0
    ensures x >= 0 ==> AllDigits(s)
  {
    if x < 0 then "-" + NatToString(-x) else NatToString(x)
  }

  /** int() reads back what str() wrote: the digits (after the sign of a negative number) give |x|. */
  lemma ParseIntToString(x: int, rest: string)
    requires rest == [] || !IsDigit(rest[0])
    ensures x >= 0 ==> ParseLeadingNat(IntToString(x) + rest) == Some(x)
    ensures x < 0 ==>
      (IntToString(x) + rest)[0] == '-' && ParseLeadingNat((IntToString(x) + rest)[1..]) == Some(-x)
  {
    if x < 0 {
      ParseNegative(x, rest);
    } else {
      ParseNatToString(x, rest);
    }
  }

  lemma ParseNegative(x: int, rest: string)
    requires x < 0 && (rest == [] || !IsDigit(rest[0]))
    ensures (IntToString(x) + rest)[1..] == NatToString(-x) + rest
    ensures ParseLeadingNat(NatToString(-x) + rest) == Some(-x)
  {
    var ds := NatToString(-x);
    assert IntToString(x) + rest == ['-'] + (ds + rest);
    ParseNatToString(-x, rest);
  }
}
