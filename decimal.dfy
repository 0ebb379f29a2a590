/** Decimal and hexadecimal digits: how integers are written as text and read back. */
module Decimal {
  import opened Wrappers

  predicate IsDecimalDigit(c: char)
  {
    '0' <= c <= '9'
  }

  /** The value of `c` as a digit in `radix` (10 or 16, either letter case), None when it is not one. */
  function DigitOf(c: char, radix: nat): (d: Option<nat>)
    requires radix == 10 || radix == 16
    ensures d.Some? ==> d.value < radix
  {
    if '0' <= c <= '9' then Some((c as int) - ('0' as int))
    else if radix == 16 && 'a' <= c <= 'f' then Some((c as int) - ('a' as int) + 10)
    else if radix == 16 && 'A' <= c <= 'F' then Some((c as int) - ('A' as int) + 10)
    else None
  }

  function DigitChar(d: nat): (c: char)
    requires d < 10
    ensures IsDecimalDigit(c) && (c as int) - ('0' as int) == d
  {
    (('0' as int) + d) as char
  }

  /** The decimal numeral of `n`: digits only, at least one, no leading zero. */
  function NatToString(n: nat): (s: string)
    ensures |s| > 0
    ensures forall i :: 0 <= i < |s| ==> IsDecimalDigit(s[i])
    ensures s[0] == '0' ==> n == 0 && |s| == 1
    decreases n
  {
    if n < 10 then [DigitChar(n)] else NatToString(n / 10) + [DigitChar(n % 10)]
  }

  /** `String(n)` / `str(n)` / `n.toString()` for an integer: a minus sign, then the numeral. */
  function IntToString(n: int): (s: string)
    ensures |s| > 0
  {
    if n < 0 then "-" + NatToString(-n) else NatToString(n)
  }

  /** The digit values of the longest prefix of `s` made of `radix` digits (the part parseInt reads). */
  function LeadingDigits(s: string, radix: nat): (ds: seq<nat>)
    requires radix == 10 || radix == 16
    ensures |ds| <= |s|
  {
    if |s| == 0 || DigitOf(s[0], radix).None? then [] else [DigitOf(s[0], radix).value] + LeadingDigits(s[1..], radix)
  }

  /** The digits read are the values of the first characters of `s`, and the scan stops at the first non-digit. */
  lemma {:induction false} LeadingDigitsLongest(s: string, radix: nat)
    requires radix == 10 || radix == 16
    ensures forall i :: 0 <= i < |LeadingDigits(s, radix)| ==> DigitOf(s[i], radix) == Some(LeadingDigits(s, radix)[i])
    ensures |LeadingDigits(s, radix)| < |s| ==> DigitOf(s[|LeadingDigits(s, radix)|], radix).None?
  {
    if |s| > 0 && DigitOf(s[0], radix).Some? {
      LeadingDigitsLongest(s[1..], radix);
      var ds := LeadingDigits(s, radix);
      assert ds == [DigitOf(s[0], radix).value] + LeadingDigits(s[1..], radix);
      forall i | 0 <= i < |ds| ensures DigitOf(s[i], radix) == Some(ds[i]) {
        if i > 0 { assert s[i] == s[1..][i - 1]; }
      }
    }
  }

  /** The number a digit sequence denotes, most significant digit first. */
  function ValueOf(ds: seq<nat>, radix: nat): nat
  {
    if |ds| == 0 then 0 else ValueOf(ds[..|ds| - 1], radix) * radix + ds[|ds| - 1]
  }

  function DecimalValue(c: char): nat
    requires IsDecimalDigit(c)
  {
    (c as int) - ('0' as int)
  }

  /** The digit values of a string of decimal digits. */
  function DecimalDigits(s: string): (ds: seq<nat>)
    requires forall i :: 0 <= i < |s| ==> IsDecimalDigit(s[i])
    ensures |ds| == |s|
  {
    seq(|s|, i requires 0 <= i < |s| => DecimalValue(s[i]))
  }

  /** On a decimal numeral, parseInt's digit scan reads the whole string. */
  lemma {:induction false} LeadingDigitsOfNumeral(s: string)
    requires forall i :: 0 <= i < |s| ==> IsDecimalDigit(s[i])
    ensures LeadingDigits(s, 10) == DecimalDigits(s)
  {
    if |s| > 0 {
      LeadingDigitsOfNumeral(s[1..]);
      assert DecimalDigits(s) == [DecimalDigits(s)[0]] + DecimalDigits(s[1..]);
    }
  }

  /** Reading the numeral of `n` gives `n` back. */
  lemma {:induction false} ValueOfNumeral(n: nat)
    ensures ValueOf(DecimalDigits(NatToString(n)), 10) == n
    decreases n
  {
    var s := NatToString(n);
    var ds := DecimalDigits(s);
    if n < 10 {
      assert ds == [n];
      assert ds[..0] == [];
    } else {
      var p := NatToString(n / 10);
      assert s == p + [DigitChar(n % 10)];
      assert ds[..|ds| - 1] == DecimalDigits(p);
      assert ds[|ds| - 1] == n % 10;
      ValueOfNumeral(n / 10);
    }
  }

  /** The numeral decides the number: different naturals are written differently. */
  lemma NatToStringInjective(a: nat, b: nat)
    requires NatToString(a) == NatToString(b)
    ensures a == b
  {
    ValueOfNumeral(a);
    ValueOfNumeral(b);
  }
}
