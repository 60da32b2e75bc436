/**
 Decimal text of integers. Both halves of the system turn integers into
 text: JavaScript's `toString` (and string concatenation with a number)
 when a URL, a data name or a command argument is built, and `parseInt`
 when the server reads a query parameter back. This module writes the
 canonical text (no leading zero, no `-0`) and reads it back. It proves
 that `parseInt` reads back what `toString` writes, and that on canonical
 text `toString` writes back what `parseInt` reads.
 */
module Decimal {

  predicate IsDigit(c: char) {
    '0' <= c <= '9'
  }

  predicate AllDigits(s: string) {
    forall i :: 0 <= i < |s| ==> IsDigit(s[i])
  }

  function Digit(d: nat): (c: char)
    requires d < 10
    ensures IsDigit(c)
  {
    (48 + d) as char
  }

  function DigitValue(c: char): (d: nat)
    requires IsDigit(c)
    ensures d < 10
  {
    c as int - 48
  }

  /** The decimal text of `n`: digits only, never empty, and no leading zero unless `n` is zero. */
  function NatToDecimal(n: nat): (r: string)
    ensures |r| > 0 && AllDigits(r)
    ensures r[0] == '0' ==> n == 0 && r == "0"
  {
    if n < 10 then [Digit(n)] else NatToDecimal(n / 10) + [Digit(n % 10)]
  }

  /** The value of a string of digits, most significant digit first. */
  function ParseNat(s: string): nat
    requires AllDigits(s)
  {
    if s == [] then 0 else ParseNat(s[..|s| - 1]) * 10 + DigitValue(s[|s| - 1])
  }

  lemma {:induction false} ParseNatOfDecimal(n: nat)
    ensures ParseNat(NatToDecimal(n)) == n
  {
    if n >= 10 {
      var s := NatToDecimal(n);
      assert s[..|s| - 1] == NatToDecimal(n / 10);
      ParseNatOfDecimal(n / 10);
    }
  }

  /** Digits with no leading zero, except for `0` itself. */
  predicate IsCanonicalNat(s: string) {
    |s| > 0 && AllDigits(s) && (s[0] == '0' ==> |s| == 1)
  }

  /** The integer text `toString` writes: canonical digits, after a minus sign only when they are not `0`. */
  predicate IsCanonicalInt(s: string) {
    if |s| > 0 && s[0] == '-' then IsCanonicalNat(s[1..]) && s[1] != '0' else IsCanonicalNat(s)
  }

  /** The text JavaScript's `toString` gives an integer: a minus sign for negatives, then the digits. */
  function IntToDecimal(i: int): (r: string)
    ensures |r| > 0
    ensures r[0] == '-' <==> i < 0
    ensures IsCanonicalInt(r)
    ensures i >= 0 ==> AllDigits(r) && (r[0] == '0' ==> r == "0")
    ensures i < 0 ==> |r| > 1 && AllDigits(r[1..]) && r[1] != '0'
  {
    if i < 0 then
      var r := "-" + NatToDecimal(-i);
      assert r[1..] == NatToDecimal(-i);
      r
    else NatToDecimal(i)
  }

  /** Canonical integer text: an optional minus sign followed by at least one digit. */
  predicate IsIntText(s: string) {
    if |s| > 0 && s[0] == '-' then |s| > 1 && AllDigits(s[1..]) else |s| > 0 && AllDigits(s)
  }

  /** `parseInt` on canonical integer text. */
  function ParseInt(s: string): int
    requires IsIntText(s)
  {
    if s[0] == '-' then -(ParseNat(s[1..]) as int) else ParseNat(s)
  }

  /** Reading back the text of an integer gives the integer: nothing is lost on the way. */
  lemma ParseIntOfDecimal(i: int)
    ensures IsIntText(IntToDecimal(i))
    ensures ParseInt(IntToDecimal(i)) == i
  {
    if i < 0 {
      assert IntToDecimal(i)[1..] == NatToDecimal(-i);
      ParseNatOfDecimal(-i);
    } else {
      ParseNatOfDecimal(i);
    }
  }

  /** Different integers have different texts. */
  lemma IntToDecimalInjective(a: int, b: int)
    ensures IntToDecimal(a) == IntToDecimal(b) <==> a == b
  {
    if IntToDecimal(a) == IntToDecimal(b) {
      ParseIntOfDecimal(a);
      ParseIntOfDecimal(b);
    }
  }

  /** Digits that do not start with `0` stand for a positive number. */
  lemma {:induction false} ParseNatPositive(s: string)
    requires |s| > 0 && AllDigits(s) && s[0] != '0'
    ensures ParseNat(s) > 0
  {
    if |s| > 1 {
      ParseNatPositive(s[..|s| - 1]);
    }
  }

  /** Writing back the number read from canonical digits gives the same digits. */
  lemma {:induction false} DecimalOfParseNat(s: string)
    requires IsCanonicalNat(s)
    ensures NatToDecimal(ParseNat(s)) == s
  {
    if |s| > 1 {
      var init := s[..|s| - 1];
      ParseNatPositive(init);
      DecimalOfParseNat(init);
      var n := ParseNat(s);
      assert n / 10 == ParseNat(init) && n % 10 == DigitValue(s[|s| - 1]);
      assert s == init + [s[|s| - 1]];
    }
  }

  /** On canonical text, `toString` of what `parseInt` reads is the text itself. */
  lemma DecimalOfParseInt(s: string)
    requires IsCanonicalInt(s)
    ensures IsIntText(s)
    ensures IntToDecimal(ParseInt(s)) == s
  {
    if s[0] == '-' {
      ParseNatPositive(s[1..]);
      DecimalOfParseNat(s[1..]);
      assert s == "-" + s[1..];
    } else {
      DecimalOfParseNat(s);
    }
  }
}
