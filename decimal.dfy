/**
 * Decimal text of integers, as Java's `Integer.toString` and
 * `Long.toString` produce it (and as `StringBuilder.append(int)` appends
 * it): an optional minus sign followed by digits without leading zeros.
 */
module Decimal {
  import opened JsonValue

  function DigitChar(d: nat): (c: char)
    requires d < 10
    ensures IsDigit(c)
  {
    ('0' as int + d) as char
  }

  function DigitValue(c: char): (d: nat)
    requires IsDigit(c)
    ensures d < 10
  {
    c as int - '0' as int
  }

  predicate AllDigits(s: string) {
    forall i :: 0 <= i < |s| ==> IsDigit(s[i])
  }

  /** The digits of `n`: never empty, and starting with `0` only for zero. */
  function NatText(n: nat): (r: string)
    ensures |r| > 0 && AllDigits(r)
    ensures r[0] == '0' <==> n == 0
    ensures n == 0 ==> r == "0"
  {
    if n < 10 then [DigitChar(n)] else NatText(n / 10) + [DigitChar(n % 10)]
  }

  function DecimalText(x: int): (r: string)
    ensures |r| > 0 && (IsDigit(r[0]) || r[0] == '-')
    ensures r[0] == '-' <==> x < 0
    ensures AllDigits(r[1..])
    ensures r[0] == '0' <==> x == 0
    ensures x == 0 ==> r == "0"
    ensures x < 0 ==> |r| > 1 && r[1] != '0'
  {
    if x < 0 then "-" + NatText(-x) else NatText(x)
  }

  /** Reads a string of digits back as a number. */
  function ParseNat(s: string): nat
    requires AllDigits(s)
  {
    if s == [] then 0 else 10 * ParseNat(s[..|s| - 1]) + DigitValue(s[|s| - 1])
  }

  /** Reads decimal text, with an optional leading minus sign, back as a number. */
  function ParseDecimal(s: string): int
    requires |s| > 0 && AllDigits(s[1..])
    requires s[0] == '-' || IsDigit(s[0])
  {
    if s[0] == '-' then 0 - ParseNat(s[1..]) as int else ParseNat(s)
  }

  lemma {:induction false} ParseNatText(n: nat)
    ensures ParseNat(NatText(n)) == n
  {
    if n >= 10 {
      var r := NatText(n);
      assert r[..|r| - 1] == NatText(n / 10);
      ParseNatText(n / 10);
    }
  }

  /** Decimal text determines the number: parsing it gives the number back. */
  lemma DecimalRoundTrip(x: int)
    ensures ParseDecimal(DecimalText(x)) == x
  {
    if x < 0 {
      assert DecimalText(x)[1..] == NatText(-x);
      ParseNatText(-x);
    } else {
      ParseNatText(x);
    }
  }
}
