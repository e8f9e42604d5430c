/**
 The number-to-string coercion JavaScript applies when a non-negative integer
 below 10^21 (such as the record cap 1000) is concatenated to a string
 (`'&limit=' + limit`), with its inverse. Larger numbers, which JavaScript
 writes in exponent form, are not covered.
 */
module Decimal {

  predicate IsDigit(c: char) {
    '0' <= c <= '9'
  }

  predicate AllDigits(s: string) {
    forall i :: 0 <= i < |s| ==> IsDigit(s[i])
  }

  function DigitChar(d: nat): (c: char)
    requires d < 10
    ensures IsDigit(c)
  {
    "0123456789"[d]
  }

  function DigitValue(c: char): (d: nat)
    requires IsDigit(c)
    ensures d < 10
    ensures DigitChar(d) == c
  {
    (c as int - '0' as int) as nat
  }

  /** The decimal rendering of `n`: digits only, no leading zero. */
  function NumberToString(n: nat): (s: string)
    ensures |s| > 0
    ensures AllDigits(s)
    ensures |s| > 1 ==> s[0] != '0'
    ensures n < 10 <==> |s| == 1
    decreases n
  {
    if n < 10 then [DigitChar(n)]
    else NumberToString(n / 10) + [DigitChar(n % 10)]
  }

  /** Reads a string of decimal digits back as a number. */
  function ParseDecimal(s: string): nat
    requires AllDigits(s)
  {
    if |s| == 0 then 0
    else ParseDecimal(s[..|s| - 1]) * 10 + DigitValue(s[|s| - 1])
  }

  lemma DigitRoundTrip(d: nat)
    requires d < 10
    ensures DigitValue(DigitChar(d)) == d
  {
  }

  /** Parsing the rendering gives back the number. */
  lemma {:induction false} ParseNumberToString(n: nat)
    ensures ParseDecimal(NumberToString(n)) == n
    decreases n
  {
    var s := NumberToString(n);
    if n < 10 {
      DigitRoundTrip(n);
    } else {
      ParseNumberToString(n / 10);
      assert s[..|s| - 1] == NumberToString(n / 10);
      DigitRoundTrip(n % 10);
    }
  }

  /** The record cap the dashboard requests renders as four digits. */
  lemma RenderThousand()
    ensures NumberToString(1000) == "1000"
  {
    assert NumberToString(1) == "1";
    assert NumberToString(10) == "10";
    assert NumberToString(100) == "100";
  }
}
