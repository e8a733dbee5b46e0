/**
 * Kinesis sequence numbers are decimal strings that may exceed 64 bits. The
 * checkpointer compares them by parsing both sides as arbitrary-precision
 * integers; this module gives that parse as a function to `nat` and proves
 * the facts about it that make the comparison numeric rather than lexical.
 */
module Decimal {

  predicate IsDigit(c: char) {
    '0' <= c <= '9'
  }

  /** A non-empty string of decimal digits: the inputs the model accepts as sequence numbers. */
  predicate IsDecimal(s: string) {
    |s| > 0 && forall i :: 0 <= i < |s| ==> IsDigit(s[i])
  }

  function DigitValue(c: char): (d: nat)
    requires IsDigit(c)
    ensures d < 10
  {
    (c as int - '0' as int) as nat
  }

  function Pow10(n: nat): (p: nat)
    ensures p >= 1
  {
    if n == 0 then 1 else 10 * Pow10(n - 1)
  }

  /**
   * The numeric value of a string of digits, most significant digit first
   * (the empty string is 0, which only arises inside the recursion). A string
   * of n digits denotes a number below 10^n.
   */
  function DecimalValue(s: string): (v: nat)
    requires forall i :: 0 <= i < |s| ==> IsDigit(s[i])
    ensures v < Pow10(|s|)
  {
    if |s| == 0 then 0
    else 10 * DecimalValue(s[..|s| - 1]) + DigitValue(s[|s| - 1])
  }

  /** A string whose first digit is not zero denotes at least 10^(n-1). */
  lemma {:induction false} LeadingDigitBound(s: string)
    requires IsDecimal(s) && s[0] != '0'
    ensures DecimalValue(s) >= Pow10(|s| - 1)
  {
    if |s| > 1 {
      var init := s[..|s| - 1];
      assert init[0] == s[0];
      LeadingDigitBound(init);
    }
  }

  /**
   * A longer string without a leading zero is always the larger number,
   * whatever the digits: the reason lexical order cannot stand in for the
   * numeric one.
   */
  lemma {:induction false} LongerIsGreater(a: string, b: string)
    requires IsDecimal(a) && a[0] != '0'
    requires IsDecimal(b)
    requires |a| > |b|
    ensures DecimalValue(b) < DecimalValue(a)
  {
    LeadingDigitBound(a);
    Pow10Monotone(|b|, |a| - 1);
  }

  lemma {:induction false} Pow10Monotone(m: nat, n: nat)
    requires m <= n
    ensures Pow10(m) <= Pow10(n)
  {
    if m < n {
      Pow10Monotone(m, n - 1);
    }
  }

  /** Leading zeros do not change the value: "007" and "7" are the same sequence number. */
  lemma {:induction false} LeadingZeroIgnored(s: string)
    requires forall i :: 0 <= i < |s| ==> IsDigit(s[i])
    ensures DecimalValue("0" + s) == DecimalValue(s)
  {
    if |s| > 0 {
      var t := "0" + s;
      assert t[..|t| - 1] == "0" + s[..|s| - 1];
      LeadingZeroIgnored(s[..|s| - 1]);
    }
  }

  /** Java's `String.compareTo(a, b) < 0`: code-unit lexicographic order. */
  predicate LexicallyBefore(a: string, b: string) {
    if |a| == 0 then |b| > 0
    else if |b| == 0 then false
    else if a[0] != b[0] then a[0] < b[0]
    else LexicallyBefore(a[1..], b[1..])
  }

  /**
   * "100" sorts before "99" as a string but is the larger sequence number,
   * so a string comparison would refuse a legitimate checkpoint.
   */
  lemma LexicalOrderIsNotNumeric()
    ensures LexicallyBefore("100", "99")
    ensures DecimalValue("99") < DecimalValue("100")
  {
    LongerIsGreater("100", "99");
  }

}
