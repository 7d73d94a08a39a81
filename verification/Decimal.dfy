/** Decimal printing (std::to_string) and its inverse on digit strings. */
module Decimal {

  predicate IsDigit(c: char) {
    '0' <= c <= '9'
  }

  predicate AllDigits(s: string) {
    forall i :: 0 <= i < |s| ==> IsDigit(s[i])
  }

  function DigitChar(d: nat): (c: char)
    requires d < 10
    ensures IsDigit(c)
  {
    '0' + d as char
  }

  function DigitValue(c: char): (d: nat)
    requires IsDigit(c)
    ensures d < 10
  {
    (c - '0') as int
  }

  function ToString(n: nat): (s: string)
    ensures |s| > 0 && AllDigits(s)
  {
    if n < 10 then [DigitChar(n)] else ToString(n / 10) + [DigitChar(n % 10)]
  }

  /** The number a digit string denotes; the empty string denotes 0. */
  function Value(s: string): nat
    requires AllDigits(s)
  {
    if s == "" then 0 else 10 * Value(s[..|s| - 1]) + DigitValue(s[|s| - 1])
  }

  lemma {:induction false} PrintParse(n: nat)
    ensures Value(ToString(n)) == n
  {
    if n < 10 {
      assert ToString(n)[..0] == "";
    } else {
      PrintParse(n / 10);
      var s := ToString(n);
      assert s[..|s| - 1] == ToString(n / 10);
    }
  }

  /** No leading zeros, most significant digit first. */
  lemma {:induction false} Canonical(n: nat)
    requires n > 0
    ensures ToString(n)[0] != '0'
  {
    if n >= 10 {
      Canonical(n / 10);
    }
  }

  lemma PrintsDecimal()
    ensures ToString(0) == "0" && ToString(50051) == "50051"
  {
    assert ToString(5) == "5";
    assert ToString(50) == "50";
    assert ToString(500) == "500";
    assert ToString(5005) == "5005";
  }
}
