/** Decimal numerals. */
module Decimal {

  predicate IsDigit(c: char) {
    '0' <= c <= '9'
  }

  predicate AllDigits(s: string) {
    forall i :: 0 <= i < |s| ==> IsDigit(s[i])
  }

  function Digit(d: nat): (c: char)
    requires d < 10
    ensures IsDigit(c) && DigitValue(c) == d
  {
    '0' + d as char
  }

  function DigitValue(c: char): (d: nat)
    requires IsDigit(c)
    ensures d < 10
  {
    c as int - '0' as int
  }

  function Print(n: nat): (s: string)
    ensures |s| > 0 && AllDigits(s)
  {
    if n < 10 then [Digit(n)] else Print(n / 10) + [Digit(n % 10)]
  }

  function ValueOf(s: string): nat
    requires AllDigits(s)
  {
    if s == "" then 0 else 10 * ValueOf(s[..|s| - 1]) + DigitValue(s[|s| - 1])
  }

  // One more digit goes at the end.
  lemma PrintAppends(n: nat, d: nat)
    requires d < 10 && n > 0
    ensures Print(10 * n + d) == Print(n) + ["0123456789"[d]]
  {
    assert (10 * n + d) / 10 == n && (10 * n + d) % 10 == d;
    assert Digit(d) == "0123456789"[d];
  }

  lemma {:induction false} PrintRoundTrip(n: nat)
    ensures ValueOf(Print(n)) == n
  {
    var s := Print(n);
    if n < 10 {
      assert s[..0] == "";
      assert ValueOf(s[..0]) == 0;
    } else {
      assert s[..|s| - 1] == Print(n / 10);
      PrintRoundTrip(n / 10);
    }
  }
}
