/** Natural numbers as decimal digits. */
module Decimals {

  function Digit(d: nat): char
    requires d < 10
  {
    '0' + d as char
  }

  function Decimal(n: nat): string {
    if n < 10 then [Digit(n)] else Decimal(n / 10) + [Digit(n % 10)]
  }

  predicate IsDigit(c: char) {
    '0' <= c <= '9'
  }

  predicate Digits(s: string) {
    s != "" && forall i :: 0 <= i < |s| ==> IsDigit(s[i])
  }

  function ValueOf(s: string): nat
    requires Digits(s)
  {
    var last := s[|s| - 1] as int - '0' as int;
    if |s| == 1 then last else ValueOf(s[..|s| - 1]) * 10 + last
  }

  lemma DecimalDigits(n: nat)
    ensures Digits(Decimal(n))
  {
  }

  lemma {:induction false} ValueOfDecimal(n: nat)
    ensures Digits(Decimal(n)) && ValueOf(Decimal(n)) == n
  {
    DecimalDigits(n);
    if n >= 10 {
      ValueOfDecimal(n / 10);
      assert Decimal(n)[..|Decimal(n)| - 1] == Decimal(n / 10);
    }
  }

  lemma DecimalInjective(m: nat, n: nat)
    requires Decimal(m) == Decimal(n)
    ensures m == n
  {
    ValueOfDecimal(m);
    ValueOfDecimal(n);
  }

  /** Digits count in tens, most significant first. */
  lemma ValueByOne(s: string, d: nat)
    requires Digits(s) && d < 10
    ensures Digits(s + [Digit(d)]) && ValueOf(s + [Digit(d)]) == 10 * ValueOf(s) + d
    ensures Digits([Digit(d)]) && ValueOf([Digit(d)]) == d
  {
    assert (s + [Digit(d)])[..|s|] == s;
  }
}
