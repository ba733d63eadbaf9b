// Decimal numerals, as Go's %d verb and the inbox's own formatter write them.
module Decimals {
  predicate IsDigit(c: char) { '0' <= c <= '9' }

  predicate AllDigits(s: string) { forall i :: 0 <= i < |s| ==> IsDigit(s[i]) }

  function Digit(d: nat): (c: char)
    requires d < 10
    ensures IsDigit(c)
    ensures c as int - '0' as int == d
  {
    ('0' as int + d) as char
  }

  function Decimal(n: nat): (s: string)
    ensures |s| >= 1 && AllDigits(s)
  {
    if n < 10 then [Digit(n)] else Decimal(n / 10) + [Digit(n % 10)]
  }

  function Value(s: string): (n: nat)
    requires AllDigits(s)
  {
    if s == "" then 0 else 10 * Value(s[..|s| - 1]) + (s[|s| - 1] as int - '0' as int)
  }

  function SignedDecimal(i: int): (s: string)
    ensures |s| >= 1
    ensures forall k :: 0 <= k < |s| ==> s[k] != ':'
  {
    if i < 0 then "-" + Decimal(-i) else Decimal(i)
  }

  function Pow10(k: nat): (p: nat)
    ensures p >= 1
  {
    if k == 0 then 1 else 10 * Pow10(k - 1)
  }

  // Reading a numeral back gives the number that was written.
  lemma {:induction false} ValueOfDecimal(n: nat)
    ensures Value(Decimal(n)) == n
  {
    var s := Decimal(n);
    if n < 10 {
      assert s[..|s| - 1] == "";
    } else {
      ValueOfDecimal(n / 10);
      assert s[..|s| - 1] == Decimal(n / 10);
    }
  }

  lemma DecimalInjective(m: nat, n: nat)
    requires Decimal(m) == Decimal(n)
    ensures m == n
  {
    ValueOfDecimal(m);
    ValueOfDecimal(n);
  }

  lemma SignedDecimalInjective(i: int, j: int)
    requires SignedDecimal(i) == SignedDecimal(j)
    ensures i == j
  {
    assert SignedDecimal(i)[0] == '-' <==> i < 0;
    assert SignedDecimal(j)[0] == '-' <==> j < 0;
    if i < 0 {
      assert SignedDecimal(i)[1..] == Decimal(-i) && SignedDecimal(j)[1..] == Decimal(-j);
      DecimalInjective(-i, -j);
    } else {
      DecimalInjective(i, j);
    }
  }

  // A number below 10^k has at most k digits.
  lemma {:induction false} DecimalLength(n: nat, k: nat)
    requires k >= 1 && n < Pow10(k)
    ensures |Decimal(n)| <= k
  {
    if n >= 10 {
      assert Pow10(k) == 10 * Pow10(k - 1);
      assert Pow10(0) == 1;
      DecimalLength(n / 10, k - 1);
    }
  }
}
