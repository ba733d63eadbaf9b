// The few facts about whole division that chunk counting needs.
module Division {
  lemma {:induction false} MulAtLeast(x: nat, c: nat)
    requires x >= 1
    ensures x * c >= c
  {
    if x > 1 {
      MulAtLeast(x - 1, c);
      assert x * c == (x - 1) * c + c;
    }
  }

  lemma DivMod(a: nat, c: nat)
    requires c > 0
    ensures a == (a / c) * c + a % c && 0 <= a % c < c
  {
  }

  // Quotient and remainder, by name.
  lemma Divided(a: nat, c: nat) returns (q: nat, r: nat)
    requires c > 0
    ensures a == q * c + r && r < c && r == a % c
  {
    DivMod(a, c);
    q, r := a / c, a % c;
  }

  lemma DivUnique(a: nat, c: nat, q: nat, r: nat)
    requires c > 0 && a == q * c + r && r < c
    ensures a / c == q
  {
    var p, s := a / c, a % c;
    DivMod(a, c);
    assert p * c == (p - q) * c + q * c;
    assert q * c == (q - p) * c + p * c;
    if p > q {
      MulAtLeast(p - q, c);
    } else if p < q {
      MulAtLeast(q - p, c);
    }
  }

  lemma DivStep(a: nat, c: nat)
    requires c > 0
    ensures (a + c) / c == a / c + 1
  {
    DivMod(a, c);
    assert (a / c + 1) * c == (a / c) * c + c;
    DivUnique(a + c, c, a / c + 1, a % c);
  }

  lemma QuotientNotLarger(a: nat, c: nat)
    requires c > 0
    ensures 0 <= a / c <= a
  {
    DivMod(a, c);
    if a / c > 0 {
      MulAtLeast(c, a / c);
      assert c * (a / c) == (a / c) * c;
    }
  }
}
