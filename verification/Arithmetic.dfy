/** Products and remainders. */
module Arithmetic {

  lemma ProductOrder(p: int, q: int, m: nat)
    requires p <= q
    ensures p * m <= q * m
  {
    assert (q - p) * m >= 0;
    assert q * m == p * m + (q - p) * m;
  }

  lemma NextProduct(p: int, q: int, m: nat)
    requires p < q
    ensures p * m + m <= q * m
  {
    ProductOrder(p + 1, q, m);
    assert (p + 1) * m == p * m + m;
  }

  lemma RestIsUnique(p: nat, m: nat, q: nat, r: nat)
    requires m > 0 && p == q * m + r && r < m
    ensures p % m == r
  {
    var a, b := p / m, p % m;
    assert p == a * m + b;
    if a < q { NextProduct(a, q, m); }
    if q < a { NextProduct(q, a, m); }
  }
}
