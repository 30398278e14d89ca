/** Bitwise and on naturals, and what masks of the forms `m - 1` and `~(m - 1)` do. */
module Bits {

  function Pow2(k: nat): (m: nat)
    ensures m >= 1
  {
    if k == 0 then 1 else 2 * Pow2(k - 1)
  }

  function And(a: nat, b: nat): nat {
    if a == 0 || b == 0 then 0
    else 2 * And(a / 2, b / 2) + (if a % 2 == 1 && b % 2 == 1 then 1 else 0)
  }

  ghost predicate PowerOfTwo(m: nat) {
    exists k: nat :: m == Pow2(k)
  }

  lemma {:induction false} AndSelf(a: nat)
    ensures And(a, a) == a
  {
    if a != 0 { AndSelf(a / 2); }
  }

  /** Halving a position that is `q` times an even number plus a rest. */
  lemma Halve(q: nat, half: nat, r: nat, p: nat)
    requires p == q * (2 * half) + r
    ensures p / 2 == q * half + r / 2 && p % 2 == r % 2
  {
    var whole := q * half;
    assert q * (2 * half) == 2 * whole;
  }

  /** `p & (m - 1)` keeps the rest of `p` modulo a power of two. */
  lemma {:induction false} LowMask(p: nat, k: nat, q: nat, r: nat)
    requires p == q * Pow2(k) + r && r < Pow2(k)
    ensures And(p, Pow2(k) - 1) == r
    decreases k
  {
    if k > 0 {
      var half := Pow2(k - 1);
      Halve(q, half, r, p);
      LowMask(p / 2, k - 1, q, r / 2);
      var m := 2 * half - 1;
      assert m / 2 == half - 1 && m % 2 == 1;
      if p == 0 {
        NoRest(q, 2 * half, r);
      }
    }
  }

  lemma NoRest(q: nat, m: nat, r: nat)
    requires q * m + r == 0
    ensures r == 0
  {
  }

  lemma EvenMask(x: nat, m: nat)
    ensures And(x, 2 * m) == 2 * And(x / 2, m)
  {
    assert (2 * m) / 2 == m && (2 * m) % 2 == 0;
  }

  lemma TwiceProduct(q: nat, half: nat)
    ensures q * (2 * half) == 2 * (q * half)
  {
  }

  /** `x & ~(m - 1)` in a word of `n` bits drops that rest. */
  lemma {:induction false} HighMask(x: nat, n: nat, k: nat, q: nat, r: nat, mult: nat)
    requires k <= n && x < Pow2(n) && mult == q * Pow2(k) && x == mult + r && r < Pow2(k)
    ensures Pow2(k) <= Pow2(n) && And(x, Pow2(n) - Pow2(k)) == mult
    decreases k
  {
    if k == 0 {
      LowMask(x, n, 0, x);
    } else {
      var half := Pow2(k - 1);
      Halve(q, half, r, x);
      TwiceProduct(q, half);
      HighMask(x / 2, n - 1, k - 1, q, r / 2, q * half);
      EvenMask(x, Pow2(n - 1) - half);
    }
  }

  /** The usual test: `m & (m - 1)` is zero exactly for powers of two. */
  lemma {:induction false} PowerOfTwoTest(m: nat)
    requires m > 0
    ensures And(m, m - 1) == 0 <==> PowerOfTwo(m)
  {
    if PowerOfTwo(m) {
      var k: nat :| m == Pow2(k);
      LowMask(m, k, 1, 0);
    } else {
      NotPowerOfTwo(m);
    }
  }

  lemma {:induction false} NotPowerOfTwo(m: nat)
    requires m > 0 && !PowerOfTwo(m)
    ensures And(m, m - 1) != 0
  {
    if m % 2 == 1 {
      assert m != Pow2(0);
      assert (m - 1) / 2 == m / 2;
      AndSelf(m / 2);
    } else {
      var half := m / 2;
      forall k: nat ensures half != Pow2(k) { assert m != Pow2(k + 1); }
      NotPowerOfTwo(half);
      assert (m - 1) / 2 == half - 1;
    }
  }
}
