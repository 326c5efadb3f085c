/** Division with remainder, proved once so that the other modules never need
    nonlinear reasoning of their own. */
module Arithmetic {
  lemma {:induction false} MulAtLeast(e: nat, d: nat)
    requires e >= 1
    ensures e * d >= d
  {
    assert (e - 1) * d >= 0;
    assert e * d == (e - 1) * d + d;
  }

  lemma Distribute(a: int, b: int, d: int)
    ensures (a - b) * d == a * d - b * d
  {
  }

  lemma Unique(q: int, r: nat, p: int, s: nat, d: nat)
    requires r < d && s < d
    requires q * d + r == p * d + s
    ensures q == p && r == s
  {
    Distribute(q, p, d);
    Distribute(p, q, d);
    if q > p { MulAtLeast(q - p, d); }
    if p > q { MulAtLeast(p - q, d); }
  }

  lemma QuotientOf(q: nat, r: nat, d: nat)
    requires r < d
    ensures (q * d + r) / d == q && (q * d + r) % d == r
  {
    var x := q * d + r;
    Fundamental(x, d);
    Unique(q, r, x / d, x % d, d);
  }
  lemma Fundamental(x: nat, d: nat)
    requires d > 0
    ensures x == (x / d) * d + x % d
  {
  }
  lemma QuotientMonotone(a: nat, b: nat, d: nat)
    requires d > 0 && a * d < b * d + d
    ensures a <= b && a * d <= b * d
  {
    Distribute(a, b, d);
    if a > b {
      MulAtLeast(a - b, d);
    } else {
      Distribute(b, a, d);
      assert (b - a) * d >= 0;
    }
  }

  lemma AtLeastOne(x: nat, d: nat)
    requires 0 < d <= x
    ensures x / d >= 1
  {
    Fundamental(x, d);
    QuotientMonotone(1, x / d, d);
  }

  lemma PositiveQuotient(x: nat, d: nat)
    requires d > 0 && x > 0 && x % d == 0
    ensures x / d >= 1 && x >= d
  {
    if x < d { QuotientOf(0, x, d); }
    AtLeastOne(x, d);
  }
}
