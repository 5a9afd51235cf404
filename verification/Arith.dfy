/** The few facts about products and quotients that index arithmetic needs. */
module Arith {

  lemma MulStep(a: int, b: int, n: nat)
    requires a < b
    ensures a * n + n <= b * n
  {
    assert b * n == a * n + n + (b - a - 1) * n;
  }

  lemma MulMonotone(a: int, b: int, n: nat)
    requires a <= b
    ensures a * n <= b * n
  {
    assert b * n == a * n + (b - a) * n;
  }

  lemma DivMod(q: nat, r: nat, n: nat)
    requires r < n
    ensures (q * n + r) / n == q && (q * n + r) % n == r
  {
    var d := (q * n + r) / n;
    var m := (q * n + r) % n;
    assert q * n + r == d * n + m;
    if d < q { MulStep(d, q, n); }
    if q < d { MulStep(q, d, n); }
  }

  lemma Split(p: nat, n: nat)
    requires n > 0
    ensures (p / n) * n + p % n == p && p / n >= 0 && 0 <= p % n < n
  {
  }

  lemma DivBound(p: nat, a: nat, n: nat)
    requires n > 0 && p < a * n
    ensures p / n < a
  {
    Split(p, n);
    if a <= p / n { MulMonotone(a, p / n, n); }
  }
}
