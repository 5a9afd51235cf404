/** Identities and signs of real products, stated once for proofs that must not search for them. */
module RealArith {

  function Abs(r: real): real {
    if r < 0.0 then -r else r
  }

  /** Entry i, and zero beyond the ends. */
  function At(s: seq<real>, i: int): real {
    if 0 <= i < |s| then s[i] else 0.0
  }

  /** A combination of three values. */
  function Combined(a0: real, a1: real, a2: real, x0: real, x1: real, x2: real): real {
    a0 * x0 + a1 * x1 + a2 * x2
  }

  /** Three factors in other groupings. */
  lemma Grouped(a: real, b: real, c: real)
    ensures a * (b * c) == a * b * c == b * a * c == a * (c * b) == c * (a * b) == c * (b * a)
  {
  }

  lemma Distribute(c: real, a: real, b: real)
    ensures c * (a + b) == c * a + c * b && (a + b) * c == a * c + b * c
  {
  }

  lemma Distribute3(t: real, a: real, b: real, c: real)
    ensures t * (a + b + c) == t * a + t * b + t * c && (a + b + c) * t == a * t + b * t + c * t
  {
  }

  lemma Cancel(a: real, b: real, c: real)
    requires c != 0.0 && a * c == b * c
    ensures a == b
  {
    assert (a - b) * c == 0.0;
  }

  lemma Square(a: real)
    ensures a * a >= 0.0 && (a != 0.0 ==> a * a > 0.0)
  {
  }
}
