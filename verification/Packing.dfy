/**
 * DIFFUSION3DPA keeps half of B and half of G in one array of the size of B, and
 * reaches the other halves by reflection.
 */
module Packing {
  import opened Sums

  function Qi(q: int, d: int, q1: int): int {
    if q <= d then q else q1 - 1 - q
  }

  function Dj(q: int, d: int, d1: int): int {
    if q <= d then d else d1 - 1 - d
  }

  function Qk(q: int, d: int, q1: int): int {
    if q <= d then q1 - 1 - q else q
  }

  function Dl(q: int, d: int, d1: int): int {
    if q <= d then d1 - 1 - d else d
  }

  function Sign(q: int, d: int): real {
    if q <= d then -1.0 else 1.0
  }

  predicate In(q: int, d: int, q1: nat, d1: nat) {
    0 <= q < q1 && 0 <= d < d1
  }

  /** No cell is used for an entry of B and for an entry of G. */
  ghost predicate CollisionFree(q1: nat, d1: nat) {
    forall q, d, p, c | In(q, d, q1, d1) && In(p, c, q1, d1) ::
      Qi(q, d, q1) != Qk(p, c, q1) || Dj(q, d, d1) != Dl(p, c, d1)
  }

  /** The packing keeps B and G apart exactly when there is one more point than dofs. */
  lemma CollisionFreeIff(q1: nat, d1: nat)
    requires q1 >= 1 && d1 >= 1
    ensures CollisionFree(q1, d1) <==> q1 == d1 + 1
  {
    if q1 <= d1 {
      // B at (0, 0) and G at the reflection of the last cell of the diagonal meet
      var p, c := q1 - 1, d1 - 1;
      assert In(0, 0, q1, d1) && In(p, c, q1, d1);
      assert Qi(0, 0, q1) == Qk(p, c, q1) && Dj(0, 0, d1) == Dl(p, c, d1);
    } else if q1 >= d1 + 2 {
      var q, d := q1 - 2, d1 - 1;
      assert In(q, d, q1, d1) && In(1, 0, q1, d1);
      assert Qi(q, d, q1) == Qk(1, 0, q1) && Dj(q, d, d1) == Dl(1, 0, d1);
    }
  }

  /** b is symmetric and g antisymmetric under reflection of both indices. */
  ghost predicate Reflects(b: Table2, g: Table2, q1: nat, d1: nat) {
    forall q, d | In(q, d, q1, d1) ::
      b(q, d) == b(q1 - 1 - q, d1 - 1 - d) && g(q, d) == -g(q1 - 1 - q, d1 - 1 - d)
  }

  /** Reading the cells of t through the packed indices returns b and g everywhere. */
  ghost predicate ReadsBack(t: Table2, b: Table2, g: Table2, q1: nat, d1: nat) {
    forall q, d | In(q, d, q1, d1) ::
      && t(Qi(q, d, q1), Dj(q, d, d1)) == b(q, d)
      && t(Qk(q, d, q1), Dl(q, d, d1)) * Sign(q, d) == g(q, d)
  }

  /** What a cell holds when b and g reflect: B on and above the diagonal, G below. */
  function Packed(b: Table2, g: Table2): Table2 {
    (i, j) => if i <= j then b(i, j) else g(i, j)
  }

  /** Each write stores the cell's final value. */
  lemma WritesAgree(b: Table2, g: Table2, q1: nat, d1: nat, q: int, d: int)
    requires q1 == d1 + 1 && Reflects(b, g, q1, d1) && In(q, d, q1, d1)
    ensures b(q, d) == Packed(b, g)(Qi(q, d, q1), Dj(q, d, d1))
    ensures g(q, d) * Sign(q, d) == Packed(b, g)(Qk(q, d, q1), Dl(q, d, d1))
  {
    assert g(q, d) == -g(q1 - 1 - q, d1 - 1 - d);
  }

  /**
   * With one more point than dofs, the packed array can serve b and g exactly when they
   * reflect.  The condition is necessary for any contents of the array.
   */
  lemma ReadsBackIff(b: Table2, g: Table2, q1: nat, d1: nat)
    requires q1 == d1 + 1
    ensures Reflects(b, g, q1, d1) <==> exists t: Table2 :: ReadsBack(t, b, g, q1, d1)
  {
    if Reflects(b, g, q1, d1) {
      forall q, d | In(q, d, q1, d1)
        ensures Packed(b, g)(Qi(q, d, q1), Dj(q, d, d1)) == b(q, d)
        ensures Packed(b, g)(Qk(q, d, q1), Dl(q, d, d1)) * Sign(q, d) == g(q, d)
      {
        WritesAgree(b, g, q1, d1, q, d);
      }
      assert ReadsBack(Packed(b, g), b, g, q1, d1);
    }
    if t: Table2 :| ReadsBack(t, b, g, q1, d1) {
      forall q, d | In(q, d, q1, d1)
        ensures b(q, d) == b(q1 - 1 - q, d1 - 1 - d) && g(q, d) == -g(q1 - 1 - q, d1 - 1 - d)
      {
        assert In(q1 - 1 - q, d1 - 1 - d, q1, d1);
      }
    }
  }

  /** The benchmark's own set-up, G constantly 1, cannot be read back from any contents. */
  lemma ConstantGradientMisread(t: Table2, b: Table2, q1: nat, d1: nat)
    requires q1 == d1 + 1 && d1 >= 1
    ensures !ReadsBack(t, b, (q, d) => 1.0, q1, d1)
  {
    var g: Table2 := (q, d) => 1.0;
    ReadsBackIff(b, g, q1, d1);
    assert In(0, 0, q1, d1) && g(0, 0) != -g(q1 - 1, d1 - 1);
  }
}
