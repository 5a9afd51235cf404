/** Exactly when MASS3DPA, with the second table it loads, applies the matrix of MASS3DEA. */
module MassExact {
  import opened RealArith
  import opened Mass
  import opened MassMatrix
  import opened Sums

  /** The whole operator as one sum over quadrature points. */
  lemma StagedByPoint(d1: nat, q1: nat, b: Table2, bt: Table2, d: Table3, t: Table3, iz: int, iy: int, ix: int)
    ensures Staged(d1, q1, b, bt, d, t)(iz, iy, ix) ==
            Sum3(q1, q1, q1, Weighted(bt, bt, bt, iz, iy, ix, Times(Tensor(d1, d1, d1, b, b, b, t), d)))
  {
    StagedIsDirect(d1, q1, b, bt, d, t, iz, iy, ix);
    var terms := Weighted(bt, bt, bt, iz, iy, ix, Times(Tensor(d1, d1, d1, b, b, b, t), d));
    forall qz, qy, qx ensures RowSums(d1, d1, d1, MassTerms(b, bt, d, t, iz, iy, ix))(qz, qy, qx) == terms(qz, qy, qx) {
      MassRow(d1, b, bt, d, t, iz, iy, ix, qz, qy, qx);
    }
    Sum3Ext(q1, q1, q1, RowSums(d1, d1, d1, MassTerms(b, bt, d, t, iz, iy, ix)), terms);
  }

  /** One at (k, k, k), zero elsewhere. */
  function Unit(k: int): Table3 {
    (z, y, x) => if z == k && y == k && x == k then 1.0 else 0.0
  }

  function Cube(a: real): real {
    a * a * a
  }

  lemma UnitDof(d1: nat, b: Table2, q: int, j: nat)
    requires j < d1
    ensures Tensor(d1, d1, d1, b, b, b, Unit(j))(q, q, q) == Cube(b(q, j))
  {
    Sum3At(d1, Weighted(b, b, b, q, q, q, Unit(j)), j, j, j);
  }

  /** With data at one point and one dof, the operator is one product. */
  lemma OnePoint(d1: nat, q1: nat, b: Table2, bt: Table2, q: nat, j: nat, i: nat)
    requires q < q1 && j < d1
    ensures Staged(d1, q1, b, bt, Unit(q), Unit(j))(i, i, i) == Cube(bt(i, q)) * Cube(b(q, j))
  {
    var values := Tensor(d1, d1, d1, b, b, b, Unit(j));
    var w := Weighted(bt, bt, bt, i, i, i, Times(values, Unit(q)));
    StagedByPoint(d1, q1, b, bt, Unit(q), Unit(j), i, i, i);
    forall z, y, x | z != q || y != q || x != q ensures w(z, y, x) == 0.0 {
      assert Times(values, Unit(q))(z, y, x) == 0.0;
    }
    Sum3At(q1, w, q, q, q);
    UnitDof(d1, b, q, j);
    assert Times(values, Unit(q))(q, q, q) == Cube(b(q, j));
  }

  lemma CubeInjective(x: real, y: real)
    requires Cube(x) == Cube(y)
    ensures x == y
  {
    if x < y { CubeMonotone(x, y); }
    if y < x { CubeMonotone(y, x); }
  }

  lemma CubeMonotone(x: real, y: real)
    requires x < y
    ensures Cube(x) < Cube(y)
  {
    var s := x * x + x * y + y * y;
    assert Cube(y) - Cube(x) == (y - x) * s;
    assert 4.0 * s == (2.0 * x + y) * (2.0 * x + y) + 3.0 * (y * y);
    Square(2.0 * x + y);
    Square(y);
    assert s > 0.0 by { if y == 0.0 { assert x != 0.0; } }
    assert (y - x) * s > 0.0;
  }

  lemma CubeNonzero(x: real)
    requires x != 0.0
    ensures Cube(x) != 0.0
  {
  }

  predicate RowVanishes(d1: nat, b: Table2, q: int) {
    forall j | 0 <= j < d1 :: b(q, j) == 0.0
  }

  /** Row q of b vanishes, or the loaded column q repeats it. */
  predicate RowMatches(d1: nat, b: Table2, bt: Table2, q: int) {
    RowVanishes(d1, b, q) || forall i | 0 <= i < d1 :: bt(i, q) == b(q, i)
  }

  ghost predicate AppliesMatrix(d1: nat, q1: nat, b: Table2, bt: Table2) {
    forall d: Table3, t: Table3, iz: nat, iy: nat, ix: nat | iz < d1 && iy < d1 && ix < d1 ::
      Staged(d1, q1, b, bt, d, t)(iz, iy, ix) == Sum3(d1, d1, d1, MatrixRow(q1, b, d, t, iz, iy, ix))
  }

  function Transposed(b: Table2): Table2 {
    (i, q) => b(q, i)
  }

  /** A vanishing row makes the interpolated value vanish. */
  lemma NoValue(d1: nat, b: Table2, t: Table3, qz: int, qy: int, qx: int, q: int)
    requires q in {qz, qy, qx} && RowVanishes(d1, b, q)
    ensures Tensor(d1, d1, d1, b, b, b, t)(qz, qy, qx) == 0.0
  {
    var w, zero: Table3 := Weighted(b, b, b, qz, qy, qx, t), (z, y, x) => 0.0;
    forall z, y, x | 0 <= z < d1 && 0 <= y < d1 && 0 <= x < d1 ensures w(z, y, x) == 0.0 {
      if q == qz {
        assert b(qz, z) == 0.0;
      } else if q == qy {
        assert b(qy, y) == 0.0;
      } else {
        assert b(qx, x) == 0.0;
      }
    }
    Sum3Ext(d1, d1, d1, w, zero);
    Sum3Zero(d1, d1, d1, zero);
  }

  lemma SamePoint(d1: nat, b: Table2, bt: Table2, d: Table3, t: Table3, iz: nat, iy: nat, ix: nat,
                  qz: nat, qy: nat, qx: nat, f: Table3)
    requires iz < d1 && iy < d1 && ix < d1 && f == Times(Tensor(d1, d1, d1, b, b, b, t), d)
    requires RowMatches(d1, b, bt, qz) && RowMatches(d1, b, bt, qy) && RowMatches(d1, b, bt, qx)
    ensures Weighted(bt, bt, bt, iz, iy, ix, f)(qz, qy, qx)
         == Weighted(Transposed(b), Transposed(b), Transposed(b), iz, iy, ix, f)(qz, qy, qx)
  {
    if RowVanishes(d1, b, qz) {
      NoValue(d1, b, t, qz, qy, qx, qz);
    } else if RowVanishes(d1, b, qy) {
      NoValue(d1, b, t, qz, qy, qx, qy);
    } else if RowVanishes(d1, b, qx) {
      NoValue(d1, b, t, qz, qy, qx, qx);
    }
  }

  lemma MatchingApplies(d1: nat, q1: nat, b: Table2, bt: Table2, d: Table3, t: Table3, iz: nat, iy: nat, ix: nat)
    requires iz < d1 && iy < d1 && ix < d1 && forall q | 0 <= q < q1 :: RowMatches(d1, b, bt, q)
    ensures Staged(d1, q1, b, bt, d, t)(iz, iy, ix) == Sum3(d1, d1, d1, MatrixRow(q1, b, d, t, iz, iy, ix))
  {
    var f := Times(Tensor(d1, d1, d1, b, b, b, t), d);
    StagedByPoint(d1, q1, b, bt, d, t, iz, iy, ix);
    StagedByPoint(d1, q1, b, Transposed(b), d, t, iz, iy, ix);
    StagedIsMatrix(d1, q1, b, Transposed(b), d, t, iz, iy, ix);
    forall qz: nat, qy: nat, qx: nat | qz < q1 && qy < q1 && qx < q1
      ensures Weighted(bt, bt, bt, iz, iy, ix, f)(qz, qy, qx)
           == Weighted(Transposed(b), Transposed(b), Transposed(b), iz, iy, ix, f)(qz, qy, qx)
    {
      SamePoint(d1, b, bt, d, t, iz, iy, ix, qz, qy, qx, f);
    }
    Sum3Ext(q1, q1, q1, Weighted(bt, bt, bt, iz, iy, ix, f),
            Weighted(Transposed(b), Transposed(b), Transposed(b), iz, iy, ix, f));
  }

  lemma ApplyingMatches(d1: nat, q1: nat, b: Table2, bt: Table2, q: nat, j: nat, i: nat)
    requires AppliesMatrix(d1, q1, b, bt) && q < q1 && j < d1 && i < d1 && b(q, j) != 0.0
    ensures bt(i, q) == b(q, i)
  {
    OnePoint(d1, q1, b, bt, q, j, i);
    OnePoint(d1, q1, b, Transposed(b), q, j, i);
    StagedIsMatrix(d1, q1, b, Transposed(b), Unit(q), Unit(j), i, i, i);
    assert Staged(d1, q1, b, bt, Unit(q), Unit(j))(i, i, i) ==
           Sum3(d1, d1, d1, MatrixRow(q1, b, Unit(q), Unit(j), i, i, i));
    CubeNonzero(b(q, j));
    Cancel(Cube(bt(i, q)), Cube(b(q, i)), Cube(b(q, j)));
    CubeInjective(bt(i, q), b(q, i));
  }

  /**
   * MASS3DPA is the assembled matrix times X for all quadrature data and all X if and only
   * if, for every point, the loaded column repeats the row of B or that row vanishes.
   */
  lemma AppliesMatrixIff(d1: nat, q1: nat, b: Table2, bt: Table2)
    ensures AppliesMatrix(d1, q1, b, bt) <==> forall q | 0 <= q < q1 :: RowMatches(d1, b, bt, q)
  {
    if AppliesMatrix(d1, q1, b, bt) {
      forall q | 0 <= q < q1 ensures RowMatches(d1, b, bt, q) {
        if j :| 0 <= j < d1 && b(q, j) != 0.0 {
          forall i | 0 <= i < d1 ensures bt(i, q) == b(q, i) { ApplyingMatches(d1, q1, b, bt, q, j, i); }
        }
      }
    }
    if forall q | 0 <= q < q1 :: RowMatches(d1, b, bt, q) {
      forall d: Table3, t: Table3, iz: nat, iy: nat, ix: nat | iz < d1 && iy < d1 && ix < d1
        ensures Staged(d1, q1, b, bt, d, t)(iz, iy, ix) == Sum3(d1, d1, d1, MatrixRow(q1, b, d, t, iz, iy, ix))
      {
        MatchingApplies(d1, q1, b, bt, d, t, iz, iy, ix);
      }
    }
  }
}
