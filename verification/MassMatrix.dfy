/**
 * MASS3DEA: the assembled element matrix, and the operator MASS3DPA applies in terms
 * of it.
 */
module MassMatrix {
  import opened RealArith
  import opened Arith
  import opened Sums
  import opened Buffer
  import opened Elements
  import opened Mass

  /** Product of the three one-dimensional coefficients. */
  function Coef(m: Table2, qz: int, qy: int, qx: int, z: int, y: int, x: int): real {
    m(qz, z) * m(qy, y) * m(qx, x)
  }

  /** The summand of the direct sum for output (iz, iy, ix), by quadrature point and dof. */
  function MassTerms(b: Table2, bt: Table2, d: Table3, t: Table3, iz: int, iy: int, ix: int): Table6 {
    (qz, qy, qx, ez, ey, ex) =>
      Coef(bt, iz, iy, ix, qz, qy, qx) * d(qz, qy, qx) * (Coef(b, qz, qy, qx, ez, ey, ex) * t(ez, ey, ex))
  }

  /** The direct sextuple sum over quadrature points and dofs. */
  function MassDirect(d1: nat, q1: nat, b: Table2, bt: Table2, d: Table3, t: Table3): Table3 {
    (iz, iy, ix) => Sum3(q1, q1, q1, RowSums(d1, d1, d1, MassTerms(b, bt, d, t, iz, iy, ix)))
  }

  lemma MassRow(d1: nat, b: Table2, bt: Table2, d: Table3, t: Table3, iz: int, iy: int, ix: int, qz: int,
                qy: int, qx: int)
    ensures RowSums(d1, d1, d1, MassTerms(b, bt, d, t, iz, iy, ix))(qz, qy, qx) ==
            Weighted(bt, bt, bt, iz, iy, ix, Times(Tensor(d1, d1, d1, b, b, b, t), d))(qz, qy, qx)
  {
    var c, v, w := Coef(bt, iz, iy, ix, qz, qy, qx), d(qz, qy, qx), Weighted(b, b, b, qz, qy, qx, t);
    MassRowScaled(d1, b, bt, d, t, iz, iy, ix, qz, qy, qx, c * v);
    Grouped(c, v, Sum3(d1, d1, d1, w));
  }

  lemma MassRowScaled(d1: nat, b: Table2, bt: Table2, d: Table3, t: Table3, iz: int, iy: int, ix: int, qz: int,
                      qy: int, qx: int, k: real)
    requires k == Coef(bt, iz, iy, ix, qz, qy, qx) * d(qz, qy, qx)
    ensures RowSums(d1, d1, d1, MassTerms(b, bt, d, t, iz, iy, ix))(qz, qy, qx) ==
            k * Tensor(d1, d1, d1, b, b, b, t)(qz, qy, qx)
  {
    var w, row := Weighted(b, b, b, qz, qy, qx, t), RowOf(MassTerms(b, bt, d, t, iz, iy, ix), qz, qy, qx);
    forall ez, ey, ex ensures row(ez, ey, ex) == k * w(ez, ey, ex) {
      MassRowEntry(b, bt, d, t, iz, iy, ix, qz, qy, qx, k, ez, ey, ex);
    }
    MultipleOf(d1, k, w, row);
  }

  lemma MassRowEntry(b: Table2, bt: Table2, d: Table3, t: Table3, iz: int, iy: int, ix: int, qz: int, qy: int, qx: int,
                     k: real, ez: int, ey: int, ex: int)
    requires k == Coef(bt, iz, iy, ix, qz, qy, qx) * d(qz, qy, qx)
    ensures RowOf(MassTerms(b, bt, d, t, iz, iy, ix), qz, qy, qx)(ez, ey, ex) ==
            k * Weighted(b, b, b, qz, qy, qx, t)(ez, ey, ex)
  {
    assert RowOf(MassTerms(b, bt, d, t, iz, iy, ix), qz, qy, qx)(ez, ey, ex) ==
           k * (Coef(b, qz, qy, qx, ez, ey, ex) * t(ez, ey, ex));
    assert Weighted(b, b, b, qz, qy, qx, t)(ez, ey, ex) == Coef(b, qz, qy, qx, ez, ey, ex) * t(ez, ey, ex);
  }

  /** The nine stages compute the direct sum, for any loaded tables. */
  lemma StagedIsDirect(d1: nat, q1: nat, b: Table2, bt: Table2, d: Table3, t: Table3, iz: int, iy: int, ix: int)
    ensures Staged(d1, q1, b, bt, d, t)(iz, iy, ix) == MassDirect(d1, q1, b, bt, d, t)(iz, iy, ix)
  {
    var inner := AlongZ(d1, AlongY(d1, AlongX(d1, t, b), b), b);
    var full := Tensor(d1, d1, d1, b, b, b, t);
    forall qz, qy, qx ensures Times(inner, d)(qz, qy, qx) == Times(full, d)(qz, qy, qx) {
      FactorXYZ(d1, d1, d1, b, b, b, t, qz, qy, qx);
    }
    FactorXYZ(q1, q1, q1, bt, bt, bt, Times(inner, d), iz, iy, ix);
    TensorExt(q1, q1, q1, bt, bt, bt, Times(inner, d), Times(full, d), iz, iy, ix);
    forall qz, qy, qx
      ensures RowSums(d1, d1, d1, MassTerms(b, bt, d, t, iz, iy, ix))(qz, qy, qx) ==
              Weighted(bt, bt, bt, iz, iy, ix, Times(full, d))(qz, qy, qx)
    {
      MassRow(d1, b, bt, d, t, iz, iy, ix, qz, qy, qx);
    }
    Sum3Ext(q1, q1, q1, RowSums(d1, d1, d1, MassTerms(b, bt, d, t, iz, iy, ix)),
            Weighted(bt, bt, bt, iz, iy, ix, Times(full, d)));
  }

  /** What Y holds after the run, entry by entry. */
  lemma MassResult(d1: nat, q1: nat, b: Table2, bt: Table2, d: Table3, x: Table3, y0: Table3, ne: nat, e: nat, iz: nat,
                   iy: int, ix: int)
    requires d1 >= 1 && e < ne && iz < d1
    ensures AllAdded(y0, AllElements(d1, q1, b, bt, d, x), ne, d1)(e * d1 + iz, iy, ix) ==
            y0(e * d1 + iz, iy, ix) + MassDirect(d1, q1, b, bt, Element(d, e, q1), Element(x, e, d1))(iz, iy, ix)
  {
    AllAddedAt(y0, AllElements(d1, q1, b, bt, d, x), ne, d1, e, iz, iy, ix);
    StagedIsDirect(d1, q1, b, bt, Element(d, e, q1), Element(x, e, d1), iz, iy, ix);
  }

  // ---- the assembled matrix ----------------------------------------------------

  /** The summand of M(i, j) in the assembly loop, with k1 (the x direction) outermost. */
  function EntryTerms(b: Table2, d: Table3, iz: int, iy: int, ix: int, jz: int, jy: int, jx: int): Table3 {
    (k1, k2, k3) =>
      b(k1, ix) * b(k1, jx) * b(k2, iy) * b(k2, jy) * b(k3, iz) * b(k3, jz) * d(k3, k2, k1)
  }

  function Entry(q1: nat, b: Table2, d: Table3, iz: int, iy: int, ix: int, jz: int, jy: int, jx: int): real {
    Sum3(q1, q1, q1, EntryTerms(b, d, iz, iy, ix, jz, jy, jx))
  }

  lemma EntrySymmetric(q1: nat, b: Table2, d: Table3, iz: int, iy: int, ix: int, jz: int, jy: int, jx: int)
    ensures Entry(q1, b, d, iz, iy, ix, jz, jy, jx) == Entry(q1, b, d, jz, jy, jx, iz, iy, ix)
  {
    forall k1, k2, k3
      ensures EntryTerms(b, d, iz, iy, ix, jz, jy, jx)(k1, k2, k3) ==
              EntryTerms(b, d, jz, jy, jx, iz, iy, ix)(k1, k2, k3)
    {
      Swapped(b(k1, ix), b(k1, jx), b(k2, iy), b(k2, jy), b(k3, iz), b(k3, jz), d(k3, k2, k1));
    }
    Sum3Ext(q1, q1, q1, EntryTerms(b, d, iz, iy, ix, jz, jy, jx), EntryTerms(b, d, jz, jy, jx, iz, iy, ix));
  }

  lemma Swapped(a: real, a': real, b: real, b': real, c: real, c': real, d: real)
    ensures a * a' * b * b' * c * c' * d == a' * a * b' * b * c' * c * d
    ensures a * a' * b * b' * c * c' * d == (c * b * a) * d * (c' * b' * a')
  {
    assert a * a' == a' * a && b * b' == b' * b;
    assert a * a' * b * b' == (b * a) * (b' * a');
    assert a * a' * b * b' * c * c' == (c * b * a) * (c' * b' * a') by {
      var p, q := b * a, b' * a';
      assert p * q * c * c' == (c * p) * (c' * q);
    }
    var p, q := c * b * a, c' * b' * a';
    assert p * q * d == p * d * q;
    assert a' * a * b' * b == a * a' * b * b';
    var r := a * a' * b * b';
    assert r * c * c' == r * c' * c;
  }

  /** The matrix row times X, as a table over j. */
  function MatrixRow(q1: nat, b: Table2, d: Table3, t: Table3, iz: int, iy: int, ix: int): Table3 {
    (jz, jy, jx) => Entry(q1, b, d, iz, iy, ix, jz, jy, jx) * t(jz, jy, jx)
  }

  lemma MassColumn(q1: nat, b: Table2, bt: Table2, d: Table3, t: Table3, iz: nat, iy: nat, ix: nat, jz: int, jy: int,
                   jx: int, d1: nat)
    requires iz < d1 && iy < d1 && ix < d1
    requires forall i, q | 0 <= i < d1 && 0 <= q < q1 :: bt(i, q) == b(q, i)
    ensures ColumnSums(q1, q1, q1, MassTerms(b, bt, d, t, iz, iy, ix))(jz, jy, jx) ==
            MatrixRow(q1, b, d, t, iz, iy, ix)(jz, jy, jx)
  {
    var terms := EntryTerms(b, d, iz, iy, ix, jz, jy, jx);
    var column := ColumnOf(MassTerms(b, bt, d, t, iz, iy, ix), jz, jy, jx);
    var v := t(jz, jy, jx);
    forall qz, qy, qx | 0 <= qz < q1 && 0 <= qy < q1 && 0 <= qx < q1
      ensures column(qz, qy, qx) == Scaled(v, Flip(terms))(qz, qy, qx)
    {
      ColumnPoint(b, bt, d, t, iz, iy, ix, jz, jy, jx, qz, qy, qx);
    }
    Sum3Ext(q1, q1, q1, column, Scaled(v, Flip(terms)));
    Sum3Scale(q1, q1, q1, v, Flip(terms));
    Sum3Flip(q1, q1, q1, terms);
    Grouped(1.0, v, Sum3(q1, q1, q1, terms));
  }

  lemma ColumnPoint(b: Table2, bt: Table2, d: Table3, t: Table3, iz: nat, iy: nat, ix: nat, jz: int, jy: int, jx: int,
                    qz: int, qy: int, qx: int)
    requires bt(iz, qz) == b(qz, iz) && bt(iy, qy) == b(qy, iy) && bt(ix, qx) == b(qx, ix)
    ensures ColumnOf(MassTerms(b, bt, d, t, iz, iy, ix), jz, jy, jx)(qz, qy, qx) ==
            Scaled(t(jz, jy, jx), Flip(EntryTerms(b, d, iz, iy, ix, jz, jy, jx)))(qz, qy, qx)
  {
    var c, c' := Coef(bt, iz, iy, ix, qz, qy, qx), Coef(b, qz, qy, qx, jz, jy, jx);
    Swapped(b(qx, ix), b(qx, jx), b(qy, iy), b(qy, jy), b(qz, iz), b(qz, jz), d(qz, qy, qx));
    assert EntryTerms(b, d, iz, iy, ix, jz, jy, jx)(qx, qy, qz) == c * d(qz, qy, qx) * c';
    Grouped(c * d(qz, qy, qx), c', t(jz, jy, jx));
  }

  /**
   * When the loaded second table is the transpose of the first, MASS3DPA applies the
   * matrix MASS3DEA assembles.
   */
  lemma StagedIsMatrix(d1: nat, q1: nat, b: Table2, bt: Table2, d: Table3, t: Table3, iz: nat, iy: nat, ix: nat)
    requires iz < d1 && iy < d1 && ix < d1
    requires forall i, q | 0 <= i < d1 && 0 <= q < q1 :: bt(i, q) == b(q, i)
    ensures Staged(d1, q1, b, bt, d, t)(iz, iy, ix) == Sum3(d1, d1, d1, MatrixRow(q1, b, d, t, iz, iy, ix))
  {
    StagedIsDirect(d1, q1, b, bt, d, t, iz, iy, ix);
    var terms := MassTerms(b, bt, d, t, iz, iy, ix);
    Sum3Swap(q1, q1, q1, d1, d1, d1, terms);
    forall jz, jy, jx
      ensures ColumnSums(q1, q1, q1, terms)(jz, jy, jx) == MatrixRow(q1, b, d, t, iz, iy, ix)(jz, jy, jx)
    {
      MassColumn(q1, b, bt, d, t, iz, iy, ix, jz, jy, jx, d1);
    }
    Sum3Ext(d1, d1, d1, ColumnSums(q1, q1, q1, terms), MatrixRow(q1, b, d, t, iz, iy, ix));
  }

  // ---- what the load of the second table reads ---------------------------------

  /** bt stores the transpose of b with the dof index fastest, one row of D per point. */
  ghost predicate StoresTranspose(bt: seq<real>, b: Table2, d1: nat, q1: nat) {
    |bt| == d1 * q1 && forall d, q | 0 <= d < d1 && 0 <= q < q1 :: TransposedAt(bt, d1, q, d) == b(q, d)
  }

  /**
   * Reading such a table through Bt_(q, d) fetches another entry of b.  The load is the
   * transpose exactly when b agrees with the entries fetched.
   */
  lemma LoadedIsTransposeIff(bt: seq<real>, b: Table2, d1: nat, q1: nat)
    requires 1 <= d1 <= q1 && StoresTranspose(bt, b, d1, q1)
    ensures (forall d, q | 0 <= d < d1 && 0 <= q < q1 :: TransposedAt(bt, d1, d, q) == b(q, d))
       <==> (forall d, q | 0 <= d < d1 && 0 <= q < q1 :: b(d + q / d1, q % d1) == b(q, d))
  {
    forall d, q | 0 <= d < d1 && 0 <= q < q1 ensures TransposedAt(bt, d1, d, q) == b(d + q / d1, q % d1) {
      FetchedEntry(bt, b, d1, q1, d, q);
    }
  }

  lemma FetchedEntry(bt: seq<real>, b: Table2, d1: nat, q1: nat, d: nat, q: nat)
    requires 1 <= d1 <= q1 && StoresTranspose(bt, b, d1, q1) && d < d1 && q < q1
    ensures TransposedAt(bt, d1, d, q) == b(d + q / d1, q % d1)
  {
    var d', q' := q % d1, d + q / d1;
    Split(q, d1);
    TransposedInRange(d1, q1, d, q);
    assert d' + d1 * q' == q + d1 * d by { assert d1 * q' == d1 * d + (q / d1) * d1; }
    if q1 <= q' { MulMonotone(q1, q', d1); }
    assert TransposedAt(bt, d1, q', d') == b(q', d');
  }

  /** A 2-by-2 table on which the load is not the transpose. */
  lemma TransposeMisread()
    ensures var bt := [1.0, 2.0, 3.0, 4.0];
            var b: Table2 := (q, d) => if 0 <= d + 2 * q < 4 then bt[d + 2 * q] else 0.0;
            StoresTranspose(bt, b, 2, 2) && TransposedAt(bt, 2, 1, 0) == 3.0 && b(0, 1) == 2.0
  {
  }
}
