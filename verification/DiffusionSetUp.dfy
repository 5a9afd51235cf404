/**
 * DIFFUSION3DPA as the benchmark sets it up, every table filled with ones: the constant G
 * is not antisymmetric, and what the kernel adds to Y is nowhere the direct sum.
 */
module DiffusionSetUp {
  import opened RealArith
  import opened Diffusion
  import opened DiffusionOperator
  import opened Elements
  import opened PackedTables
  import opened Packing
  import opened Sums

  const ONES: Table2 := (q, d) => 1.0
  const ONE: Table3 := (z, y, x) => 1.0

  // ---- what the packed array serves ----------------------------------------------

  /** B's cells hold 1 and G's cells 1 or -1. */
  ghost predicate Filled(t: Table2, q1: nat, d1: nat) {
    forall i, j | In(i, j, q1, d1) :: if i <= j then t(i, j) == 1.0 else t(i, j) == 1.0 || t(i, j) == -1.0
  }

  lemma WriteFills(t: Table2, q1: nat, d1: nat, q: int, d: int)
    requires q1 == d1 + 1 && Filled(t, q1, d1) && In(q, d, q1, d1)
    ensures Filled(Write(t, ONES, ONES, q1, d1, q, d), q1, d1)
  {
  }

  lemma {:induction false} RowFills(t: Table2, q1: nat, d1: nat, d: int, n: nat)
    requires q1 == d1 + 1 && Filled(t, q1, d1) && 0 <= d < d1 && n <= q1
    ensures Filled(AfterRow(t, ONES, ONES, q1, d1, d, n), q1, d1)
  {
    if n > 0 {
      RowFills(t, q1, d1, d, n - 1);
      WriteFills(AfterRow(t, ONES, ONES, q1, d1, d, n - 1), q1, d1, n - 1, d);
    }
  }

  lemma {:induction false} RowsFill(t: Table2, q1: nat, d1: nat, m: nat)
    requires q1 == d1 + 1 && Filled(t, q1, d1) && m <= d1
    ensures Filled(AfterRows(t, ONES, ONES, q1, d1, m), q1, d1)
  {
    if m > 0 {
      RowsFill(t, q1, d1, m - 1);
      RowFills(AfterRows(t, ONES, ONES, q1, d1, m - 1), q1, d1, m - 1, q1);
    }
  }

  /** B is served as it is; of two reflected entries of G, one is served with the wrong sign. */
  lemma SeenOfOnes(q1: nat, d1: nat, q: int, d: int)
    requires q1 == d1 + 1 && In(q, d, q1, d1)
    ensures SeenB(ONES, ONES, q1, d1)(q, d) == 1.0
    ensures SeenG(ONES, ONES, q1, d1)(q, d) == 1.0 || SeenG(ONES, ONES, q1, d1)(q, d) == -1.0
  {
    RowsFill(ONES, q1, d1, d1);
    ServedFresh(ONES, Blank, ONES, ONES, q1, d1, q, d);
    assert In(Qi(q, d, q1), Dj(q, d, d1), q1, d1) && In(Qk(q, d, q1), Dl(q, d, d1), q1, d1);
  }

  /** Reflected entries share a cell and are read with opposite signs. */
  lemma ServedOpposite(t: Table2, q1: nat, d1: nat, q: int, d: int)
    requires q1 == d1 + 1 && In(q, d, q1, d1)
    ensures ServedG(t, q1, d1)(q, d) == -ServedG(t, q1, d1)(q1 - 1 - q, d1 - 1 - d)
  {
    assert Qk(q, d, q1) == Qk(q1 - 1 - q, d1 - 1 - d, q1) && Dl(q, d, d1) == Dl(q1 - 1 - q, d1 - 1 - d, d1);
    assert Sign(q, d) == -Sign(q1 - 1 - q, d1 - 1 - d);
  }

  // ---- the direct sum over tables with B equal to one ------------------------------

  /** The sum of the three derivatives of basis function (iz, iy, ix) at point (qz, qy, qx). */
  function Slope(g: Table2, qz: int, qy: int, qx: int): Table3 {
    (z, y, x) => g(qx, x) + g(qy, y) + g(qz, z)
  }

  function TotalSlope(d1: nat, g: Table2): Table3 {
    (qz, qy, qx) => Sum3(d1, d1, d1, Slope(g, qz, qy, qx))
  }

  function PointTerm(d1: nat, g: Table2, iz: int, iy: int, ix: int): Table3 {
    (qz, qy, qx) => Slope(g, qz, qy, qx)(iz, iy, ix) * TotalSlope(d1, g)(qz, qy, qx)
  }

  function AlongAxis(g: Table2, c: nat, qz: int, qy: int, qx: int): Table3 {
    (z, y, x) => if c == 0 then g(qx, x) else if c == 1 then g(qy, y) else g(qz, z)
  }

  lemma DerivativeOfOnes(d1: nat, q1: nat, b: Table2, g: Table2, c: nat, qz: nat, qy: nat, qx: nat, t: Table3)
    requires Same(b, ONES, q1, d1) && c < 3 && qz < q1 && qy < q1 && qx < q1 && forall z, y, x :: t(z, y, x) == 1.0
    ensures Derivative(d1, b, g, c, t)(qz, qy, qx) == Sum3(d1, d1, d1, AlongAxis(g, c, qz, qy, qx))
  {
    var w := Weighted(Axis(b, g, c, 2), Axis(b, g, c, 1), Axis(b, g, c, 0), qz, qy, qx, t);
    forall z, y, x | 0 <= z < d1 && 0 <= y < d1 && 0 <= x < d1
      ensures w(z, y, x) == AlongAxis(g, c, qz, qy, qx)(z, y, x)
    {
      assert b(qz, z) == 1.0 && b(qy, y) == 1.0 && b(qx, x) == 1.0;
    }
    Sum3Ext(d1, d1, d1, w, AlongAxis(g, c, qz, qy, qx));
  }

  /** With every coefficient one, each flux component is the sum of the derivatives. */
  lemma FluxOfOnes(d1: nat, q1: nat, b: Table2, g: Table2, o: (nat, nat) -> Table3, r: nat, qz: nat, qy: nat,
                   qx: nat, t: Table3)
    requires Same(b, ONES, q1, d1) && r < 3 && qz < q1 && qy < q1 && qx < q1 && forall z, y, x :: t(z, y, x) == 1.0
    requires forall c: nat | c < 3 :: o(r, c)(qz, qy, qx) == 1.0
    ensures FluxAt(d1, b, g, o, t, r)(qz, qy, qx) == TotalSlope(d1, g)(qz, qy, qx)
  {
    DerivativeOfOnes(d1, q1, b, g, 0, qz, qy, qx, t);
    DerivativeOfOnes(d1, q1, b, g, 1, qz, qy, qx, t);
    DerivativeOfOnes(d1, q1, b, g, 2, qz, qy, qx, t);
    Sum3OfThree(d1, Slope(g, qz, qy, qx), AlongAxis(g, 0, qz, qy, qx), AlongAxis(g, 1, qz, qy, qx),
                AlongAxis(g, 2, qz, qy, qx));
  }

  function PartTerm(d1: nat, g: Table2, r: nat, iz: int, iy: int, ix: int): Table3 {
    (qz, qy, qx) => AlongAxis(g, r, qz, qy, qx)(iz, iy, ix) * TotalSlope(d1, g)(qz, qy, qx)
  }

  lemma PartOfOnes(d1: nat, q1: nat, b: Table2, g: Table2, o: (nat, nat) -> Table3, r: nat, iz: nat, iy: nat,
                   ix: nat, t: Table3)
    requires Same(b, ONES, q1, d1) && r < 3 && iz < d1 && iy < d1 && ix < d1 && forall z, y, x :: t(z, y, x) == 1.0
    requires forall c: nat, z, y, x | c < 3 :: o(r, c)(z, y, x) == 1.0
    ensures DirectPart(d1, q1, b, g, o, t, r)(iz, iy, ix) == Sum3(q1, q1, q1, PartTerm(d1, g, r, iz, iy, ix))
  {
    var f := FluxAt(d1, b, g, o, t, r);
    var w := Weighted(Turned(Axis(b, g, r, 2)), Turned(Axis(b, g, r, 1)), Turned(Axis(b, g, r, 0)), iz, iy, ix, f);
    forall qz: nat, qy: nat, qx: nat | qz < q1 && qy < q1 && qx < q1
      ensures w(qz, qy, qx) == PartTerm(d1, g, r, iz, iy, ix)(qz, qy, qx)
    {
      FluxOfOnes(d1, q1, b, g, o, r, qz, qy, qx, t);
      assert b(qz, iz) == 1.0 && b(qy, iy) == 1.0 && b(qx, ix) == 1.0;
    }
    Sum3Ext(q1, q1, q1, w, PartTerm(d1, g, r, iz, iy, ix));
  }

  lemma DirectOfOnes(d1: nat, q1: nat, b: Table2, g: Table2, o: (nat, nat) -> Table3, iz: nat, iy: nat,
                     ix: nat, t: Table3)
    requires Same(b, ONES, q1, d1) && iz < d1 && iy < d1 && ix < d1 && forall z, y, x :: t(z, y, x) == 1.0
    requires forall r: nat, c: nat, z, y, x | r < 3 && c < 3 :: o(r, c)(z, y, x) == 1.0
    ensures Direct(d1, q1, b, g, o, t)(iz, iy, ix) == Sum3(q1, q1, q1, PointTerm(d1, g, iz, iy, ix))
  {
    PartOfOnes(d1, q1, b, g, o, 0, iz, iy, ix, t);
    PartOfOnes(d1, q1, b, g, o, 1, iz, iy, ix, t);
    PartOfOnes(d1, q1, b, g, o, 2, iz, iy, ix, t);
    ThreeParts(d1, q1, g, iz, iy, ix);
  }

  lemma ThreeParts(d1: nat, q1: nat, g: Table2, iz: int, iy: int, ix: int)
    ensures Sum3(q1, q1, q1, PointTerm(d1, g, iz, iy, ix)) ==
            Sum3(q1, q1, q1, PartTerm(d1, g, 0, iz, iy, ix)) + Sum3(q1, q1, q1, PartTerm(d1, g, 1, iz, iy, ix))
            + Sum3(q1, q1, q1, PartTerm(d1, g, 2, iz, iy, ix))
  {
    var f := PointTerm(d1, g, iz, iy, ix);
    var f0, f1, f2 := PartTerm(d1, g, 0, iz, iy, ix), PartTerm(d1, g, 1, iz, iy, ix), PartTerm(d1, g, 2, iz, iy, ix);
    forall qz, qy, qx ensures f(qz, qy, qx) == f0(qz, qy, qx) + f1(qz, qy, qx) + f2(qz, qy, qx) {
      PointParts(d1, g, iz, iy, ix, qz, qy, qx, TotalSlope(d1, g)(qz, qy, qx));
    }
    Sum3OfThree(q1, f, f0, f1, f2);
  }

  lemma PointParts(d1: nat, g: Table2, iz: int, iy: int, ix: int, qz: int, qy: int, qx: int, total: real)
    requires total == TotalSlope(d1, g)(qz, qy, qx)
    ensures PointTerm(d1, g, iz, iy, ix)(qz, qy, qx) == PartTerm(d1, g, 0, iz, iy, ix)(qz, qy, qx)
            + PartTerm(d1, g, 1, iz, iy, ix)(qz, qy, qx) + PartTerm(d1, g, 2, iz, iy, ix)(qz, qy, qx)
  {
    var a, b, c := g(qx, ix), g(qy, iy), g(qz, iz);
    Distribute3(total, a, b, c);
    assert PointTerm(d1, g, iz, iy, ix)(qz, qy, qx) == (a + b + c) * total;
    assert PartTerm(d1, g, 0, iz, iy, ix)(qz, qy, qx) == a * total;
    assert PartTerm(d1, g, 1, iz, iy, ix)(qz, qy, qx) == b * total;
    assert PartTerm(d1, g, 2, iz, iy, ix)(qz, qy, qx) == c * total;
  }

  // ---- the comparison ---------------------------------------------------------------

  /** A table of signs, opposite at reflected places. */
  ghost predicate Signs(g: Table2, q1: nat, d1: nat) {
    forall q, d | In(q, d, q1, d1) :: (g(q, d) == 1.0 || g(q, d) == -1.0) && g(q, d) == -g(q1 - 1 - q, d1 - 1 - d)
  }

  lemma SlopeOfOnes(qz: int, qy: int, qx: int, z: int, y: int, x: int)
    ensures Slope(ONES, qz, qy, qx)(z, y, x) == 3.0
  {
  }

  lemma SlopeBounds(d1: nat, q1: nat, g: Table2, qz: nat, qy: nat, qx: nat, z: nat, y: nat, x: nat)
    requires Signs(g, q1, d1) && qz < q1 && qy < q1 && qx < q1 && z < d1 && y < d1 && x < d1
    ensures -3.0 <= Slope(g, qz, qy, qx)(z, y, x) <= 3.0
  {
    assert In(qz, z, q1, d1) && In(qy, y, q1, d1) && In(qx, x, q1, d1);
  }

  lemma AllSlopeBounds(d1: nat, q1: nat, g: Table2, qz: nat, qy: nat, qx: nat)
    requires Signs(g, q1, d1) && qz < q1 && qy < q1 && qx < q1
    ensures forall z, y, x | 0 <= z < d1 && 0 <= y < d1 && 0 <= x < d1 ::
              -Slope(ONES, qz, qy, qx)(z, y, x) <= Slope(g, qz, qy, qx)(z, y, x) <= Slope(ONES, qz, qy, qx)(z, y, x)
  {
    var f, c := Slope(g, qz, qy, qx), Slope(ONES, qz, qy, qx);
    forall z: nat, y: nat, x: nat | z < d1 && y < d1 && x < d1 ensures -c(z, y, x) <= f(z, y, x) <= c(z, y, x) {
      SlopeBounds(d1, q1, g, qz, qy, qx, z, y, x);
      SlopeOfOnes(qz, qy, qx, z, y, x);
    }
  }

  lemma TotalSlopeBounds(d1: nat, q1: nat, g: Table2, qz: nat, qy: nat, qx: nat)
    requires Signs(g, q1, d1) && qz < q1 && qy < q1 && qx < q1
    ensures -TotalSlope(d1, ONES)(qz, qy, qx) <= TotalSlope(d1, g)(qz, qy, qx) <= TotalSlope(d1, ONES)(qz, qy, qx)
  {
    AllSlopeBounds(d1, q1, g, qz, qy, qx);
    Sum3Between(d1, Slope(g, qz, qy, qx), Slope(ONES, qz, qy, qx));
  }

  /** At the corner point (q1 - 1, 0, 0) the derivatives cannot all have one sign. */
  lemma CornerSlope(d1: nat, q1: nat, g: Table2)
    requires d1 >= 1 && q1 == d1 + 1 && Signs(g, q1, d1)
    ensures -TotalSlope(d1, ONES)(0, 0, q1 - 1) < TotalSlope(d1, g)(0, 0, q1 - 1) < TotalSlope(d1, ONES)(0, 0, q1 - 1)
  {
    AllSlopeBounds(d1, q1, g, 0, 0, q1 - 1);
    MixedSigns(d1, q1, g);
    Sum3StrictlyBetween(d1, Slope(g, 0, 0, q1 - 1), Slope(ONES, 0, 0, q1 - 1), 0, 0, d1 - 1);
  }

  lemma MixedSigns(d1: nat, q1: nat, g: Table2)
    requires d1 >= 1 && q1 == d1 + 1 && Signs(g, q1, d1)
    ensures var f, c := Slope(g, 0, 0, q1 - 1)(0, 0, d1 - 1), Slope(ONES, 0, 0, q1 - 1)(0, 0, d1 - 1); -c < f < c
  {
    assert In(0, 0, q1, d1);
    assert g(0, 0) == -g(q1 - 1 - 0, d1 - 1 - 0);
    assert Slope(g, 0, 0, q1 - 1)(0, 0, d1 - 1) == g(q1 - 1, d1 - 1) + g(0, 0) + g(0, 0);
    SlopeOfOnes(0, 0, q1 - 1, 0, 0, d1 - 1);
  }

  lemma ProductBound(a: real, f: real, c: real)
    requires -3.0 <= a <= 3.0 && -c <= f <= c
    ensures a * f <= 3.0 * c && (-c < f < c ==> a * f < 3.0 * c)
  {
    if a >= 0.0 { ProductOf(a, f, c); } else { ProductOf(-a, -f, c); assert a * f == (-a) * (-f); }
  }

  lemma ProductOf(a: real, f: real, c: real)
    requires 0.0 <= a <= 3.0 && -c <= f <= c
    ensures a * f <= 3.0 * c && (f < c && -c < f ==> a * f < 3.0 * c)
  {
    assert a * (c - f) >= 0.0 && (3.0 - a) * c >= 0.0;
    if f < c && -c < f && a > 0.0 { assert a * (c - f) > 0.0; }
  }

  lemma TermBelow(d1: nat, g: Table2, iz: int, iy: int, ix: int, qz: int, qy: int, qx: int, a: real, f: real, c: real)
    requires a == Slope(g, qz, qy, qx)(iz, iy, ix) && f == TotalSlope(d1, g)(qz, qy, qx)
    requires c == TotalSlope(d1, ONES)(qz, qy, qx) && -3.0 <= a <= 3.0 && -c <= f <= c
    ensures PointTerm(d1, g, iz, iy, ix)(qz, qy, qx) <= PointTerm(d1, ONES, iz, iy, ix)(qz, qy, qx)
    ensures -c < f < c ==> PointTerm(d1, g, iz, iy, ix)(qz, qy, qx) < PointTerm(d1, ONES, iz, iy, ix)(qz, qy, qx)
  {
    ProductBound(a, f, c);
    assert PointTerm(d1, g, iz, iy, ix)(qz, qy, qx) == a * f;
    SlopeOfOnes(qz, qy, qx, iz, iy, ix);
    assert PointTerm(d1, ONES, iz, iy, ix)(qz, qy, qx) == 3.0 * c;
  }

  /** At every point the kernel's term is at most the direct one. */
  lemma PointBelow(d1: nat, q1: nat, g: Table2, iz: nat, iy: nat, ix: nat, qz: nat, qy: nat, qx: nat)
    requires Signs(g, q1, d1) && iz < d1 && iy < d1 && ix < d1 && qz < q1 && qy < q1 && qx < q1
    ensures PointTerm(d1, g, iz, iy, ix)(qz, qy, qx) <= PointTerm(d1, ONES, iz, iy, ix)(qz, qy, qx)
  {
    SlopeBounds(d1, q1, g, qz, qy, qx, iz, iy, ix);
    TotalSlopeBounds(d1, q1, g, qz, qy, qx);
    TermBelow(d1, g, iz, iy, ix, qz, qy, qx,
              Slope(g, qz, qy, qx)(iz, iy, ix), TotalSlope(d1, g)(qz, qy, qx), TotalSlope(d1, ONES)(qz, qy, qx));
  }

  lemma CornerBelow(d1: nat, q1: nat, g: Table2, iz: nat, iy: nat, ix: nat)
    requires d1 >= 1 && q1 == d1 + 1 && Signs(g, q1, d1) && iz < d1 && iy < d1 && ix < d1
    ensures PointTerm(d1, g, iz, iy, ix)(0, 0, q1 - 1) < PointTerm(d1, ONES, iz, iy, ix)(0, 0, q1 - 1)
  {
    SlopeBounds(d1, q1, g, 0, 0, q1 - 1, iz, iy, ix);
    CornerSlope(d1, q1, g);
    TermBelow(d1, g, iz, iy, ix, 0, 0, q1 - 1,
              Slope(g, 0, 0, q1 - 1)(iz, iy, ix), TotalSlope(d1, g)(0, 0, q1 - 1), TotalSlope(d1, ONES)(0, 0, q1 - 1));
  }

  lemma SumsBelow(d1: nat, q1: nat, g: Table2, iz: nat, iy: nat, ix: nat)
    requires d1 >= 1 && q1 == d1 + 1 && Signs(g, q1, d1) && iz < d1 && iy < d1 && ix < d1
    ensures Sum3(q1, q1, q1, PointTerm(d1, g, iz, iy, ix)) < Sum3(q1, q1, q1, PointTerm(d1, ONES, iz, iy, ix))
  {
    var f, c := PointTerm(d1, g, iz, iy, ix), PointTerm(d1, ONES, iz, iy, ix);
    forall qz: nat, qy: nat, qx: nat | qz < q1 && qy < q1 && qx < q1 ensures f(qz, qy, qx) <= c(qz, qy, qx) {
      PointBelow(d1, q1, g, iz, iy, ix, qz, qy, qx);
    }
    CornerBelow(d1, q1, g, iz, iy, ix);
    Sum3Below(q1, f, c, 0, 0, q1 - 1);
  }

  lemma SeenAreSigns(d1: nat, q1: nat)
    requires q1 == d1 + 1
    ensures Same(SeenB(ONES, ONES, q1, d1), ONES, q1, d1) && Signs(SeenG(ONES, ONES, q1, d1), q1, d1)
  {
    var b, g := SeenB(ONES, ONES, q1, d1), SeenG(ONES, ONES, q1, d1);
    forall q, d | In(q, d, q1, d1)
      ensures b(q, d) == ONES(q, d) && (g(q, d) == 1.0 || g(q, d) == -1.0)
      ensures g(q, d) == -g(q1 - 1 - q, d1 - 1 - d)
    {
      SeenOfOnes(q1, d1, q, d);
      ServedOpposite(Loaded(Blank, ONES, ONES, q1, d1), q1, d1, q, d);
    }
  }

  /**
   * For any number of dofs, at the benchmark's set-up the kernel adds less than the direct
   * sum to every entry of every element.
   */
  lemma BenchmarkMissed(e: nat, d1: nat, q1: nat, sym: nat, symmetric: bool, iz: nat, iy: nat, ix: nat)
    requires d1 >= 1 && q1 == d1 + 1 && iz < d1 && iy < d1 && ix < d1
    ensures Action(ONES, ONES, ONE, ONE, e, d1, q1, sym, symmetric)(iz, iy, ix) <
            Direct(d1, q1, ONES, ONES, Material(ONE, e, sym, q1, symmetric), Element(ONE, e, d1))(iz, iy, ix)
  {
    SeenAreSigns(d1, q1);
    ActionOfOnes(e, d1, q1, sym, symmetric, iz, iy, ix);
    DirectOfOnes(d1, q1, ONES, ONES, Material(ONE, e, sym, q1, symmetric), iz, iy, ix, Element(ONE, e, d1));
    SumsBelow(d1, q1, SeenG(ONES, ONES, q1, d1), iz, iy, ix);
  }

  lemma ActionOfOnes(e: nat, d1: nat, q1: nat, sym: nat, symmetric: bool, iz: nat, iy: nat, ix: nat)
    requires Same(SeenB(ONES, ONES, q1, d1), ONES, q1, d1) && iz < d1 && iy < d1 && ix < d1
    ensures Action(ONES, ONES, ONE, ONE, e, d1, q1, sym, symmetric)(iz, iy, ix) ==
            Sum3(q1, q1, q1, PointTerm(d1, SeenG(ONES, ONES, q1, d1), iz, iy, ix))
  {
    var o, t := Material(ONE, e, sym, q1, symmetric), Element(ONE, e, d1);
    var sb, sg := SeenB(ONES, ONES, q1, d1), SeenG(ONES, ONES, q1, d1);
    StagedIsDirect(d1, q1, sb, sg, o, t, iz, iy, ix);
    DirectOfOnes(d1, q1, sb, sg, o, iz, iy, ix, t);
  }
}
