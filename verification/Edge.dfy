/**
 * EDGE3D: a symmetric element matrix accumulated over quadrature points in an array whose
 * lower triangle starts uninitialised.
 */
module Edge {
  import Jacobian
  import opened Quadrature
  import opened Sums

  /** Three components of the basis functions at one point. */
  datatype Basis = Basis(x: seq<real>, y: seq<real>, z: seq<real>) {

    predicate Has(n: nat) {
      |x| == |y| == |z| == n
    }
  }

  function Inner(b2: Basis, p: int, b1: Basis, m: int): real {
    if 0 <= p < |b2.x| && b2.Has(|b2.x|) && 0 <= m < |b1.x| && b1.Has(|b1.x|)
    then b2.x[p] * b1.x[m] + b2.y[p] * b1.y[m] + b2.z[p] * b1.z[m] else 0.0
  }

  // ---- the inner product -------------------------------------------------------------------

  /** The upper triangle shows u; the lower one mirrors it if `full`, and is `low` otherwise. */
  ghost predicate Upper(a: array2<Cell>, u: Table2, full: bool)
    reads a
  {
    a.Length0 == a.Length1 && forall p, m | 0 <= p <= m < a.Length0 ::
      a[p, m] == Value(u(p, m)) && (full ==> a[m, p] == Value(u(p, m)))
  }

  function Plus(u: Table2, weight: real, b1: Basis, b2: Basis): Table2 {
    (p, m) => u(p, m) + weight * Inner(b2, p, b1, m)
  }

  /** Rows before r are finished, and in row r the columns before c. */
  ghost predicate Passed(a: array2<Cell>, u: Table2, v: Table2, r: int, c: int)
    reads a
  {
    a.Length0 == a.Length1 && forall p, m | 0 <= p <= m < a.Length0 ::
      if p < r || (p == r && m < c) then a[p, m] == Value(v(p, m)) && a[m, p] == Value(v(p, m))
      else a[p, m] == Value(u(p, m))
  }

  /** One entry and its mirror image. */
  method AddEntry(a: array2<Cell>, weight: real, b1: Basis, b2: Basis, p: nat, m: nat, ghost u: Table2)
    requires p <= m < a.Length0 == a.Length1 && b1.Has(a.Length0) && b2.Has(a.Length0)
    requires Passed(a, u, Plus(u, weight, b1, b2), p, m)
    modifies a
    ensures Passed(a, u, Plus(u, weight, b1, b2), p, m + 1)
  {
    var inner := b2.x[p] * b1.x[m] + b2.y[p] * b1.y[m] + b2.z[p] * b1.z[m];
    assert inner == Inner(b2, p, b1, m);
    a[p, m] := Value(a[p, m].v + weight * inner);
    if m > p {
      a[m, p] := a[p, m];
    }
  }

  /**
   * The symmetric branch of inner_product: only the upper triangle is read, so it alone need
   * be set, and the whole matrix is set afterwards.
   */
  method InnerProduct(weight: real, b1: Basis, b2: Basis, a: array2<Cell>, ghost u: Table2, ghost full: bool)
    requires b1.Has(a.Length0) && b2.Has(a.Length0) && Upper(a, u, full)
    modifies a
    ensures Upper(a, Plus(u, weight, b1, b2), a.Length0 > 0 || full)
  {
    ghost var v := Plus(u, weight, b1, b2);
    for p := 0 to a.Length0
      invariant Passed(a, u, v, p, p)
    {
      for m := p to a.Length1
        invariant Passed(a, u, v, p, m)
      {
        AddEntry(a, weight, b1, b2, p, m, u);
      }
    }
  }

  /** The general branch: every entry is read, so every entry must be set. */
  method InnerProductGeneral(weight: real, b1: Basis, b2: Basis, a: array2<Cell>, ghost u: Table2)
    requires b1.Has(a.Length1) && b2.Has(a.Length0)
    requires forall p, m | 0 <= p < a.Length0 && 0 <= m < a.Length1 :: a[p, m] == Value(u(p, m))
    modifies a
    ensures forall p, m | 0 <= p < a.Length0 && 0 <= m < a.Length1 :: a[p, m] == Value(Plus(u, weight, b1, b2)(p, m))
  {
    ghost var v := Plus(u, weight, b1, b2);
    for p := 0 to a.Length0
      invariant forall r, m | 0 <= r < a.Length0 && 0 <= m < a.Length1 ::
                  a[r, m] == Value(if r < p then v(r, m) else u(r, m))
    {
      for m := 0 to a.Length1
        invariant forall r, c | 0 <= r < a.Length0 && 0 <= c < a.Length1 ::
                    a[r, c] == Value(if r < p || (r == p && c < m) then v(r, c) else u(r, c))
      {
        a[p, m] := Value(a[p, m].v + weight * (b2.x[p] * b1.x[m] + b2.y[p] * b1.y[m] + b2.z[p] * b1.z[m]));
      }
    }
  }

  // ---- the quadrature loops ------------------------------------------------------------------

  /** What a quadrature point brings: the Jacobian determinant and the two transformed bases. */
  datatype Point = Point(detj: real, edge: Basis, curl: Basis)

  /** The inputs of edge_MpSmatrix; division is a parameter. */
  datatype Zone = Zone(n: nat, at: (int, int, int) -> Point, detjCc: real, tol: real, alpha: real, beta: real,
                       div: (real, real) -> real) {

    ghost predicate Valid(order: int) {
      forall i, j, k | 0 <= i < order && 0 <= j < order && 0 <= k < order ::
            at(i, j, k).edge.Has(n) && at(i, j, k).curl.Has(n)
    }

    /** detjwgts at point (i, j, k), with the one-dimensional weights w. */
    function Weight(w: seq<real>, i: int, j: int, k: int): real {
      if 0 <= i < |w| && 0 <= j < |w| && 0 <= k < |w| then
        w[i] * w[j] * w[k] * Jacobian.BadZone(at(i, j, k).detj, detjCc, tol, div).abs
      else 0.0
    }

    /** What point (i, j, k) adds to entry (p, m). */
    function Term(w: seq<real>, p: int, m: int): Table3 {
      (i, j, k) =>
        Weight(w, i, j, k) * alpha * Inner(at(i, j, k).edge, p, at(i, j, k).edge, m)
        + Weight(w, i, j, k) * beta * Inner(at(i, j, k).curl, p, at(i, j, k).curl, m)
    }

    /** The weighted Gram sum: entry (p, m) of the element matrix. */
    function Gram(w: seq<real>, order: nat, p: int, m: int): real {
      Sum3(order, order, order, Term(w, p, m))
    }
  }

  function Points(z: Zone, w: seq<real>, p: int, m: int, i: int, j: int): int -> real {
    (k: int) => z.Term(w, p, m)(i, j, k)
  }

  function Rows(z: Zone, w: seq<real>, p: int, m: int, i: int): int -> real {
    (j: int) => Row(|w|, z.Term(w, p, m), i, j)
  }

  function Planes(z: Zone, w: seq<real>, p: int, m: int): int -> real {
    (i: int) => Plane(|w|, |w|, z.Term(w, p, m), i)
  }

  function PointAdded(z: Zone, w: seq<real>, i: int, j: int, k: int, u: Table2): Table2 {
    (p, m) => u(p, m) + z.Term(w, p, m)(i, j, k)
  }

  /** u with what the first k points of a row, or the first j rows of a plane, or the first i planes add. */
  function RowsAdded(z: Zone, w: seq<real>, i: int, j: int, k: nat, u: Table2): Table2 {
    (p, m) => u(p, m) + Sum(k, Points(z, w, p, m, i, j))
  }

  function PlanesAdded(z: Zone, w: seq<real>, i: int, j: nat, u: Table2): Table2 {
    (p, m) => u(p, m) + Sum(j, Rows(z, w, p, m, i))
  }

  function AllAdded(z: Zone, w: seq<real>, i: nat, u: Table2): Table2 {
    (p, m) => u(p, m) + Sum(i, Planes(z, w, p, m))
  }

  lemma UpperExt(a: array2<Cell>, u: Table2, v: Table2, full: bool)
    requires Upper(a, u, full) && forall p, m | 0 <= p <= m < a.Length0 :: u(p, m) == v(p, m)
    ensures Upper(a, v, full)
  {
  }

  /** The two inner products at one point. */
  method AddPoint(z: Zone, w: seq<real>, i: nat, j: nat, k: nat, wgts: real, a: array2<Cell>, ghost u: Table2,
                  ghost full: bool)
    requires i < |w| && j < |w| && k < |w| && z.at(i, j, k).edge.Has(z.n) && z.at(i, j, k).curl.Has(z.n)
    requires wgts == w[i] * w[j] * w[k] && a.Length0 == z.n >= 1 && Upper(a, u, full)
    modifies a
    ensures Upper(a, PointAdded(z, w, i, j, k, u), true)
  {
    var point := z.at(i, j, k);
    var detjwgts := wgts * Jacobian.BadZone(point.detj, z.detjCc, z.tol, z.div).abs;
    InnerProduct(detjwgts * z.alpha, point.edge, point.edge, a, u, full);
    ghost var v := Plus(u, detjwgts * z.alpha, point.edge, point.edge);
    InnerProduct(detjwgts * z.beta, point.curl, point.curl, a, v, true);
    UpperExt(a, Plus(v, detjwgts * z.beta, point.curl, point.curl), PointAdded(z, w, i, j, k, u), true);
  }

  /** The innermost loop adds a row of the triple sum, the middle one a plane. */
  method AddRow(z: Zone, w: seq<real>, i: nat, j: nat, wgtxy: real, a: array2<Cell>, ghost u: Table2, ghost full: bool)
    requires i < |w| && j < |w| && z.Valid(|w|) && wgtxy == w[i] * w[j] && a.Length0 == z.n >= 1 && Upper(a, u, full)
    modifies a
    ensures Upper(a, RowsAdded(z, w, i, j, |w|, u), full || |w| > 0)
  {
    UpperExt(a, u, RowsAdded(z, w, i, j, 0, u), full);
    for k := 0 to |w|
      invariant Upper(a, RowsAdded(z, w, i, j, k, u), full || k > 0)
    {
      var wgts := wgtxy * w[k];
      ghost var v := RowsAdded(z, w, i, j, k, u);
      AddPoint(z, w, i, j, k, wgts, a, v, full || k > 0);
      NextPoint(z, w, i, j, k, u);
      UpperExt(a, PointAdded(z, w, i, j, k, v), RowsAdded(z, w, i, j, k + 1, u), true);
    }
  }

  method AddPlane(z: Zone, w: seq<real>, i: nat, a: array2<Cell>, ghost u: Table2, ghost full: bool)
    requires i < |w| && z.Valid(|w|) && a.Length0 == z.n >= 1 && Upper(a, u, full)
    modifies a
    ensures Upper(a, PlanesAdded(z, w, i, |w|, u), full || |w| > 0)
  {
    UpperExt(a, u, PlanesAdded(z, w, i, 0, u), full);
    for j := 0 to |w|
      invariant Upper(a, PlanesAdded(z, w, i, j, u), full || j > 0)
    {
      var wgtxy := w[i] * w[j];
      ghost var v := PlanesAdded(z, w, i, j, u);
      AddRow(z, w, i, j, wgtxy, a, v, full || j > 0);
      NextRow(z, w, i, j, u);
      UpperExt(a, RowsAdded(z, w, i, j, |w|, v), PlanesAdded(z, w, i, j + 1, u), true);
    }
  }

  lemma NextPoint(z: Zone, w: seq<real>, i: int, j: int, k: nat, u: Table2)
    ensures forall p, m ::
              PointAdded(z, w, i, j, k, RowsAdded(z, w, i, j, k, u))(p, m) == RowsAdded(z, w, i, j, k + 1, u)(p, m)
  {
    forall p, m
      ensures PointAdded(z, w, i, j, k, RowsAdded(z, w, i, j, k, u))(p, m) == RowsAdded(z, w, i, j, k + 1, u)(p, m)
    {
      var f := Points(z, w, p, m, i, j);
      assert Sum(k + 1, f) == Sum(k, f) + f(k);
    }
  }

  lemma RowIsSum(z: Zone, w: seq<real>, p: int, m: int, i: int, j: int)
    ensures Sum(|w|, Points(z, w, p, m, i, j)) == Row(|w|, z.Term(w, p, m), i, j)
  {
    var f := z.Term(w, p, m);
    SumExt(|w|, Points(z, w, p, m, i, j), (x: int) => f(i, j, x));
  }

  lemma PlaneIsSum(z: Zone, w: seq<real>, p: int, m: int, i: int)
    ensures Sum(|w|, Rows(z, w, p, m, i)) == Plane(|w|, |w|, z.Term(w, p, m), i)
  {
    var nx, f := |w|, z.Term(w, p, m);
    SumExt(|w|, Rows(z, w, p, m, i), (y: int) => Row(nx, f, i, y));
  }

  lemma GramIsSum(z: Zone, w: seq<real>, p: int, m: int)
    ensures Sum(|w|, Planes(z, w, p, m)) == z.Gram(w, |w|, p, m)
  {
    var ny, nx, f := |w|, |w|, z.Term(w, p, m);
    SumExt(|w|, Planes(z, w, p, m), (x: int) => Plane(ny, nx, f, x));
  }

  lemma NextRow(z: Zone, w: seq<real>, i: int, j: nat, u: Table2)
    ensures forall p, m ::
              RowsAdded(z, w, i, j, |w|, PlanesAdded(z, w, i, j, u))(p, m) == PlanesAdded(z, w, i, j + 1, u)(p, m)
  {
    forall p, m
      ensures RowsAdded(z, w, i, j, |w|, PlanesAdded(z, w, i, j, u))(p, m) == PlanesAdded(z, w, i, j + 1, u)(p, m)
    {
      RowIsSum(z, w, p, m, i, j);
      var f := Rows(z, w, p, m, i);
      assert Sum(j + 1, f) == Sum(j, f) + f(j);
    }
  }

  lemma NextPlane(z: Zone, w: seq<real>, i: nat, u: Table2)
    ensures forall p, m :: PlanesAdded(z, w, i, |w|, AllAdded(z, w, i, u))(p, m) == AllAdded(z, w, i + 1, u)(p, m)
  {
    forall p, m ensures PlanesAdded(z, w, i, |w|, AllAdded(z, w, i, u))(p, m) == AllAdded(z, w, i + 1, u)(p, m) {
      PlaneIsSum(z, w, p, m, i);
      var f := Planes(z, w, p, m);
      assert Sum(i + 1, f) == Sum(i, f) + f(i);
    }
  }

  function Zero(p: int, m: int): real {
    0.0
  }

  /** The entries below the diagonal are what they were. */
  ghost predicate LowerKept(a: array2<Cell>, low: (int, int) -> Cell)
    reads a
  {
    a.Length0 == a.Length1 && forall p, m | 0 <= m < p < a.Length0 :: a[p, m] == low(p, m)
  }

  /** The first loop nest: the upper triangle is cleared and the lower one left alone. */
  method ClearUpper(a: array2<Cell>, ghost low: (int, int) -> Cell)
    requires LowerKept(a, low)
    modifies a
    ensures Upper(a, Zero, false) && LowerKept(a, low)
  {
    for m := 0 to a.Length0
      invariant forall r, c | 0 <= r <= c < a.Length0 && r < m :: a[r, c] == Value(0.0)
      invariant LowerKept(a, low)
    {
      for p := m to a.Length1
        invariant forall r, c | 0 <= r <= c < a.Length0 && (r < m || (r == m && c < p)) :: a[r, c] == Value(0.0)
        invariant LowerKept(a, low)
      {
        a[m, p] := Value(0.0);
      }
    }
  }

  /** Every entry holds its weighted Gram sum; the matrix is fully set and symmetric. */
  ghost predicate IsGram(a: array2<Cell>, z: Zone, w: seq<real>)
    reads a
  {
    a.Length0 == a.Length1 == z.n && forall p, m | 0 <= p < z.n && 0 <= m < z.n ::
          a[p, m] == Value(z.Gram(w, |w|, p, m))
  }

  lemma NoneAdded(z: Zone, w: seq<real>, a: array2<Cell>)
    requires Upper(a, Zero, false)
    ensures Upper(a, AllAdded(z, w, 0, Zero), false)
  {
    UpperExt(a, Zero, AllAdded(z, w, 0, Zero), false);
  }

  /** The three quadrature loops over a cleared matrix. */
  method AddAllPoints(z: Zone, w: seq<real>, a: array2<Cell>, ghost low: (int, int) -> Cell)
    requires z.Valid(|w|) && a.Length0 == z.n >= 1 && Upper(a, Zero, false) && LowerKept(a, low)
    modifies a
    ensures Upper(a, AllAdded(z, w, |w|, Zero), |w| > 0)
    ensures |w| == 0 ==> LowerKept(a, low)
  {
    NoneAdded(z, w, a);
    for i := 0 to |w|
      invariant i == 0 ==> LowerKept(a, low)
      invariant Upper(a, AllAdded(z, w, i, Zero), i > 0)
    {
      AddNextPlane(z, w, i, a);
    }
  }

  method AddNextPlane(z: Zone, w: seq<real>, i: nat, a: array2<Cell>)
    requires i < |w| && z.Valid(|w|) && a.Length0 == z.n >= 1 && Upper(a, AllAdded(z, w, i, Zero), i > 0)
    modifies a
    ensures Upper(a, AllAdded(z, w, i + 1, Zero), true)
  {
    ghost var v := AllAdded(z, w, i, Zero);
    AddPlane(z, w, i, a, v, i > 0);
    NextPlane(z, w, i, Zero);
    UpperExt(a, PlanesAdded(z, w, i, |w|, v), AllAdded(z, w, i + 1, Zero), true);
  }

  /**
   * edge_MpSmatrix from the quadrature loops on.  With at least one point the whole matrix is
   * set, whatever it held; with none the lower triangle still holds what it held.
   */
  method BuildMatrix(z: Zone, w: seq<real>, a: array2<Cell>, ghost low: (int, int) -> Cell)
    requires z.Valid(|w|) && a.Length0 == z.n >= 1 && LowerKept(a, low)
    modifies a
    ensures |w| >= 1 ==> IsGram(a, z, w)
    ensures |w| == 0 ==> Upper(a, Zero, false) && LowerKept(a, low)
  {
    ClearUpper(a, low);
    AddAllPoints(z, w, a, low);
    if |w| >= 1 {
      GramFilled(z, w, a);
    } else {
      UpperExt(a, AllAdded(z, w, 0, Zero), Zero, false);
    }
  }

  lemma AllIsGram(z: Zone, w: seq<real>, p: int, m: int)
    ensures AllAdded(z, w, |w|, Zero)(p, m) == z.Gram(w, |w|, p, m)
  {
    GramIsSum(z, w, p, m);
    assert Zero(p, m) == 0.0;
  }

  lemma GramFilled(z: Zone, w: seq<real>, a: array2<Cell>)
    requires z.Valid(|w|) && a.Length0 == a.Length1 == z.n && Upper(a, AllAdded(z, w, |w|, Zero), true)
    ensures IsGram(a, z, w)
  {
    forall p, m | 0 <= p < z.n && 0 <= m < z.n ensures a[p, m] == Value(z.Gram(w, |w|, p, m)) {
      AllIsGram(z, w, p, m);
      AllIsGram(z, w, m, p);
      GramSymmetric(z, w, |w|, p, m);
    }
  }

  lemma GramSymmetric(z: Zone, w: seq<real>, order: nat, p: int, m: int)
    requires z.Valid(order) && 0 <= p < z.n && 0 <= m < z.n
    ensures z.Gram(w, order, p, m) == z.Gram(w, order, m, p)
  {
    forall i, j, k | 0 <= i < order && 0 <= j < order && 0 <= k < order
      ensures z.Term(w, p, m)(i, j, k) == z.Term(w, m, p)(i, j, k)
    {
      InnerSymmetric(z.at(i, j, k).edge, p, m);
      InnerSymmetric(z.at(i, j, k).curl, p, m);
    }
    Sum3Ext(order, order, order, z.Term(w, p, m), z.Term(w, m, p));
  }

  lemma InnerSymmetric(b: Basis, p: int, m: int)
    ensures Inner(b, p, b, m) == Inner(b, m, b, p)
  {
  }
}
