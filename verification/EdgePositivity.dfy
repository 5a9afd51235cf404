/** The element matrix of EDGE3D is positive semidefinite, so the kernel's sum is not negative. */
module EdgePositivity {
  import opened RealArith
  import opened Edge
  import Jacobian
  import opened Quadrature
  import opened Sums

  // ---- one basis -----------------------------------------------------------------------------

  /** v . component, over the first k functions. */
  function Along(v: int -> real, s: seq<real>): int -> real {
    (p: int) => v(p) * At(s, p)
  }

  function Pairs(v: int -> real, b: Basis, m: int): int -> real {
    (p: int) => v(m) * v(p) * Inner(b, m, b, p)
  }

  lemma {:induction false} PairsSum(k: nat, v: int -> real, b: Basis, m: nat)
    requires m < |b.x| && b.Has(|b.x|) && k <= |b.x|
    ensures Sum(k, Pairs(v, b, m)) ==
            v(m) * b.x[m] * Sum(k, Along(v, b.x)) + v(m) * b.y[m] * Sum(k, Along(v, b.y))
                + v(m) * b.z[m] * Sum(k, Along(v, b.z))
  {
    if k > 0 {
      PairsSum(k - 1, v, b, m);
      var p := k - 1;
      var sx, sy, sz := Sum(p, Along(v, b.x)), Sum(p, Along(v, b.y)), Sum(p, Along(v, b.z));
      assert Sum(k, Along(v, b.x)) == sx + v(p) * b.x[p];
      assert Sum(k, Along(v, b.y)) == sy + v(p) * b.y[p];
      assert Sum(k, Along(v, b.z)) == sz + v(p) * b.z[p];
      assert Sum(k, Pairs(v, b, m)) ==
             Sum(p, Pairs(v, b, m)) + v(m) * v(p) * (b.x[m] * b.x[p] + b.y[m] * b.y[p] + b.z[m] * b.z[p]);
      Expand(v(m), v(p), b.x[m], b.x[p], b.y[m], b.y[p], b.z[m], b.z[p], sx, sy, sz);
    }
  }

  lemma Expand(a: real, c: real, x: real, x': real, y: real, y': real, z: real, z': real, sx: real, sy: real, sz: real)
    ensures a * x * sx + a * y * sy + a * z * sz + a * c * (x * x' + y * y' + z * z')
         == a * x * (sx + c * x') + a * y * (sy + c * y') + a * z * (sz + c * z')
  {
    assert a * c * (x * x' + y * y' + z * z') == a * x * (c * x') + a * y * (c * y') + a * z * (c * z');
  }

  function PairRows(n: nat, v: int -> real, b: Basis): int -> real {
    (m: int) => Sum(n, Pairs(v, b, m))
  }

  lemma {:induction false} RowsSum(n: nat, k: nat, v: int -> real, b: Basis)
    requires b.Has(n) && k <= n
    ensures Sum(k, PairRows(n, v, b)) ==
            Sum(k, Along(v, b.x)) * Sum(n, Along(v, b.x)) + Sum(k, Along(v, b.y)) * Sum(n, Along(v, b.y))
            + Sum(k, Along(v, b.z)) * Sum(n, Along(v, b.z))
  {
    if k > 0 {
      RowsSum(n, k - 1, v, b);
      PairsSum(n, v, b, k - 1);
      var p := k - 1;
      Distribute(Sum(n, Along(v, b.x)), Sum(p, Along(v, b.x)), v(p) * b.x[p]);
      Distribute(Sum(n, Along(v, b.y)), Sum(p, Along(v, b.y)), v(p) * b.y[p]);
      Distribute(Sum(n, Along(v, b.z)), Sum(p, Along(v, b.z)), v(p) * b.z[p]);
    }
  }

  /** The quadratic form of one Gram matrix is a sum of three squares. */
  lemma GramSquares(n: nat, v: int -> real, b: Basis)
    requires b.Has(n)
    ensures Sum(n, PairRows(n, v, b)) >= 0.0
  {
    RowsSum(n, n, v, b);
    Square(Sum(n, Along(v, b.x)));
    Square(Sum(n, Along(v, b.y)));
    Square(Sum(n, Along(v, b.z)));
  }

  // ---- one quadrature point --------------------------------------------------------------------

  /** Entry (m, p) of the quadratic form, and what a point contributes to it. */
  function PointPairs(z: Zone, w: seq<real>, v: int -> real, i: int, j: int, k: int, m: int): int -> real {
    (p: int) => v(m) * v(p) * z.Term(w, m, p)(i, j, k)
  }

  function PointRows(z: Zone, w: seq<real>, v: int -> real, i: int, j: int, k: int): int -> real {
    (m: int) => Sum(z.n, PointPairs(z, w, v, i, j, k, m))
  }

  function Both(a: real, s: real, b: real, t: real): real {
    a * s + b * t
  }

  lemma SumLinear(n: nat, a: real, f: int -> real, b: real, g: int -> real, h: int -> real)
    requires forall k | 0 <= k < n :: h(k) == Both(a, f(k), b, g(k))
    ensures Sum(n, h) == Both(a, Sum(n, f), b, Sum(n, g))
  {
    var af, bg := (k: int) => a * f(k), (k: int) => b * g(k);
    SumScaled(n, a, f, af);
    SumScaled(n, b, g, bg);
    SumAdd(n, af, bg);
    SumExt(n, h, (k: int) => af(k) + bg(k));
  }

  lemma PointRow(z: Zone, w: seq<real>, v: int -> real, i: int, j: int, k: int, m: int, a: real, b: real)
    requires a == z.Weight(w, i, j, k) * z.alpha && b == z.Weight(w, i, j, k) * z.beta
    ensures PointRows(z, w, v, i, j, k)(m) ==
            Both(a, PairRows(z.n, v, z.at(i, j, k).edge)(m), b, PairRows(z.n, v, z.at(i, j, k).curl)(m))
  {
    var e, c := z.at(i, j, k).edge, z.at(i, j, k).curl;
    forall p ensures PointPairs(z, w, v, i, j, k, m)(p) == Both(a, Pairs(v, e, m)(p), b, Pairs(v, c, m)(p)) {
      PointPair(z, w, v, i, j, k, m, p, a, b);
    }
    SumLinear(z.n, a, Pairs(v, e, m), b, Pairs(v, c, m), PointPairs(z, w, v, i, j, k, m));
  }

  lemma PointPair(z: Zone, w: seq<real>, v: int -> real, i: int, j: int, k: int, m: int, p: int, a: real, b: real)
    requires a == z.Weight(w, i, j, k) * z.alpha && b == z.Weight(w, i, j, k) * z.beta
    ensures PointPairs(z, w, v, i, j, k, m)(p) ==
            Both(a, Pairs(v, z.at(i, j, k).edge, m)(p), b, Pairs(v, z.at(i, j, k).curl, m)(p))
  {
    var e, c := z.at(i, j, k).edge, z.at(i, j, k).curl;
    assert z.Term(w, m, p)(i, j, k) == a * Inner(e, m, e, p) + b * Inner(c, m, c, p);
    Spread(v(m) * v(p), a, Inner(e, m, e, p), b, Inner(c, m, c, p));
  }

  lemma Spread(c: real, a: real, x: real, b: real, y: real)
    ensures c * (a * x + b * y) == a * (c * x) + b * (c * y)
  {
  }

  /** What a point contributes to the quadratic form. */
  lemma PointForm(z: Zone, w: seq<real>, v: int -> real, i: int, j: int, k: int, a: real, b: real)
    requires a == z.Weight(w, i, j, k) * z.alpha && b == z.Weight(w, i, j, k) * z.beta
    ensures Sum(z.n, PointRows(z, w, v, i, j, k)) ==
            Both(a, Sum(z.n, PairRows(z.n, v, z.at(i, j, k).edge)), b, Sum(z.n, PairRows(z.n, v, z.at(i, j, k).curl)))
  {
    var e, c := PairRows(z.n, v, z.at(i, j, k).edge), PairRows(z.n, v, z.at(i, j, k).curl);
    forall m ensures PointRows(z, w, v, i, j, k)(m) == Both(a, e(m), b, c(m)) { PointRow(z, w, v, i, j, k, m, a, b); }
    SumLinear(z.n, a, e, b, c, PointRows(z, w, v, i, j, k));
  }

  lemma PointPositive(z: Zone, w: seq<real>, v: int -> real, i: int, j: int, k: int)
    requires z.at(i, j, k).edge.Has(z.n) && z.at(i, j, k).curl.Has(z.n) && z.alpha >= 0.0 && z.beta >= 0.0
    requires forall p | 0 <= p < |w| :: w[p] >= 0.0
    ensures Sum(z.n, PointRows(z, w, v, i, j, k)) >= 0.0
  {
    var e, c := z.at(i, j, k).edge, z.at(i, j, k).curl;
    var a, b := z.Weight(w, i, j, k) * z.alpha, z.Weight(w, i, j, k) * z.beta;
    WeightPositive(z, w, i, j, k);
    PointForm(z, w, v, i, j, k, a, b);
    GramSquares(z.n, v, e);
    GramSquares(z.n, v, c);
    Nonnegative(a, Sum(z.n, PairRows(z.n, v, e)), b, Sum(z.n, PairRows(z.n, v, c)));
  }

  lemma Nonnegative(a: real, s: real, b: real, t: real)
    requires a >= 0.0 && s >= 0.0 && b >= 0.0 && t >= 0.0
    ensures a * s + b * t >= 0.0
  {
  }

  lemma WeightPositive(z: Zone, w: seq<real>, i: int, j: int, k: int)
    requires forall p | 0 <= p < |w| :: w[p] >= 0.0
    ensures z.Weight(w, i, j, k) >= 0.0
  {
    if 0 <= i < |w| && 0 <= j < |w| && 0 <= k < |w| {
      NotNegative(w[i], w[j], w[k]);
      NotNegative(w[i] * w[j] * w[k], Jacobian.BadZone(z.at(i, j, k).detj, z.detjCc, z.tol, z.div).abs, 1.0);
    }
  }

  lemma NotNegative(a: real, b: real, c: real)
    requires a >= 0.0 && b >= 0.0 && c >= 0.0
    ensures a * b * c >= 0.0
  {
    assert a * b >= 0.0;
  }

  // ---- the whole matrix ------------------------------------------------------------------------

  function FormPairs(z: Zone, w: seq<real>, v: int -> real, m: int): int -> real {
    (p: int) => v(m) * v(p) * z.Gram(w, |w|, m, p)
  }

  /** Row m of v^T M v. */
  function FormRows(z: Zone, w: seq<real>, v: int -> real): int -> real {
    (m: int) => Sum(z.n, FormPairs(z, w, v, m))
  }

  function ByPoint(z: Zone, w: seq<real>, v: int -> real): Table3 {
    (i, j, k) => Sum(z.n, PointRows(z, w, v, i, j, k))
  }

  function RowByPoint(z: Zone, w: seq<real>, v: int -> real, m: int): Table3 {
    (i, j, k) => PointRows(z, w, v, i, j, k)(m)
  }

  /** Exchanging a sum of triple sums for the triple sum of sums. */
  lemma Exchange(n: nat, q: nat, f: (int, int, int, int) -> real, rows: int -> real, points: Table3)
    requires forall p | 0 <= p < n :: rows(p) == Sum3(q, q, q, Slice(f, p))
    requires forall i, j, k :: points(i, j, k) == SumSlices(n, f)(i, j, k)
    ensures Sum(n, rows) == Sum3(q, q, q, points)
  {
    SumSum3Swap(n, q, q, q, f);
    SumExt(n, rows, (i: int) => Sum3(q, q, q, Slice(f, i)));
    Sum3Ext(q, q, q, points, SumSlices(n, f));
  }

  function PairEntries(z: Zone, w: seq<real>, v: int -> real, m: int): (int, int, int, int) -> real {
    (p, i, j, k) => PointPairs(z, w, v, i, j, k, m)(p)
  }

  lemma PairEntry(z: Zone, w: seq<real>, v: int -> real, m: int, p: int)
    ensures FormPairs(z, w, v, m)(p) == Sum3(|w|, |w|, |w|, Slice(PairEntries(z, w, v, m), p))
  {
    var c, t, f := v(m) * v(p), z.Term(w, m, p), PairEntries(z, w, v, m);
    forall i, j, k ensures Slice(f, p)(i, j, k) == c * t(i, j, k) {
      assert f(p, i, j, k) == PointPairs(z, w, v, i, j, k, m)(p) == c * t(i, j, k);
    }
    MultipleOf(|w|, c, t, Slice(f, p));
  }

  lemma PairSlices(z: Zone, w: seq<real>, v: int -> real, m: int, i: int, j: int, k: int)
    ensures RowByPoint(z, w, v, m)(i, j, k) == SumSlices(z.n, PairEntries(z, w, v, m))(i, j, k)
  {
    var f := PairEntries(z, w, v, m);
    forall p ensures f(p, i, j, k) == PointPairs(z, w, v, i, j, k, m)(p) {}
    SumExt(z.n, PointPairs(z, w, v, i, j, k, m), (p: int) => f(p, i, j, k));
    assert RowByPoint(z, w, v, m)(i, j, k) == PointRows(z, w, v, i, j, k)(m) ==
           Sum(z.n, PointPairs(z, w, v, i, j, k, m));
    assert SumSlices(z.n, f)(i, j, k) == Sum(z.n, (p: int) => f(p, i, j, k));
  }

  lemma FormRowSwap(z: Zone, w: seq<real>, v: int -> real, m: int)
    ensures FormRows(z, w, v)(m) == Sum3(|w|, |w|, |w|, RowByPoint(z, w, v, m))
  {
    forall p ensures FormPairs(z, w, v, m)(p) == Sum3(|w|, |w|, |w|, Slice(PairEntries(z, w, v, m), p)) {
      PairEntry(z, w, v, m, p);
    }
    forall i, j, k ensures RowByPoint(z, w, v, m)(i, j, k) == SumSlices(z.n, PairEntries(z, w, v, m))(i, j, k) {
      PairSlices(z, w, v, m, i, j, k);
    }
    Exchange(z.n, |w|, PairEntries(z, w, v, m), FormPairs(z, w, v, m), RowByPoint(z, w, v, m));
  }

  function RowEntries(z: Zone, w: seq<real>, v: int -> real): (int, int, int, int) -> real {
    (m, i, j, k) => RowByPoint(z, w, v, m)(i, j, k)
  }

  lemma RowSlices(z: Zone, w: seq<real>, v: int -> real, i: int, j: int, k: int)
    ensures ByPoint(z, w, v)(i, j, k) == SumSlices(z.n, RowEntries(z, w, v))(i, j, k)
  {
    var f := RowEntries(z, w, v);
    forall m ensures f(m, i, j, k) == PointRows(z, w, v, i, j, k)(m) {
      assert f(m, i, j, k) == RowByPoint(z, w, v, m)(i, j, k);
    }
    SumExt(z.n, PointRows(z, w, v, i, j, k), (m: int) => f(m, i, j, k));
  }

  lemma FormSwap(z: Zone, w: seq<real>, v: int -> real)
    ensures Sum(z.n, FormRows(z, w, v)) == Sum3(|w|, |w|, |w|, ByPoint(z, w, v))
  {
    forall m ensures FormRows(z, w, v)(m) == Sum3(|w|, |w|, |w|, Slice(RowEntries(z, w, v), m)) {
      FormRowSwap(z, w, v, m);
      Sum3Ext(|w|, |w|, |w|, RowByPoint(z, w, v, m), Slice(RowEntries(z, w, v), m));
    }
    forall i, j, k ensures ByPoint(z, w, v)(i, j, k) == SumSlices(z.n, RowEntries(z, w, v))(i, j, k) {
      RowSlices(z, w, v, i, j, k);
    }
    Exchange(z.n, |w|, RowEntries(z, w, v), FormRows(z, w, v), ByPoint(z, w, v));
  }

  /** For non-negative weights, alpha and beta the element matrix is positive semidefinite. */
  lemma PositiveSemidefinite(z: Zone, w: seq<real>, v: int -> real)
    requires z.Valid(|w|) && z.alpha >= 0.0 && z.beta >= 0.0 && forall p | 0 <= p < |w| :: w[p] >= 0.0
    ensures Sum(z.n, FormRows(z, w, v)) >= 0.0
  {
    FormSwap(z, w, v);
    forall i, j, k | 0 <= i < |w| && 0 <= j < |w| && 0 <= k < |w| ensures ByPoint(z, w, v)(i, j, k) >= 0.0 {
      PointPositive(z, w, v, i, j, k);
    }
    Sum3Positive(|w|, |w|, |w|, ByPoint(z, w, v));
  }

  // ---- the kernel body -------------------------------------------------------------------------

  function GramRow(z: Zone, w: seq<real>, m: int): int -> real {
    (p: int) => z.Gram(w, |w|, m, p)
  }

  function GramRows(z: Zone, w: seq<real>): int -> real {
    (m: int) => Sum(z.n, GramRow(z, w, m))
  }

  lemma EntriesAsForm(z: Zone, w: seq<real>)
    ensures Sum(z.n, GramRows(z, w)) == Sum(z.n, FormRows(z, w, Constant(1.0)))
  {
    forall m ensures GramRows(z, w)(m) == FormRows(z, w, Constant(1.0))(m) {
      SumExt(z.n, GramRow(z, w, m), FormPairs(z, w, Constant(1.0), m));
    }
    SumExt(z.n, GramRows(z, w), FormRows(z, w, Constant(1.0)));
  }

  /** One row of the matrix added up. */
  method CheckRow(a: array2<Cell>, z: Zone, ghost w: seq<real>, m: nat) returns (check: real)
    requires IsGram(a, z, w) && m < z.n
    ensures check == GramRows(z, w)(m)
  {
    check := 0.0;
    for p := 0 to z.n
      invariant check == Sum(p, GramRow(z, w, m))
    {
      var v := ReadEntry(a, z, w, m, p);
      check := check + v;
    }
  }

  method ReadEntry(a: array2<Cell>, z: Zone, ghost w: seq<real>, m: nat, p: nat) returns (v: real)
    requires IsGram(a, z, w) && m < z.n && p < z.n
    ensures v == GramRow(z, w, m)(p)
  {
    v := a[m, p].v;
  }

  /** All entries added up, row by row. */
  method SumEntries(a: array2<Cell>, z: Zone, ghost w: seq<real>) returns (sum: real)
    requires IsGram(a, z, w)
    ensures sum == Sum(z.n, GramRows(z, w))
  {
    sum := 0.0;
    for m := 0 to z.n
      invariant sum == Sum(m, GramRows(z, w))
    {
      var check := CheckRow(a, z, w, m);
      sum := sum + check;
    }
  }

  /** The one-dimensional weights as get_quadrature_rule leaves them. */
  method Weights(kind: int, order: int) returns (w: seq<real>)
    requires Supported(kind, order)
    ensures |w| == order && w == RuleOf(kind, order).weights
  {
    var points, weights := new Cell[5](_ => Unset), new Cell[5](_ => Unset);
    GetQuadratureRule(kind, order, points, weights);
    RuleProperties(kind, order, 0);
    w := [];
    for i := 0 to order
      invariant w == RuleOf(kind, order).weights[..i]
    {
      w := w + [weights[i].v];
    }
  }

  /** The entries of a matrix in fresh storage. */
  function Untouched(p: int, m: int): Cell {
    Unset
  }

  /**
   * EDGE3D_BODY for a zone whose geometry is given: the rule, the matrix in storage that
   * starts unset, and the sum of all its entries.
   */
  method EdgeBody(z: Zone, kind: int, order: int) returns (sum: real)
    requires Supported(kind, order) && z.Valid(order) && z.n >= 1
    ensures sum == Sum(z.n, GramRows(z, RuleOf(kind, order).weights))
    ensures z.alpha >= 0.0 && z.beta >= 0.0 ==> sum >= 0.0
  {
    var w := Weights(kind, order);
    var a := new Cell[z.n, z.n]((p, m) => Unset);
    BuildMatrix(z, w, a, Untouched);
    sum := SumEntries(a, z, w);
    SumNotNegative(z, kind, order);
  }

  lemma SumNotNegative(z: Zone, kind: int, order: int)
    requires Supported(kind, order) && z.Valid(order)
    ensures z.alpha >= 0.0 && z.beta >= 0.0 ==> Sum(z.n, GramRows(z, RuleOf(kind, order).weights)) >= 0.0
  {
    RuleProperties(kind, order, 0);
    if z.alpha >= 0.0 && z.beta >= 0.0 {
      RuleWeights(kind, order);
      PositiveSemidefinite(z, RuleOf(kind, order).weights, Constant(1.0));
      EntriesAsForm(z, RuleOf(kind, order).weights);
    }
  }

  lemma RuleWeights(kind: int, order: int)
    requires Supported(kind, order)
    ensures forall p | 0 <= p < |RuleOf(kind, order).weights| :: RuleOf(kind, order).weights[p] >= 0.0
  {
    RuleProperties(kind, order, 0);
    forall p | 0 <= p < |RuleOf(kind, order).weights| ensures RuleOf(kind, order).weights[p] >= 0.0 {
      RuleProperties(kind, order, p);
    }
  }
}
