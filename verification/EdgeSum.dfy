/**
 * EDGE3D in terms of the corners: what the transformed edge functions and curls are, and a
 * closed form of the sum the kernel stores for a zone.
 */
module EdgeSum {
  import opened Edge
  import opened EdgeGeometry
  import opened EdgePositivity
  import opened Jacobian
  import opened Quadrature
  import opened RealArith
  import opened Sums

  // ---- one quadrature point ------------------------------------------------------------

  /** Function p of a basis. */
  function Member(b: Basis, p: int): Vector {
    Vector(At(b.x, p), At(b.y, p), At(b.z, p))
  }

  /** The determinant taken at a point of a zone. */
  function Taken(c: Corners, x: real, y: real, z: real, tol: real, div: (real, real) -> real): Determinant {
    BadZone(ComputeDetj(JacobianAt(c, x, y, z)), ComputeDetj(CentreJacobian(c)), tol, div)
  }

  /** What is left of the identity when a reciprocal of the determinant is not exact. */
  function Recovered(j: Matrix, inv: real): real {
    inv * ComputeDetj(j)
  }

  lemma InverseApplied(j: Matrix, inv: real, w: Vector, d: real)
    requires d == Recovered(j, inv)
    ensures Apply(j, Apply(Inverse(j, inv), w)) == Jacobian.Scaled(w, d)
  {
    InverseIsInverse(j, inv, d);
    RowsApplied(j, Inverse(j, inv), w, d);
  }

  lemma RowsApplied(j: Matrix, k: Matrix, w: Vector, d: real)
    requires Apply(Transpose(k), j.x) == Vector(d, 0.0, 0.0) && Apply(Transpose(k), j.y) == Vector(0.0, d, 0.0)
    requires Apply(Transpose(k), j.z) == Vector(0.0, 0.0, d)
    ensures Apply(j, Apply(k, w)) == Jacobian.Scaled(w, d)
  {
    AlongAxes(w, d);
    RowApplied(j.x, k, w, Vector(d, 0.0, 0.0));
    RowApplied(j.y, k, w, Vector(0.0, d, 0.0));
    RowApplied(j.z, k, w, Vector(0.0, 0.0, d));
  }

  lemma RowApplied(r: Vector, k: Matrix, w: Vector, e: Vector)
    requires Apply(Transpose(k), r) == e
    ensures Dot(r, Apply(k, w)) == Dot(w, e)
  {
    TransposeMoves(k, w, r);
    DotCommutes(r, Apply(k, w));
  }

  lemma AlongAxes(w: Vector, d: real)
    ensures Dot(w, Vector(d, 0.0, 0.0)) == w.x * d && Dot(w, Vector(0.0, d, 0.0)) == w.y * d
    ensures Dot(w, Vector(0.0, 0.0, d)) == w.z * d
  {
  }

  lemma ZonePoint(c: Corners, q: seq<real>, tol: real, alpha: real, beta: real, div: (real, real) -> real, i: nat,
                  j: nat, k: nat)
    requires i < |q| && j < |q| && k < |q|
    ensures ZoneOf(c, q, tol, alpha, beta, div).at(i, j, k) ==
            PointAt(c, q[i], q[j], q[k], ComputeDetj(CentreJacobian(c)), tol, div)
  {
  }

  lemma EdgeOfPoint(c: Corners, x: real, y: real, z: real, detjCc: real, tol: real, div: (real, real) -> real, p: nat)
    requires p < 12
    ensures var t, m := PointAt(c, x, y, z, detjCc, tol, div), JacobianAt(c, x, y, z);
            && t.detj == ComputeDetj(m)
            && Vector(t.edge.x[p], t.edge.y[p], t.edge.z[p]) ==
               Apply(Inverse(m, BadZone(ComputeDetj(m), detjCc, tol, div).inv),
                     Vector(EdgeX(y, z)[p], EdgeY(x, z)[p], EdgeZ(x, y)[p]))
  {
  }

  lemma EdgeRestored(c: Corners, x: real, y: real, z: real, detjCc: real, tol: real, div: (real, real) -> real, p: nat)
    requires p < 12
    ensures var t, m := PointAt(c, x, y, z, detjCc, tol, div), JacobianAt(c, x, y, z);
            Apply(m, Vector(t.edge.x[p], t.edge.y[p], t.edge.z[p])) ==
            Jacobian.Scaled(Vector(EdgeX(y, z)[p], EdgeY(x, z)[p], EdgeZ(x, y)[p]),
                            Recovered(m, BadZone(ComputeDetj(m), detjCc, tol, div).inv))
  {
    var m := JacobianAt(c, x, y, z);
    var inv := BadZone(ComputeDetj(m), detjCc, tol, div).inv;
    EdgeOfPoint(c, x, y, z, detjCc, tol, div, p);
    InverseApplied(m, inv, Vector(EdgeX(y, z)[p], EdgeY(x, z)[p], EdgeZ(x, y)[p]), Recovered(m, inv));
  }

  /**
   * The Jacobian takes each transformed edge function back to the reference function, up to
   * the determinant times its reciprocal.
   */
  lemma EdgeAtPoint(c: Corners, q: seq<real>, tol: real, alpha: real, beta: real, div: (real, real) -> real, i: nat,
                    j: nat, k: nat, p: nat)
    requires i < |q| && j < |q| && k < |q| && p < 12
    ensures var t, m := ZoneOf(c, q, tol, alpha, beta, div).at(i, j, k), JacobianAt(c, q[i], q[j], q[k]);
            && t.detj == ComputeDetj(m)
            && Apply(m, Vector(t.edge.x[p], t.edge.y[p], t.edge.z[p])) ==
               Jacobian.Scaled(Vector(EdgeX(q[j], q[k])[p], EdgeY(q[i], q[k])[p], EdgeZ(q[i], q[j])[p]),
                               Recovered(m, Taken(c, q[i], q[j], q[k], tol, div).inv))
  {
    ZonePoint(c, q, tol, alpha, beta, div, i, j, k);
    EdgeOfPoint(c, q[i], q[j], q[k], ComputeDetj(CentreJacobian(c)), tol, div, p);
    EdgeRestored(c, q[i], q[j], q[k], ComputeDetj(CentreJacobian(c)), tol, div, p);
  }

  predicate Inverts(s: real, t: real) {
    s * t == 1.0
  }

  lemma CurlScaled(j: Matrix, s: real, t: real, c: Vector)
    requires Inverts(s, t)
    ensures Jacobian.Scaled(Apply(CurlTransform(j, s), c), t) == Apply(Transpose(j), c)
  {
    var v := Apply(Transpose(j), c);
    ScaledApply(Transpose(j), s, c, v);
    ScaledTwice(v, s, t);
  }

  lemma ScaledTwice(v: Vector, s: real, t: real)
    requires Inverts(s, t)
    ensures Jacobian.Scaled(Jacobian.Scaled(v, s), t) == v
  {
    Undone(v.x, s, t);
    Undone(v.y, s, t);
    Undone(v.z, s, t);
  }

  lemma Undone(a: real, s: real, t: real)
    requires Inverts(s, t)
    ensures a * s * t == a
  {
    assert a * s * t == a * (s * t);
  }

  lemma Reciprocal(div: (real, real) -> real, t: real)
    requires Divides(div) && t != 0.0
    ensures Inverts(div(1.0, t), t)
  {
  }

  lemma CurlOfPoint(c: Corners, x: real, y: real, z: real, detjCc: real, tol: real, div: (real, real) -> real, p: nat)
    requires p < 12
    ensures var t, m := PointAt(c, x, y, z, detjCc, tol, div).curl, JacobianAt(c, x, y, z);
            Vector(t.x[p], t.y[p], t.z[p]) ==
            Apply(CurlTransform(m, div(1.0, BadZone(ComputeDetj(m), detjCc, tol, div).abs + PTINY)),
                  Vector(CurlX(x)[p], CurlY(y)[p], CurlZ(z)[p]))
  {
  }

  /** With exact division, the shifted determinant takes each transformed curl to J^T curl. */
  lemma CurlAtPoint(c: Corners, q: seq<real>, tol: real, alpha: real, beta: real, div: (real, real) -> real, i: nat,
                    j: nat, k: nat, p: nat)
    requires i < |q| && j < |q| && k < |q| && p < 12 && Divides(div)
    ensures var t, m := ZoneOf(c, q, tol, alpha, beta, div).at(i, j, k), JacobianAt(c, q[i], q[j], q[k]);
            Jacobian.Scaled(Vector(t.curl.x[p], t.curl.y[p], t.curl.z[p]),
                            Taken(c, q[i], q[j], q[k], tol, div).abs + PTINY) ==
            Apply(Transpose(m), Vector(CurlX(q[i])[p], CurlY(q[j])[p], CurlZ(q[k])[p]))
  {
    var m, d := JacobianAt(c, q[i], q[j], q[k]), Taken(c, q[i], q[j], q[k], tol, div).abs + PTINY;
    Reciprocal(div, d);
    ZonePoint(c, q, tol, alpha, beta, div, i, j, k);
    CurlOfPoint(c, q[i], q[j], q[k], ComputeDetj(CentreJacobian(c)), tol, div, p);
    CurlScaled(m, div(1.0, d), d, Vector(CurlX(q[i])[p], CurlY(q[j])[p], CurlZ(q[k])[p]));
  }

  /** The corners 0 and 1 of an interval, by index. */
  function End(i: int): real {
    if i == 0 then 0.0 else 1.0
  }

  /**
   * Along an edge of its own axis, the function of that edge has tangential component one and
   * the three others zero: edge e of an axis lies at End(e % 2), End(e / 2) of the other two.
   */
  lemma EdgeDual(e: nat, p: nat)
    requires e < 4 && p < 4
    ensures EdgeX(End(e % 2), End(e / 2))[p] == EdgeY(End(e % 2), End(e / 2))[4 + p]
         == EdgeZ(End(e % 2), End(e / 2))[8 + p] == if p == e then 1.0 else 0.0
  {
    match e
    case 0 => FourEnds(0.0, 0.0, p);
    case 1 => FourEnds(1.0, 0.0, p);
    case 2 => FourEnds(0.0, 1.0, p);
    case _ => FourEnds(1.0, 1.0, p);
  }

  lemma FourEnds(u: real, v: real, p: nat)
    requires p < 4
    ensures EdgeX(u, v)[p] == EdgeY(u, v)[4 + p] == EdgeZ(u, v)[8 + p] ==
            (if p % 2 == 0 then 1.0 - u else u) * (if p / 2 == 0 then 1.0 - v else v)
  {
  }

  /** A function has no component along the other two axes. */
  lemma OtherAxes(x: real, y: real, z: real, p: nat)
    requires p < 12
    ensures (p >= 4 ==> EdgeX(y, z)[p] == 0.0) && (p < 4 || p >= 8 ==> EdgeY(x, z)[p] == 0.0)
    ensures p < 8 ==> EdgeZ(x, y)[p] == 0.0
  {
  }

  // ---- the matrix ------------------------------------------------------------------------

  /** An entry of the element matrix, term by term. */
  lemma GramIs(z: Zone, w: seq<real>, p: nat, m: nat)
    requires z.Valid(|w|) && p < z.n && m < z.n
    ensures z.Gram(w, |w|, p, m) ==
            Sum3(|w|, |w|, |w|, (i, j, k) =>
              At(w, i) * At(w, j) * At(w, k) * BadZone(z.at(i, j, k).detj, z.detjCc, z.tol, z.div).abs *
              (z.alpha * Dot(Member(z.at(i, j, k).edge, p), Member(z.at(i, j, k).edge, m))
               + z.beta * Dot(Member(z.at(i, j, k).curl, p), Member(z.at(i, j, k).curl, m))))
  {
    var f: Table3 := (i, j, k) =>
      At(w, i) * At(w, j) * At(w, k) * BadZone(z.at(i, j, k).detj, z.detjCc, z.tol, z.div).abs *
      (z.alpha * Dot(Member(z.at(i, j, k).edge, p), Member(z.at(i, j, k).edge, m))
       + z.beta * Dot(Member(z.at(i, j, k).curl, p), Member(z.at(i, j, k).curl, m)));
    forall i, j, k | 0 <= i < |w| && 0 <= j < |w| && 0 <= k < |w| ensures z.Term(w, p, m)(i, j, k) == f(i, j, k) {
      var t := z.at(i, j, k);
      Regrouped(z.Weight(w, i, j, k), z.alpha, Dot(Member(t.edge, p), Member(t.edge, m)), z.beta,
                Dot(Member(t.curl, p), Member(t.curl, m)));
    }
    Sum3Ext(|w|, |w|, |w|, z.Term(w, p, m), f);
  }

  lemma Regrouped(w: real, a: real, s: real, b: real, t: real)
    ensures w * a * s + w * b * t == w * (a * s + b * t)
  {
  }

  // ---- the sum of all entries ---------------------------------------------------------------

  function Components(s: seq<real>): int -> real {
    Along(Constant(1.0), s)
  }

  /** All functions of a basis, added up. */
  function Added(b: Basis): Vector {
    Vector(Sum(|b.x|, Components(b.x)), Sum(|b.y|, Components(b.y)), Sum(|b.z|, Components(b.z)))
  }

  lemma Sum12(f: int -> real)
    ensures Sum(12, f) == f(0) + f(1) + f(2) + f(3) + f(4) + f(5) + f(6) + f(7) + f(8) + f(9) + f(10) + f(11)
  {
    assert Sum(4, f) == f(0) + f(1) + f(2) + f(3) by {
      assert Sum(2, f) == Sum(1, f) + f(1);
    }
    assert Sum(8, f) == Sum(4, f) + f(4) + f(5) + f(6) + f(7) by {
      assert Sum(6, f) == Sum(5, f) + f(5);
    }
    assert Sum(10, f) == Sum(9, f) + f(9);
  }

  lemma ComponentsAt(s: seq<real>, p: nat)
    requires p < |s|
    ensures Components(s)(p) == s[p]
  {
    assert Constant(1.0)(p) == 1.0;
    assert Along(Constant(1.0), s)(p) == Constant(1.0)(p) * At(s, p);
  }

  lemma SumSeq12(s: seq<real>)
    requires |s| == 12
    ensures Sum(12, Components(s)) ==
            s[0] + s[1] + s[2] + s[3] + s[4] + s[5] + s[6] + s[7] + s[8] + s[9] + s[10] + s[11]
  {
    forall p | 0 <= p < 12 ensures Components(s)(p) == s[p] { ComponentsAt(s, p); }
    Sum12(Components(s));
  }

  lemma EdgesAddUp(x: real, y: real, z: real)
    ensures Added(EdgeFunctions(x, y, z)) == Vector(1.0, 1.0, 1.0)
  {
    SumSeq12(EdgeX(y, z));
    SumSeq12(EdgeY(x, z));
    SumSeq12(EdgeZ(x, y));
    FaceUnity(y, z);
    FaceUnity(x, z);
    FaceUnity(x, y);
  }

  lemma FaceUnity(s: real, t: real)
    ensures (1.0 - s) * (1.0 - t) + s * (1.0 - t) + (1.0 - s) * t + s * t == 1.0
  {
    assert (1.0 - s) * (1.0 - t) + s * (1.0 - t) == 1.0 - t;
    assert (1.0 - s) * t + s * t == t;
  }

  lemma CurlsCancel(x: real, y: real, z: real)
    ensures Added(CurlFunctions(x, y, z)) == Vector(0.0, 0.0, 0.0)
  {
    SumSeq12(CurlX(x));
    SumSeq12(CurlY(y));
    SumSeq12(CurlZ(z));
  }

  lemma {:induction false} SumOfDots(n: nat, r: Vector, x: int -> real, y: int -> real, z: int -> real, t: int -> real)
    requires forall p | 0 <= p < n :: t(p) == Dot(r, Vector(x(p), y(p), z(p)))
    ensures Sum(n, t) == Dot(r, Vector(Sum(n, x), Sum(n, y), Sum(n, z)))
  {
    if n > 0 {
      SumOfDots(n - 1, r, x, y, z, t);
      DotAdds(r, Vector(Sum(n - 1, x), Sum(n - 1, y), Sum(n - 1, z)), Vector(x(n - 1), y(n - 1), z(n - 1)));
    }
  }

  lemma DotAdds(r: Vector, a: Vector, b: Vector)
    ensures Dot(r, Vector(a.x + b.x, a.y + b.y, a.z + b.z)) == Dot(r, a) + Dot(r, b)
  {
  }

  lemma RowAdded(n: nat, r: Vector, b: Basis, t: seq<real>)
    requires b.Has(n) && |t| == n && forall p | 0 <= p < n :: t[p] == Dot(r, Vector(b.x[p], b.y[p], b.z[p]))
    ensures Sum(n, Components(t)) == Dot(r, Added(b))
  {
    forall p | 0 <= p < n
      ensures Components(t)(p) == Dot(r, Vector(Components(b.x)(p), Components(b.y)(p), Components(b.z)(p)))
    {
      ComponentsAt(t, p);
      ComponentsAt(b.x, p);
      ComponentsAt(b.y, p);
      ComponentsAt(b.z, p);
    }
    SumOfDots(n, r, Components(b.x), Components(b.y), Components(b.z), Components(t));
  }

  /** Transforming all functions transforms their sum. */
  lemma TransformedAdded(n: nat, m: Matrix, b: Basis)
    requires b.Has(n)
    ensures Added(Transformed(m, b)) == Apply(m, Added(b))
  {
    var t := Transformed(m, b);
    forall p | 0 <= p < n
      ensures t.x[p] == Dot(m.x, Vector(b.x[p], b.y[p], b.z[p])) && t.y[p] == Dot(m.y, Vector(b.x[p], b.y[p], b.z[p]))
      ensures t.z[p] == Dot(m.z, Vector(b.x[p], b.y[p], b.z[p]))
    {
      assert Vector(t.x[p], t.y[p], t.z[p]) == Apply(m, Vector(b.x[p], b.y[p], b.z[p]));
    }
    RowAdded(n, m.x, b, t.x);
    RowAdded(n, m.y, b, t.y);
    RowAdded(n, m.z, b, t.z);
  }

  lemma SquareOfSums(x: real, y: real, z: real)
    ensures Dot(Vector(x, y, z), Vector(x, y, z)) == x * x + y * y + z * z
  {
  }

  lemma BasisSum(n: nat, b: Basis)
    requires b.Has(n)
    ensures Sum(n, PairRows(n, Constant(1.0), b)) == Dot(Added(b), Added(b))
  {
    RowsSum(n, n, Constant(1.0), b);
    SquareOfSums(Sum(n, Components(b.x)), Sum(n, Components(b.y)), Sum(n, Components(b.z)));
  }

  /** At a point all entries together are two squared lengths. */
  lemma PointSum(z: Zone, w: seq<real>, i: int, j: int, k: int, a: real, b: real)
    requires z.at(i, j, k).edge.Has(z.n) && z.at(i, j, k).curl.Has(z.n)
    requires a == z.Weight(w, i, j, k) * z.alpha && b == z.Weight(w, i, j, k) * z.beta
    ensures var e, c := Added(z.at(i, j, k).edge), Added(z.at(i, j, k).curl);
            ByPoint(z, w, Constant(1.0))(i, j, k) == Both(a, Dot(e, e), b, Dot(c, c))
  {
    BasisSum(z.n, z.at(i, j, k).edge);
    BasisSum(z.n, z.at(i, j, k).curl);
    PointForm(z, w, Constant(1.0), i, j, k, a, b);
    assert ByPoint(z, w, Constant(1.0))(i, j, k) == Sum(z.n, PointRows(z, w, Constant(1.0), i, j, k));
  }

  /** The weights of a quadrature point times the absolute determinant. */
  function Factor(w: seq<real>, i: int, j: int, k: int, detj: real): real {
    At(w, i) * At(w, j) * At(w, k) * Abs(detj)
  }

  /** A value at a point with them. */
  function Weighed(w: seq<real>, i: int, j: int, k: int, detj: real, v: real): real {
    Factor(w, i, j, k, detj) * v
  }

  /** The squared length of J^-1 (1, 1, 1) at a point, times the weights and the determinant. */
  function Length(c: Corners, q: seq<real>, w: seq<real>, div: (real, real) -> real): Table3 {
    (i, j, k) =>
      var m := JacobianAt(c, At(q, i), At(q, j), At(q, k));
      var u := Apply(Inverse(m, div(1.0, ComputeDetj(m) + PTINY)), Vector(1.0, 1.0, 1.0));
      Weighed(w, i, j, k, ComputeDetj(m), Dot(u, u))
  }

  lemma EdgeAdded(c: Corners, x: real, y: real, z: real, detjCc: real, div: (real, real) -> real, m: Matrix)
    requires m == JacobianAt(c, x, y, z)
    ensures Added(PointAt(c, x, y, z, detjCc, 0.0, div).edge) ==
            Apply(Inverse(m, div(1.0, ComputeDetj(m) + PTINY)), Vector(1.0, 1.0, 1.0))
  {
    var inv := BadZone(ComputeDetj(m), detjCc, 0.0, div).inv;
    ZeroTolerance(ComputeDetj(m), detjCc, div);
    EdgesAddUp(x, y, z);
    TransformedAdded(|EdgeFunctions(x, y, z).x|, Inverse(m, inv), EdgeFunctions(x, y, z));
  }

  lemma PointCurl(c: Corners, x: real, y: real, z: real, detjCc: real, div: (real, real) -> real) returns (t: Matrix)
    ensures PointAt(c, x, y, z, detjCc, 0.0, div).curl == Transformed(t, CurlFunctions(x, y, z))
  {
    var m := JacobianAt(c, x, y, z);
    t := CurlTransform(m, div(1.0, BadZone(ComputeDetj(m), detjCc, 0.0, div).abs + PTINY));
  }

  lemma CurlAdded(c: Corners, x: real, y: real, z: real, detjCc: real, div: (real, real) -> real)
    ensures Added(PointAt(c, x, y, z, detjCc, 0.0, div).curl) == Vector(0.0, 0.0, 0.0)
  {
    var t := PointCurl(c, x, y, z, detjCc, div);
    CurlsMoved(t, x, y, z);
  }

  lemma CurlsMoved(t: Matrix, x: real, y: real, z: real)
    ensures Added(Transformed(t, CurlFunctions(x, y, z))) == Vector(0.0, 0.0, 0.0)
  {
    CurlsCancel(x, y, z);
    TransformedAdded(|CurlFunctions(x, y, z).x|, t, CurlFunctions(x, y, z));
    ZeroApplied(t);
  }

  lemma ZeroApplied(m: Matrix)
    ensures Apply(m, Vector(0.0, 0.0, 0.0)) == Vector(0.0, 0.0, 0.0)
  {
  }

  lemma OnlyEdges(a: real, l: real)
    ensures Both(a, l, a, 0.0) == a * l && a * 1.0 == a
  {
  }

  lemma LengthIs(c: Corners, q: seq<real>, w: seq<real>, div: (real, real) -> real, i: int, j: int, k: int, m: Matrix,
                 u: Vector)
    requires m == JacobianAt(c, At(q, i), At(q, j), At(q, k))
    requires u == Apply(Inverse(m, div(1.0, ComputeDetj(m) + PTINY)), Vector(1.0, 1.0, 1.0))
    ensures Length(c, q, w, div)(i, j, k) == Weighed(w, i, j, k, ComputeDetj(m), Dot(u, u))
  {
  }

  lemma WeightIs(c: Corners, q: seq<real>, w: seq<real>, div: (real, real) -> real, i: nat, j: nat, k: nat)
    requires |q| == |w| && i < |w| && j < |w| && k < |w|
    ensures ZoneOf(c, q, 0.0, 1.0, 1.0, div).Weight(w, i, j, k) ==
            Factor(w, i, j, k, ComputeDetj(JacobianAt(c, At(q, i), At(q, j), At(q, k))))
  {
    PointWeight(ZoneOf(c, q, 0.0, 1.0, 1.0, div), w, i, j, k,
                ComputeDetj(JacobianAt(c, At(q, i), At(q, j), At(q, k))));
  }

  lemma PointWeight(z: Zone, w: seq<real>, i: nat, j: nat, k: nat, detj: real)
    requires i < |w| && j < |w| && k < |w| && z.at(i, j, k).detj == detj && z.tol == 0.0
    ensures z.Weight(w, i, j, k) == Factor(w, i, j, k, detj)
  {
    ZeroTolerance(detj, z.detjCc, z.div);
  }

  lemma PointLength(z: Zone, w: seq<real>, i: int, j: int, k: int, detj: real, u: Vector, l: real)
    requires z.at(i, j, k).edge.Has(z.n) && z.at(i, j, k).curl.Has(z.n) && z.alpha == z.beta == 1.0
    requires z.Weight(w, i, j, k) == Factor(w, i, j, k, detj)
    requires Added(z.at(i, j, k).edge) == u && Added(z.at(i, j, k).curl) == Vector(0.0, 0.0, 0.0) && l == Dot(u, u)
    ensures ByPoint(z, w, Constant(1.0))(i, j, k) == Weighed(w, i, j, k, detj, l)
  {
    var a := Factor(w, i, j, k, detj);
    OnlyEdges(a, l);
    SquareOfSums(0.0, 0.0, 0.0);
    PointSum(z, w, i, j, k, a, a);
  }

  lemma LengthAt(c: Corners, q: seq<real>, w: seq<real>, div: (real, real) -> real, i: nat, j: nat, k: nat)
    requires |q| == |w| && i < |w| && j < |w| && k < |w|
    ensures ByPoint(ZoneOf(c, q, 0.0, 1.0, 1.0, div), w, Constant(1.0))(i, j, k) == Length(c, q, w, div)(i, j, k)
  {
    var z, m := ZoneOf(c, q, 0.0, 1.0, 1.0, div), JacobianAt(c, At(q, i), At(q, j), At(q, k));
    var u := Apply(Inverse(m, div(1.0, ComputeDetj(m) + PTINY)), Vector(1.0, 1.0, 1.0));
    EdgeAdded(c, At(q, i), At(q, j), At(q, k), z.detjCc, div, m);
    CurlAdded(c, At(q, i), At(q, j), At(q, k), z.detjCc, div);
    WeightIs(c, q, w, div, i, j, k);
    LengthIs(c, q, w, div, i, j, k, m, u);
    PointLength(z, w, i, j, k, ComputeDetj(m), u, Dot(u, u));
  }

  lemma EntriesByPoint(z: Zone, w: seq<real>, f: Table3)
    requires forall i, j, k | 0 <= i < |w| && 0 <= j < |w| && 0 <= k < |w| ::
               ByPoint(z, w, Constant(1.0))(i, j, k) == f(i, j, k)
    ensures Sum(z.n, GramRows(z, w)) == Sum3(|w|, |w|, |w|, f)
  {
    EntriesAsForm(z, w);
    FormSwap(z, w, Constant(1.0));
    Sum3Ext(|w|, |w|, |w|, ByPoint(z, w, Constant(1.0)), f);
  }

  /**
   * The curls cancel in the sum of all entries, and the edge functions add up to J^-1 (1, 1, 1):
   * what the kernel stores is the integral of the squared length of that field.
   */
  lemma AllEntries(c: Corners, q: seq<real>, w: seq<real>, div: (real, real) -> real)
    requires |q| == |w|
    ensures var z := ZoneOf(c, q, 0.0, 1.0, 1.0, div);
            Sum(z.n, GramRows(z, w)) == Sum3(|w|, |w|, |w|, Length(c, q, w, div))
  {
    var z, v := ZoneOf(c, q, 0.0, 1.0, 1.0, div), Constant(1.0);
    forall i, j, k | 0 <= i < |w| && 0 <= j < |w| && 0 <= k < |w|
      ensures ByPoint(z, w, v)(i, j, k) == Length(c, q, w, div)(i, j, k)
    {
      LengthAt(c, q, w, div, i, j, k);
    }
    EntriesByPoint(z, w, Length(c, q, w, div));
  }

  // ---- boxes ------------------------------------------------------------------------------------

  lemma DiagonalInverse(dx: real, dy: real, dz: real, inv: real)
    ensures var m := Matrix(Vector(dx, 0.0, 0.0), Vector(0.0, dy, 0.0), Vector(0.0, 0.0, dz));
            Apply(Inverse(m, inv), Vector(1.0, 1.0, 1.0)) == Vector(dy * dz * inv, dx * dz * inv, dx * dy * inv)
  {
  }

  lemma SquaredLength(a: real, b: real, c: real, inv: real, u: Vector, l: real)
    requires u == Vector(a * inv, b * inv, c * inv) && l == inv * inv * (a * a + b * b + c * c)
    ensures Dot(u, u) == l
  {
    Squared(a, inv);
    Squared(b, inv);
    Squared(c, inv);
    Distribute3(inv * inv, a * a, b * b, c * c);
  }

  lemma Squared(a: real, inv: real)
    ensures a * inv * (a * inv) == inv * inv * (a * a)
  {
  }

  /** The weights by index. */
  function ByWeight(w: seq<real>): int -> real {
    (i: int) => At(w, i)
  }

  /** The closed form on a box with counter-clockwise corners; the last parameters only name its products. */
  lemma BoxSum(x0: real, y0: real, z0: real, dx: real, dy: real, dz: real, q: seq<real>, w: seq<real>,
               div: (real, real) -> real, inv: real, square: real, factor: real, s: real, cube: real)
    requires |q| == |w| && inv == div(1.0, dx * dy * dz + PTINY) && factor == Abs(dx * dy * dz) * square
    requires square == inv * inv * (dy * dz * (dy * dz) + dx * dz * (dx * dz) + dx * dy * (dx * dy))
    requires s == Sum(|w|, ByWeight(w)) && cube == s * s * s
    ensures var z := ZoneOf(Counterclockwise(x0, y0, z0, dx, dy, dz), q, 0.0, 1.0, 1.0, div);
            Sum(z.n, GramRows(z, w)) == factor * cube
  {
    BoxLengths(x0, y0, z0, dx, dy, dz, q, w, div, square, inv, factor);
    CubeSum(|w|, ByWeight(w), s, cube);
    EntriesMultiple(Counterclockwise(x0, y0, z0, dx, dy, dz), q, w, div, factor, cube);
  }

  ghost predicate IsMultiple(f: Table3, k: real, g: Table3) {
    forall z, y, x :: f(z, y, x) == k * g(z, y, x)
  }

  lemma MultipleSum(n: nat, k: real, g: Table3, f: Table3, t: real)
    requires Sum3(n, n, n, g) == t && IsMultiple(f, k, g)
    ensures Sum3(n, n, n, f) == k * t
  {
    MultipleOf(n, k, g, f);
  }

  lemma EntriesMultiple(c: Corners, q: seq<real>, w: seq<real>, div: (real, real) -> real, factor: real, cube: real)
    requires |q| == |w| && IsMultiple(Length(c, q, w, div), factor, CubeOf(ByWeight(w)))
    requires Sum3(|w|, |w|, |w|, CubeOf(ByWeight(w))) == cube
    ensures var z := ZoneOf(c, q, 0.0, 1.0, 1.0, div); Sum(z.n, GramRows(z, w)) == factor * cube
  {
    AllEntries(c, q, w, div);
    MultipleSum(|w|, factor, CubeOf(ByWeight(w)), Length(c, q, w, div), cube);
  }

  lemma BoxLengths(x0: real, y0: real, z0: real, dx: real, dy: real, dz: real, q: seq<real>, w: seq<real>,
                   div: (real, real) -> real, l: real, inv: real, factor: real)
    requires inv == div(1.0, dx * dy * dz + PTINY) && factor == Abs(dx * dy * dz) * l
    requires l == inv * inv * (dy * dz * (dy * dz) + dx * dz * (dx * dz) + dx * dy * (dx * dy))
    ensures IsMultiple(Length(Counterclockwise(x0, y0, z0, dx, dy, dz), q, w, div), factor, CubeOf(ByWeight(w)))
  {
    forall i, j, k
      ensures Length(Counterclockwise(x0, y0, z0, dx, dy, dz), q, w, div)(i, j, k) ==
              factor * CubeOf(ByWeight(w))(i, j, k)
    {
      BoxLength(x0, y0, z0, dx, dy, dz, q, w, div, i, j, k, l, inv, factor);
    }
  }

  lemma BoxLength(x0: real, y0: real, z0: real, dx: real, dy: real, dz: real, q: seq<real>, w: seq<real>,
                  div: (real, real) -> real, i: int, j: int, k: int, l: real, inv: real, factor: real)
    requires inv == div(1.0, dx * dy * dz + PTINY) && factor == Abs(dx * dy * dz) * l
    requires l == inv * inv * (dy * dz * (dy * dz) + dx * dz * (dx * dz) + dx * dy * (dx * dy))
    ensures Length(Counterclockwise(x0, y0, z0, dx, dy, dz), q, w, div)(i, j, k) ==
            factor * CubeOf(ByWeight(w))(i, j, k)
  {
    var m := Matrix(Vector(dx, 0.0, 0.0), Vector(0.0, dy, 0.0), Vector(0.0, 0.0, dz));
    var u := Vector(dy * dz * inv, dx * dz * inv, dx * dy * inv);
    BoxJacobian(x0, y0, z0, dx, dy, dz, At(q, i), At(q, j), At(q, k));
    DiagonalInverse(dx, dy, dz, inv);
    SquaredLength(dy * dz, dx * dz, dx * dy, inv, u, l);
    assert Dot(u, u) == l && ComputeDetj(m) == dx * dy * dz;
    LengthIs(Counterclockwise(x0, y0, z0, dx, dy, dz), q, w, div, i, j, k, m, u);
    BoxFactors(w, i, j, k, dx * dy * dz, l, factor);
  }

  lemma BoxFactors(w: seq<real>, i: int, j: int, k: int, d: real, l: real, factor: real)
    requires factor == Abs(d) * l
    ensures Weighed(w, i, j, k, d, l) == factor * CubeOf(ByWeight(w))(i, j, k)
  {
    Grouped(CubeOf(ByWeight(w))(i, j, k), Abs(d), l);
  }

  // ---- the zones of the benchmark ---------------------------------------------------------

  lemma ShearedInverse(a: real, b: real, dy: real, dz: real, inv: real)
    ensures var m := Matrix(Vector(a, 0.0, 0.0), Vector(b, dy, 0.0), Vector(0.0, 0.0, dz));
            Apply(Inverse(m, inv), Vector(1.0, 1.0, 1.0)) == Vector(dy * dz * inv, (a - b) * dz * inv, a * dy * inv)
  {
  }

  /** The field J^-1 (1, 1, 1) in a folded zone: its second component grows away from x == y. */
  lemma FoldedField(x0: real, y0: real, z0: real, dx: real, dy: real, dz: real, x: real, y: real, z: real, inv: real)
    ensures Apply(Inverse(JacobianAt(RowByRow(x0, y0, z0, dx, dy, dz), x, y, z), inv), Vector(1.0, 1.0, 1.0)) ==
            Vector(dy * dz * inv, 2.0 * dx * (x - y) * dz * inv, dx * (1.0 - 2.0 * y) * dy * inv)
  {
    FoldedJacobian(x0, y0, z0, dx, dy, dz, x, y, z);
    ShearedInverse(dx * (1.0 - 2.0 * y), dx * (1.0 - 2.0 * x), dy, dz, inv);
    assert dx * (1.0 - 2.0 * y) - dx * (1.0 - 2.0 * x) == 2.0 * dx * (x - y);
  }
}
