/** The Jacobian of a zone: its inverse by cofactors and the transforms of the basis functions. */
module Jacobian {
  import opened RealArith

  datatype Vector = Vector(x: real, y: real, z: real)

  /** A matrix by rows. */
  datatype Matrix = Matrix(x: Vector, y: Vector, z: Vector)

  function Dot(a: Vector, b: Vector): real {
    a.x * b.x + a.y * b.y + a.z * b.z
  }

  function Scaled(a: Vector, c: real): Vector {
    Vector(a.x * c, a.y * c, a.z * c)
  }

  function Transpose(m: Matrix): Matrix {
    Matrix(Vector(m.x.x, m.y.x, m.z.x), Vector(m.x.y, m.y.y, m.z.y), Vector(m.x.z, m.y.z, m.z.z))
  }

  /** A matrix times a vector. */
  function Apply(m: Matrix, v: Vector): Vector {
    Vector(Dot(m.x, v), Dot(m.y, v), Dot(m.z, v))
  }

  function ComputeDetj(j: Matrix): real {
    j.x.y * j.y.z * j.z.x - j.x.z * j.y.y * j.z.x + j.x.z * j.y.x * j.z.y
    - j.x.x * j.y.z * j.z.y - j.x.y * j.y.x * j.z.z + j.x.x * j.y.y * j.z.z
  }

  datatype Determinant = Determinant(detj: real, abs: real, inv: real)

  const PTINY := 1.0e-50

  /** bad_zone_algorithm: near-singular zones take the determinant at the centre. */
  function BadZone(unfixed: real, centre: real, tol: real, div: (real, real) -> real): (d: Determinant)
    ensures d.abs >= 0.0 && (d.abs == d.detj || d.abs == -d.detj)
  {
    var detj := if Abs(div(unfixed, centre)) < tol then centre else unfixed;
    Determinant(detj, Abs(detj), div(1.0, detj + PTINY))
  }

  ghost predicate Divides(div: (real, real) -> real) {
    forall a, b | b != 0.0 :: div(a, b) * b == a
  }

  lemma ComparedQuotient(q: real, u: real, c: real, tol: real)
    requires c != 0.0 && q * c == u
    ensures Abs(q) < tol <==> Abs(u) < tol * Abs(c)
  {
    if c < 0.0 {
      assert (-q) * (-c) == u;
      PositiveQuotient(-q, u, -c, tol);
    } else {
      PositiveQuotient(q, u, c, tol);
    }
  }

  lemma PositiveQuotient(q: real, u: real, c: real, tol: real)
    requires c > 0.0 && q * c == u
    ensures Abs(q) < tol <==> Abs(u) < tol * c
  {
    var a := Abs(q);
    assert Abs(u) == a * c by { if q < 0.0 { assert u < 0.0; } else { assert u >= 0.0; } }
    if a < tol { assert (tol - a) * c > 0.0; } else { assert (a - tol) * c >= 0.0; }
  }

  /**
   * Free of quotients: the centre's determinant replaces one that is small beside it, and
   * the reciprocal inverts the one taken, shifted off zero by PTINY.
   */
  lemma ReplacedWhenSmall(unfixed: real, centre: real, tol: real, div: (real, real) -> real)
    requires Divides(div) && centre != 0.0
    ensures var d := BadZone(unfixed, centre, tol, div);
            && d.detj == (if Abs(unfixed) < tol * Abs(centre) then centre else unfixed)
            && (d.detj != -PTINY ==> d.inv * (d.detj + PTINY) == 1.0)
  {
    ComparedQuotient(div(unfixed, centre), unfixed, centre, tol);
  }

  /** With the tolerance of zero that EDGE3D passes, no zone is replaced. */
  lemma ZeroTolerance(unfixed: real, centre: real, div: (real, real) -> real)
    ensures BadZone(unfixed, centre, 0.0, div).detj == unfixed
  {
  }

  function Cross(a: Vector, b: Vector): Vector {
    Vector(a.y * b.z - a.z * b.y, a.z * b.x - a.x * b.z, a.x * b.y - a.y * b.x)
  }

  /** jacobian_inv: every column is the cross product of the two other rows times `inv`, whatever that is. */
  function Inverse(j: Matrix, inv: real): Matrix {
    Transpose(Matrix(Scaled(Cross(j.y, j.z), inv), Scaled(Cross(j.z, j.x), inv), Scaled(Cross(j.x, j.y), inv)))
  }

  lemma CrossOrthogonal(a: Vector, b: Vector)
    ensures Dot(a, Cross(a, b)) == 0.0 && Dot(b, Cross(a, b)) == 0.0
  {
  }

  lemma Cyclic(a: Vector, b: Vector, c: Vector)
    ensures Dot(a, Cross(b, c)) == Dot(b, Cross(c, a))
  {
  }

  lemma TripleProducts(j: Matrix)
    ensures Dot(j.x, Cross(j.y, j.z)) == ComputeDetj(j)
    ensures Dot(j.y, Cross(j.z, j.x)) == ComputeDetj(j)
    ensures Dot(j.z, Cross(j.x, j.y)) == ComputeDetj(j)
  {
    Cyclic(j.x, j.y, j.z);
    Cyclic(j.y, j.z, j.x);
    FirstRow(j);
  }

  lemma FirstRow(j: Matrix)
    ensures Dot(j.x, Cross(j.y, j.z)) == ComputeDetj(j)
  {
  }

  lemma DotScaled(a: Vector, b: Vector, c: real)
    ensures Dot(a, Scaled(b, c)) == c * Dot(a, b)
  {
  }

  /** Row r against three scaled columns. */
  lemma RowProducts(r: Vector, a: Vector, b: Vector, c: Vector, inv: real, p: real, q: real, s: real, v: Vector)
    requires Dot(r, a) == p && Dot(r, b) == q && Dot(r, c) == s && v.x == inv * p && v.y == inv * q && v.z == inv * s
    ensures Apply(Matrix(Scaled(a, inv), Scaled(b, inv), Scaled(c, inv)), r) == v
  {
    ColumnProduct(r, a, inv, p);
    ColumnProduct(r, b, inv, q);
    ColumnProduct(r, c, inv, s);
  }

  lemma ColumnProduct(r: Vector, c: Vector, inv: real, p: real)
    requires Dot(r, c) == p
    ensures Dot(Scaled(c, inv), r) == inv * p
  {
    DotCommutes(Scaled(c, inv), r);
    DotScaled(r, c, inv);
  }

  /** The product of the Jacobian with it, by rows, is the identity up to det * inv. */
  lemma InverseIsInverse(j: Matrix, inv: real, d: real)
    requires d == inv * ComputeDetj(j)
    ensures var t := Transpose(Inverse(j, inv));
            && Apply(t, j.x) == Vector(d, 0.0, 0.0) && Apply(t, j.y) == Vector(0.0, d, 0.0)
                && Apply(t, j.z) == Vector(0.0, 0.0, d)
  {
    RowX(j);
    InverseRow(j.x, j, inv, ComputeDetj(j), 0.0, 0.0, Vector(d, 0.0, 0.0));
    InverseY(j, inv, d);
    InverseZ(j, inv, d);
  }

  lemma InverseY(j: Matrix, inv: real, d: real)
    requires d == inv * ComputeDetj(j)
    ensures Apply(Transpose(Inverse(j, inv)), j.y) == Vector(0.0, d, 0.0)
  {
    RowY(j);
    InverseRow(j.y, j, inv, 0.0, ComputeDetj(j), 0.0, Vector(0.0, d, 0.0));
  }

  lemma InverseZ(j: Matrix, inv: real, d: real)
    requires d == inv * ComputeDetj(j)
    ensures Apply(Transpose(Inverse(j, inv)), j.z) == Vector(0.0, 0.0, d)
  {
    RowZ(j);
    InverseRow(j.z, j, inv, 0.0, 0.0, ComputeDetj(j), Vector(0.0, 0.0, d));
  }

  lemma InverseRow(r: Vector, j: Matrix, inv: real, p: real, q: real, s: real, v: Vector)
    requires Dot(r, Cross(j.y, j.z)) == p && Dot(r, Cross(j.z, j.x)) == q && Dot(r, Cross(j.x, j.y)) == s
    requires v.x == inv * p && v.y == inv * q && v.z == inv * s
    ensures Apply(Transpose(Inverse(j, inv)), r) == v
  {
    RowProducts(r, Cross(j.y, j.z), Cross(j.z, j.x), Cross(j.x, j.y), inv, p, q, s, v);
  }

  lemma RowX(j: Matrix)
    ensures Dot(j.x, Cross(j.y, j.z)) == ComputeDetj(j) && Dot(j.x, Cross(j.z, j.x)) == Dot(j.x, Cross(j.x, j.y)) == 0.0
  {
    TripleProducts(j);
    CrossOrthogonal(j.z, j.x);
    CrossOrthogonal(j.x, j.y);
  }

  lemma RowY(j: Matrix)
    ensures Dot(j.y, Cross(j.z, j.x)) == ComputeDetj(j) && Dot(j.y, Cross(j.y, j.z)) == Dot(j.y, Cross(j.x, j.y)) == 0.0
  {
    TripleProducts(j);
    CrossOrthogonal(j.y, j.z);
    CrossOrthogonal(j.x, j.y);
  }

  lemma RowZ(j: Matrix)
    ensures Dot(j.z, Cross(j.x, j.y)) == ComputeDetj(j) && Dot(j.z, Cross(j.y, j.z)) == Dot(j.z, Cross(j.z, j.x)) == 0.0
  {
    TripleProducts(j);
    CrossOrthogonal(j.y, j.z);
    CrossOrthogonal(j.z, j.x);
  }

  lemma DotCommutes(a: Vector, b: Vector)
    ensures Dot(a, b) == Dot(b, a)
  {
  }

  /** Multiplying by a matrix on one side is multiplying by its transpose on the other. */
  lemma TransposeMoves(m: Matrix, v: Vector, u: Vector)
    ensures Dot(Apply(m, v), u) == Dot(v, Apply(Transpose(m), u))
  {
  }

  /** The combination c.x r1 + c.y r2 + c.z r3 of the rows of j, taken through m. */
  lemma ApplyCombination(m: Matrix, j: Matrix, c: Vector)
    ensures Apply(m, Apply(Transpose(j), c)) == Apply(Transpose(Matrix(Apply(m, j.x), Apply(m, j.y), Apply(m, j.z))), c)
  {
    RowCombination(m.x, j, c);
    RowCombination(m.y, j, c);
    RowCombination(m.z, j, c);
  }

  lemma RowCombination(r: Vector, j: Matrix, c: Vector)
    ensures Dot(r, Apply(Transpose(j), c)) == Dot(Vector(Dot(r, j.x), Dot(r, j.y), Dot(r, j.z)), c)
  {
  }

  /** Every entry of a matrix times one factor. */
  function ScaledMatrix(m: Matrix, s: real): Matrix {
    Matrix(Scaled(m.x, s), Scaled(m.y, s), Scaled(m.z, s))
  }

  lemma ScaledApply(m: Matrix, s: real, c: Vector, v: Vector)
    requires Apply(m, c) == v
    ensures Apply(ScaledMatrix(m, s), c) == Scaled(v, s)
  {
    ScaledRow(m.x, s, c, v.x);
    ScaledRow(m.y, s, c, v.y);
    ScaledRow(m.z, s, c, v.z);
  }

  lemma ScaledRow(r: Vector, s: real, c: Vector, p: real)
    requires Dot(r, c) == p
    ensures Dot(Scaled(r, s), c) == p * s
  {
    DotCommutes(Scaled(r, s), c);
    DotScaled(c, r, s);
    DotCommutes(c, r);
  }

  lemma PairScaled(a: Vector, b: Vector, t: Vector, s: real, p: real)
    requires t == Scaled(b, s) && Dot(a, b) == p
    ensures Dot(a, t) == s * p
  {
    DotScaled(a, b, s);
  }

  /** The matrix of transform_curl_edge_basis. */
  function CurlTransform(j: Matrix, s: real): Matrix {
    ScaledMatrix(Transpose(j), s)
  }

  /**
   * The transforms of the edge functions (by the inverse) and of their curls (by the scaled
   * transpose) keep the product of the two, up to det * inv * s.
   */
  lemma PairingKept(j: Matrix, inv: real, s: real, w: Vector, c: Vector, d: real, product: real)
    requires d == inv * ComputeDetj(j) && product == d * Dot(w, c)
    ensures Dot(Apply(Inverse(j, inv), w), Apply(CurlTransform(j, s), c)) == s * product
  {
    var v := Apply(Transpose(j), c);
    ScaledApply(Transpose(j), s, c, v);
    TransposePairing(j, inv, w, c, d);
    PairScaled(Apply(Inverse(j, inv), w), v, Apply(CurlTransform(j, s), c), s, product);
  }

  lemma TransposePairing(j: Matrix, inv: real, w: Vector, c: Vector, d: real)
    requires d == inv * ComputeDetj(j)
    ensures Dot(Apply(Inverse(j, inv), w), Apply(Transpose(j), c)) == d * Dot(w, c)
  {
    var k := Inverse(j, inv);
    TransposeMoves(k, w, Apply(Transpose(j), c));
    ApplyCombination(Transpose(k), j, c);
    InverseIsInverse(j, inv, d);
    DiagonalApplied(d, c);
    DotScaled(w, c, d);
  }

  lemma DiagonalApplied(d: real, c: Vector)
    ensures Apply(Transpose(Matrix(Vector(d, 0.0, 0.0), Vector(0.0, d, 0.0), Vector(0.0, 0.0, d))), c) == Scaled(c, d)
  {
  }

  // ---- all functions of a basis --------------------------------------------------------------

  /** transform_basis on M functions given by components. */
  method TransformBasis(m: Matrix, x: array<real>, y: array<real>, z: array<real>, tx: array<real>, ty: array<real>,
                        tz: array<real>)
    requires x.Length == y.Length == z.Length == tx.Length == ty.Length == tz.Length
    requires tx != ty && tx != tz && ty != tz && {tx, ty, tz} !! {x, y, z}
    modifies tx, ty, tz
    ensures forall p | 0 <= p < x.Length :: Vector(tx[p], ty[p], tz[p]) == Apply(m, Vector(x[p], y[p], z[p]))
  {
    for p := 0 to x.Length
      invariant forall q | 0 <= q < p :: Vector(tx[q], ty[q], tz[q]) == Apply(m, Vector(x[q], y[q], z[q]))
    {
      tx[p] := m.x.x * x[p] + m.x.y * y[p] + m.x.z * z[p];
      ty[p] := m.y.x * x[p] + m.y.y * y[p] + m.y.z * z[p];
      tz[p] := m.z.x * x[p] + m.z.y * y[p] + m.z.z * z[p];
    }
  }
}
