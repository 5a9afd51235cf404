/**
 * The geometry of an EDGE3D zone: Jacobian and edge functions at a quadrature point from
 * the coordinates of its eight corners, and the kernel body computed from these alone.
 */
module EdgeGeometry {
  import opened Edge
  import opened EdgePositivity
  import opened Jacobian
  import opened MeshPositions
  import opened Quadrature
  import opened RealArith
  import opened Sums

  /** One coordinate of the eight corners. */
  type Corner8 = c: seq<real> | |c| == 8 witness [0.0, 0.0, 0.0, 0.0, 0.0, 0.0, 0.0, 0.0]

  datatype Corners = Corners(x: Corner8, y: Corner8, z: Corner8)

  // ---- the Jacobian ------------------------------------------------------------------

  /** Jxx, Jxy and Jxz: the derivative of a coordinate along the first axis. */
  function AlongFirst(c: Corner8, tmpyz: real, yloctmpz: real, tmpyzloc: real, yzloc: real): real {
    (c[1] - c[0]) * tmpyz + (c[2] - c[3]) * yloctmpz + (c[5] - c[4]) * tmpyzloc + (c[6] - c[7]) * yzloc
  }

  /** Jyx, Jyy and Jyz. */
  function AlongSecond(c: Corner8, tmpxz: real, xloctmpz: real, tmpxzloc: real, xzloc: real): real {
    (c[3] - c[0]) * tmpxz + (c[2] - c[1]) * xloctmpz + (c[7] - c[4]) * tmpxzloc + (c[6] - c[5]) * xzloc
  }

  /** Jzx, Jzy and Jzz. */
  function AlongThird(c: Corner8, tmpxy: real, xloctmpy: real, xyloc: real, tmpxyloc: real): real {
    (c[4] - c[0]) * tmpxy + (c[5] - c[1]) * xloctmpy + (c[6] - c[2]) * xyloc + (c[7] - c[3]) * tmpxyloc
  }

  function FirstAt(c: Corner8, y: real, z: real): real {
    AlongFirst(c, (1.0 - y) * (1.0 - z), y * (1.0 - z), (1.0 - y) * z, y * z)
  }

  function SecondAt(c: Corner8, x: real, z: real): real {
    AlongSecond(c, (1.0 - x) * (1.0 - z), x * (1.0 - z), (1.0 - x) * z, x * z)
  }

  function ThirdAt(c: Corner8, x: real, y: real): real {
    AlongThird(c, (1.0 - x) * (1.0 - y), x * (1.0 - y), x * y, (1.0 - x) * y)
  }

  function JacobianAt(c: Corners, x: real, y: real, z: real): Matrix {
    Matrix(Vector(FirstAt(c.x, y, z), FirstAt(c.y, y, z), FirstAt(c.z, y, z)),
           Vector(SecondAt(c.x, x, z), SecondAt(c.y, x, z), SecondAt(c.z, x, z)),
           Vector(ThirdAt(c.x, x, y), ThirdAt(c.y, x, y), ThirdAt(c.z, x, y)))
  }

  /** The cell-centred Jacobian, every product a quarter. */
  function CentreJacobian(c: Corners): Matrix {
    var q := 0.25;
    Matrix(Vector(AlongFirst(c.x, q, q, q, q), AlongFirst(c.y, q, q, q, q), AlongFirst(c.z, q, q, q, q)),
           Vector(AlongSecond(c.x, q, q, q, q), AlongSecond(c.y, q, q, q, q), AlongSecond(c.z, q, q, q, q)),
           Vector(AlongThird(c.x, q, q, q, q), AlongThird(c.y, q, q, q, q), AlongThird(c.z, q, q, q, q)))
  }

  lemma CentreIsHalfway(c: Corners)
    ensures CentreJacobian(c) == JacobianAt(c, 0.5, 0.5, 0.5)
  {
  }

  /** The coordinate of the point (x, y, z) of the zone: the corners weighted by nodebasis. */
  function Position(c: Corner8, x: real, y: real, z: real): real {
    c[0] * ((1.0 - x) * (1.0 - y) * (1.0 - z)) + c[1] * (x * (1.0 - y) * (1.0 - z))
    + c[2] * (x * y * (1.0 - z)) + c[3] * ((1.0 - x) * y * (1.0 - z))
    + c[4] * ((1.0 - x) * (1.0 - y) * z) + c[5] * (x * (1.0 - y) * z)
    + c[6] * (x * y * z) + c[7] * ((1.0 - x) * y * z)
  }

  /** A coordinate along a line of the first axis: its slope is the entry of the Jacobian. */
  lemma FirstIsSlope(c: Corner8, x: real, y: real, z: real)
    ensures Position(c, x, y, z) == Position(c, 0.0, y, z) + x * FirstAt(c, y, z)
  {
    var t0, t1, t2, t3 := (1.0 - y) * (1.0 - z), y * (1.0 - z), (1.0 - y) * z, y * z;
    Line(c[0], c[1], x, t0);
    Line(c[3], c[2], x, t1);
    Line(c[4], c[5], x, t2);
    Line(c[7], c[6], x, t3);
    Products(x, y, z);
    Sum4(x, (c[1] - c[0]) * t0, (c[2] - c[3]) * t1, (c[5] - c[4]) * t2, (c[6] - c[7]) * t3);
  }

  lemma SecondIsSlope(c: Corner8, x: real, y: real, z: real)
    ensures Position(c, x, y, z) == Position(c, x, 0.0, z) + y * SecondAt(c, x, z)
  {
    var t0, t1, t2, t3 := (1.0 - x) * (1.0 - z), x * (1.0 - z), (1.0 - x) * z, x * z;
    Line(c[0], c[3], y, t0);
    Line(c[1], c[2], y, t1);
    Line(c[4], c[7], y, t2);
    Line(c[5], c[6], y, t3);
    Products(y, x, z);
    Turned3(x, y, z);
    Sum4(y, (c[3] - c[0]) * t0, (c[2] - c[1]) * t1, (c[7] - c[4]) * t2, (c[6] - c[5]) * t3);
  }

  lemma ThirdIsSlope(c: Corner8, x: real, y: real, z: real)
    ensures Position(c, x, y, z) == Position(c, x, y, 0.0) + z * ThirdAt(c, x, y)
  {
    var t0, t1, t2, t3 := (1.0 - x) * (1.0 - y), x * (1.0 - y), x * y, (1.0 - x) * y;
    Line(c[0], c[4], z, t0);
    Line(c[1], c[5], z, t1);
    Line(c[2], c[6], z, t2);
    Line(c[3], c[7], z, t3);
    Sum4(z, (c[4] - c[0]) * t0, (c[5] - c[1]) * t1, (c[6] - c[2]) * t2, (c[7] - c[3]) * t3);
    Commuted(t0, z);
    Commuted(t1, z);
    Commuted(t2, z);
    Commuted(t3, z);
  }

  lemma Commuted(t: real, z: real)
    ensures t * (1.0 - z) == (1.0 - z) * t && t * z == z * t
  {
  }

  lemma Products(x: real, y: real, z: real)
    ensures (1.0 - x) * (1.0 - y) * (1.0 - z) == (1.0 - x) * ((1.0 - y) * (1.0 - z))
    ensures x * (1.0 - y) * (1.0 - z) == x * ((1.0 - y) * (1.0 - z))
    ensures x * y * (1.0 - z) == x * (y * (1.0 - z)) && (1.0 - x) * y * (1.0 - z) == (1.0 - x) * (y * (1.0 - z))
    ensures (1.0 - x) * (1.0 - y) * z == (1.0 - x) * ((1.0 - y) * z) && x * (1.0 - y) * z == x * ((1.0 - y) * z)
    ensures x * y * z == x * (y * z) && (1.0 - x) * y * z == (1.0 - x) * (y * z)
  {
    Product3(1.0 - x, 1.0 - y, 1.0 - z);
    Product3(x, 1.0 - y, 1.0 - z);
    Product3(x, y, 1.0 - z);
    Product3(1.0 - x, y, 1.0 - z);
    Product3(1.0 - x, 1.0 - y, z);
    Product3(x, 1.0 - y, z);
    Product3(x, y, z);
    Product3(1.0 - x, y, z);
  }

  /** The first two factors of every product exchanged. */
  lemma Turned3(x: real, y: real, z: real)
    ensures (1.0 - y) * (1.0 - x) == (1.0 - x) * (1.0 - y) && y * (1.0 - x) == (1.0 - x) * y
    ensures (1.0 - y) * x == x * (1.0 - y) && y * x == x * y
  {
  }

  lemma Line(a: real, b: real, x: real, t: real)
    ensures a * ((1.0 - x) * t) + b * (x * t) == a * t + x * ((b - a) * t)
  {
  }

  lemma Product3(a: real, b: real, c: real)
    ensures a * b * c == a * (b * c)
  {
  }

  lemma Sum4(x: real, a: real, b: real, c: real, d: real)
    ensures x * (a + b + c + d) == x * a + x * b + x * c + x * d
  {
  }

  // ---- the edge functions --------------------------------------------------------------

  /** The components of the twelve edge functions, four of them along each axis. */
  function EdgeX(y: real, z: real): (b: seq<real>)
    ensures |b| == 12
  {
    var tmpy, tmpz := 1.0 - y, 1.0 - z;
    [tmpy * tmpz, y * tmpz, tmpy * z, y * z] + Zeros(8)
  }

  function EdgeY(x: real, z: real): (b: seq<real>)
    ensures |b| == 12
  {
    var tmpx, tmpz := 1.0 - x, 1.0 - z;
    Zeros(4) + [tmpx * tmpz, x * tmpz, tmpx * z, x * z] + Zeros(4)
  }

  function EdgeZ(x: real, y: real): (b: seq<real>)
    ensures |b| == 12
  {
    var tmpx, tmpy := 1.0 - x, 1.0 - y;
    Zeros(8) + [tmpx * tmpy, x * tmpy, tmpx * y, x * y]
  }

  function Zeros(n: nat): (z: seq<real>)
    ensures |z| == n && forall p | 0 <= p < n :: z[p] == 0.0
  {
    seq(n, _ => 0.0)
  }

  function EdgeFunctions(x: real, y: real, z: real): (b: Basis)
    ensures b.Has(12)
  {
    Basis(EdgeX(y, z), EdgeY(x, z), EdgeZ(x, y))
  }

  function CurlX(x: real): (b: seq<real>)
    ensures |b| == 12
  {
    var tmpx := 1.0 - x;
    Zeros(4) + [tmpx, x, -tmpx, -x, -tmpx, -x, tmpx, x]
  }

  function CurlY(y: real): (b: seq<real>)
    ensures |b| == 12
  {
    var tmpy := 1.0 - y;
    [-tmpy, -y, tmpy, y] + Zeros(4) + [tmpy, -tmpy, y, -y]
  }

  function CurlZ(z: real): (b: seq<real>)
    ensures |b| == 12
  {
    var tmpz := 1.0 - z;
    [tmpz, -tmpz, z, -z, -tmpz, tmpz, -z, z] + Zeros(4)
  }

  function CurlFunctions(x: real, y: real, z: real): (b: Basis)
    ensures b.Has(12)
  {
    Basis(CurlX(x), CurlY(y), CurlZ(z))
  }

  /** A product with one factor stepped, or its complement. */
  lemma Stepped(a: real, t: real, h: real)
    ensures a * (t + h) - a * t == h * a && (t + h) * a - t * a == h * a
    ensures a * (1.0 - (t + h)) - a * (1.0 - t) == h * -a && (1.0 - (t + h)) * a - (1.0 - t) * a == h * -a
    ensures -(h * a) == h * -a
  {
  }

  // The tables of the curls are the curls of the edge functions: differences over any step h.

  lemma CurlXIsCurlFirst(x: real, y: real, z: real, h: real, p: nat)
    requires 4 <= p < 8
    ensures h * CurlX(x)[p] == (EdgeZ(x, y + h)[p] - EdgeZ(x, y)[p]) - (EdgeY(x, z + h)[p] - EdgeY(x, z)[p])
  {
    match p
    case 4 => Stepped(1.0 - x, z, h);
    case 5 => Stepped(x, z, h);
    case 6 => Stepped(1.0 - x, z, h);
    case 7 => Stepped(x, z, h);
    case _ =>
  }

  lemma CurlXIsCurlSecond(x: real, y: real, z: real, h: real, p: nat)
    requires 8 <= p < 12
    ensures h * CurlX(x)[p] == (EdgeZ(x, y + h)[p] - EdgeZ(x, y)[p]) - (EdgeY(x, z + h)[p] - EdgeY(x, z)[p])
  {
    match p
    case 8 => Stepped(1.0 - x, y, h);
    case 9 => Stepped(x, y, h);
    case 10 => Stepped(1.0 - x, y, h);
    case 11 => Stepped(x, y, h);
    case _ =>
  }

  lemma CurlXIsCurl(x: real, y: real, z: real, h: real, p: nat)
    requires p < 12
    ensures h * CurlX(x)[p] == (EdgeZ(x, y + h)[p] - EdgeZ(x, y)[p]) - (EdgeY(x, z + h)[p] - EdgeY(x, z)[p])
  {
    if 4 <= p < 8 {
      CurlXIsCurlFirst(x, y, z, h, p);
    } else if 8 <= p < 12 {
      CurlXIsCurlSecond(x, y, z, h, p);
    }
  }

  lemma CurlYIsCurlFirst(x: real, y: real, z: real, h: real, p: nat)
    requires 0 <= p < 4
    ensures h * CurlY(y)[p] == (EdgeX(y, z + h)[p] - EdgeX(y, z)[p]) - (EdgeZ(x + h, y)[p] - EdgeZ(x, y)[p])
  {
    match p
    case 0 => Stepped(1.0 - y, z, h);
    case 1 => Stepped(y, z, h);
    case 2 => Stepped(1.0 - y, z, h);
    case 3 => Stepped(y, z, h);
    case _ =>
  }

  lemma CurlYIsCurlSecond(x: real, y: real, z: real, h: real, p: nat)
    requires 8 <= p < 12
    ensures h * CurlY(y)[p] == (EdgeX(y, z + h)[p] - EdgeX(y, z)[p]) - (EdgeZ(x + h, y)[p] - EdgeZ(x, y)[p])
  {
    match p
    case 8 => Stepped(1.0 - y, x, h);
    case 9 => Stepped(1.0 - y, x, h);
    case 10 => Stepped(y, x, h);
    case 11 => Stepped(y, x, h);
    case _ =>
  }

  lemma CurlYIsCurl(x: real, y: real, z: real, h: real, p: nat)
    requires p < 12
    ensures h * CurlY(y)[p] == (EdgeX(y, z + h)[p] - EdgeX(y, z)[p]) - (EdgeZ(x + h, y)[p] - EdgeZ(x, y)[p])
  {
    if 0 <= p < 4 {
      CurlYIsCurlFirst(x, y, z, h, p);
    } else if 8 <= p < 12 {
      CurlYIsCurlSecond(x, y, z, h, p);
    }
  }

  lemma CurlZIsCurlFirst(x: real, y: real, z: real, h: real, p: nat)
    requires 0 <= p < 4
    ensures h * CurlZ(z)[p] == (EdgeY(x + h, z)[p] - EdgeY(x, z)[p]) - (EdgeX(y + h, z)[p] - EdgeX(y, z)[p])
  {
    match p
    case 0 => Stepped(1.0 - z, y, h);
    case 1 => Stepped(1.0 - z, y, h);
    case 2 => Stepped(z, y, h);
    case 3 => Stepped(z, y, h);
    case _ =>
  }

  lemma CurlZIsCurlSecond(x: real, y: real, z: real, h: real, p: nat)
    requires 4 <= p < 8
    ensures h * CurlZ(z)[p] == (EdgeY(x + h, z)[p] - EdgeY(x, z)[p]) - (EdgeX(y + h, z)[p] - EdgeX(y, z)[p])
  {
    match p
    case 4 => Stepped(1.0 - z, x, h);
    case 5 => Stepped(1.0 - z, x, h);
    case 6 => Stepped(z, x, h);
    case 7 => Stepped(z, x, h);
    case _ =>
  }

  lemma CurlZIsCurl(x: real, y: real, z: real, h: real, p: nat)
    requires p < 12
    ensures h * CurlZ(z)[p] == (EdgeY(x + h, z)[p] - EdgeY(x, z)[p]) - (EdgeX(y + h, z)[p] - EdgeX(y, z)[p])
  {
    if 0 <= p < 4 {
      CurlZIsCurlFirst(x, y, z, h, p);
    } else if 4 <= p < 8 {
      CurlZIsCurlSecond(x, y, z, h, p);
    }
  }

  // ---- a quadrature point ----------------------------------------------------------------

  /** transform_basis on all functions. */
  function Transformed(m: Matrix, b: Basis): (t: Basis)
    requires b.Has(|b.x|)
    ensures t.Has(|b.x|)
    ensures forall p | 0 <= p < |b.x| :: Vector(t.x[p], t.y[p], t.z[p]) == Apply(m, Vector(b.x[p], b.y[p], b.z[p]))
  {
    var v := seq(|b.x|, p requires 0 <= p < |b.x| => Apply(m, Vector(b.x[p], b.y[p], b.z[p])));
    Basis(seq(|v|, p requires 0 <= p < |v| => v[p].x), seq(|v|, p requires 0 <= p < |v| => v[p].y),
          seq(|v|, p requires 0 <= p < |v| => v[p].z))
  }

  /** What the innermost loop computes before the inner products. */
  function PointAt(c: Corners, x: real, y: real, z: real, detjCc: real, tol: real,
                   div: (real, real) -> real): (p: Point)
    ensures p.edge.Has(12) && p.curl.Has(12)
  {
    var j := JacobianAt(c, x, y, z);
    var unfixed := ComputeDetj(j);
    var d := BadZone(unfixed, detjCc, tol, div);
    Point(unfixed, Transformed(Inverse(j, d.inv), EdgeFunctions(x, y, z)),
          Transformed(CurlTransform(j, div(1.0, d.abs + PTINY)), CurlFunctions(x, y, z)))
  }

  /** The arguments of edge_MpSmatrix at a zone, with one-dimensional points q. */
  function ZoneOf(c: Corners, q: seq<real>, tol: real, alpha: real, beta: real, div: (real, real) -> real): (z: Zone)
    ensures z.n == 12 && z.Valid(|q|)
  {
    var detjCc := ComputeDetj(CentreJacobian(c));
    Zone(12, (i, j, k) => PointAt(c, At(q, i), At(q, j), At(q, k), detjCc, tol, div), detjCc, tol, alpha, beta, div)
  }

  // ---- box zones ---------------------------------------------------------------------------

  /** A box with its corners counter-clockwise in each layer, as the Jacobian formulas count them. */
  function Counterclockwise(x0: real, y0: real, z0: real, dx: real, dy: real, dz: real): Corners {
    Corners([x0, x0 + dx, x0 + dx, x0, x0, x0 + dx, x0 + dx, x0],
            [y0, y0, y0 + dy, y0 + dy, y0, y0, y0 + dy, y0 + dy],
            [z0, z0, z0, z0, z0 + dz, z0 + dz, z0 + dz, z0 + dz])
  }

  /** The same box with its corners in the order of NDPTRSET: row by row in each layer. */
  function RowByRow(x0: real, y0: real, z0: real, dx: real, dy: real, dz: real): Corners {
    Corners([x0, x0 + dx, x0, x0 + dx, x0, x0 + dx, x0, x0 + dx],
            [y0, y0, y0 + dy, y0 + dy, y0, y0, y0 + dy, y0 + dy],
            [z0, z0, z0, z0, z0 + dz, z0 + dz, z0 + dz, z0 + dz])
  }

  /** Where the corners are counted as the formulas expect, a box has the Jacobian of a box. */
  lemma BoxJacobian(x0: real, y0: real, z0: real, dx: real, dy: real, dz: real, x: real, y: real, z: real)
    ensures JacobianAt(Counterclockwise(x0, y0, z0, dx, dy, dz), x, y, z)
         == Matrix(Vector(dx, 0.0, 0.0), Vector(0.0, dy, 0.0), Vector(0.0, 0.0, dz))
    ensures ComputeDetj(JacobianAt(Counterclockwise(x0, y0, z0, dx, dy, dz), x, y, z)) == dx * dy * dz
  {
    Unity(dx, y, z);
    Unity(dy, x, z);
    Unity(dz, x, y);
  }

  /** The four products of a face add up to one. */
  lemma Unity(d: real, s: real, t: real)
    ensures d * ((1.0 - s) * (1.0 - t)) + d * (s * (1.0 - t)) + d * ((1.0 - s) * t) + d * (s * t) == d
    ensures d * ((1.0 - s) * (1.0 - t)) + d * (s * (1.0 - t)) + d * (s * t) + d * ((1.0 - s) * t) == d
  {
    assert (1.0 - s) * (1.0 - t) + s * (1.0 - t) == 1.0 - t;
    assert (1.0 - s) * t + s * t == t;
    Sum4(d, (1.0 - s) * (1.0 - t), s * (1.0 - t), (1.0 - s) * t, s * t);
  }

  /**
   * Counted row by row, as EDGE3D hands its corners over, the same box is folded: the
   * determinant changes its sign half way, and at the centre it vanishes.
   */
  lemma FoldedJacobian(x0: real, y0: real, z0: real, dx: real, dy: real, dz: real, x: real, y: real, z: real)
    ensures JacobianAt(RowByRow(x0, y0, z0, dx, dy, dz), x, y, z)
         == Matrix(Vector(dx * (1.0 - 2.0 * y), 0.0, 0.0), Vector(dx * (1.0 - 2.0 * x), dy, 0.0), Vector(0.0, 0.0, dz))
    ensures ComputeDetj(JacobianAt(RowByRow(x0, y0, z0, dx, dy, dz), x, y, z)) == dx * (1.0 - 2.0 * y) * dy * dz
    ensures ComputeDetj(CentreJacobian(RowByRow(x0, y0, z0, dx, dy, dz))) == 0.0
  {
    Folded(dx, y, z);
    Folded(dx, x, z);
    Unity(dy, x, z);
    Unity(dz, x, y);
  }

  lemma Folded(d: real, s: real, t: real)
    ensures d * ((1.0 - s) * (1.0 - t)) + -d * (s * (1.0 - t)) + d * ((1.0 - s) * t) + -d * (s * t) ==
            d * (1.0 - 2.0 * s)
  {
    assert (1.0 - s) * (1.0 - t) - s * (1.0 - t) == (1.0 - 2.0 * s) * (1.0 - t);
    assert (1.0 - s) * t - s * t == (1.0 - 2.0 * s) * t;
    Sum4(d, (1.0 - s) * (1.0 - t), -(s * (1.0 - t)), (1.0 - s) * t, -(s * t));
  }

  /** The corners of mesh zone (i, j, k) in the order the pointers of the kernel take them. */
  function MeshCorners(dx: real, dy: real, dz: real, k: int, j: int, i: int): Corners {
    Corners(AtCorners(PositionX(dx), k, j, i), AtCorners(PositionY(dy), k, j, i), AtCorners(PositionZ(dz), k, j, i))
  }

  /** Corner m is the node one further along the axes of its set bits. */
  function AtCorners(f: Table3, k: int, j: int, i: int): Corner8 {
    [f(k, j, i), f(k, j, i + 1), f(k, j + 1, i), f(k, j + 1, i + 1),
     f(k + 1, j, i), f(k + 1, j, i + 1), f(k + 1, j + 1, i), f(k + 1, j + 1, i + 1)]
  }

  lemma XCorners(dx: real, k: int, j: int, i: int, x0: real)
    requires x0 == i as real * dx
    ensures AtCorners(PositionX(dx), k, j, i) == [x0, x0 + dx, x0, x0 + dx, x0, x0 + dx, x0, x0 + dx]
  {
    NextNode(i, dx);
  }

  lemma YCorners(dy: real, k: int, j: int, i: int, y0: real)
    requires y0 == j as real * dy
    ensures AtCorners(PositionY(dy), k, j, i) == [y0, y0, y0 + dy, y0 + dy, y0, y0, y0 + dy, y0 + dy]
  {
    NextNode(j, dy);
  }

  lemma ZCorners(dz: real, k: int, j: int, i: int, z0: real)
    requires z0 == k as real * dz
    ensures AtCorners(PositionZ(dz), k, j, i) == [z0, z0, z0, z0, z0 + dz, z0 + dz, z0 + dz, z0 + dz]
  {
    NextNode(k, dz);
  }

  lemma MeshCornersFold(dx: real, dy: real, dz: real, k: int, j: int, i: int, x0: real, y0: real, z0: real)
    requires x0 == i as real * dx && y0 == j as real * dy && z0 == k as real * dz
    ensures MeshCorners(dx, dy, dz, k, j, i) == RowByRow(x0, y0, z0, dx, dy, dz)
  {
    XCorners(dx, k, j, i, x0);
    YCorners(dy, k, j, i, y0);
    ZCorners(dz, k, j, i, z0);
  }

  /** So every zone of the mesh the benchmark sets up is folded. */
  lemma MeshZonesFold(dx: real, dy: real, dz: real, k: int, j: int, i: int, x: real, y: real, z: real)
    ensures var c := MeshCorners(dx, dy, dz, k, j, i);
            && ComputeDetj(JacobianAt(c, x, y, z)) == dx * (1.0 - 2.0 * y) * dy * dz
            && ComputeDetj(CentreJacobian(c)) == 0.0
  {
    MeshCornersFold(dx, dy, dz, k, j, i, i as real * dx, j as real * dy, k as real * dz);
    FoldedJacobian(i as real * dx, j as real * dy, k as real * dz, dx, dy, dz, x, y, z);
  }

  lemma NextNode(i: int, d: real)
    ensures (i + 1) as real * d == i as real * d + d
  {
    assert (i + 1) as real == i as real + 1.0;
  }

  // ---- the kernel body from the corners on ----------------------------------------------------

  /** EDGE3D_BODY: unit coefficients, no tolerance, the rule of the given type and order. */
  method EdgeZone(c: Corners, kind: int, order: int, div: (real, real) -> real) returns (sum: real)
    requires Supported(kind, order)
    ensures var z := ZoneOf(c, RuleOf(kind, order).points, 0.0, 1.0, 1.0, div);
            sum == Sum(z.n, GramRows(z, RuleOf(kind, order).weights))
    ensures sum >= 0.0
  {
    RuleProperties(kind, order, 0);
    sum := EdgeBody(ZoneOf(c, RuleOf(kind, order).points, 0.0, 1.0, 1.0, div), kind, order);
  }
}
