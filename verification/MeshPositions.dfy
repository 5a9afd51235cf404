/** setMeshPositions_3d: every node is written by up to eight zones, and they agree. */
module MeshPositions {
  import opened Buffer
  import opened Mesh
  import opened Sums

  /** The nodes written before the loop nest reaches (k, j, i). */
  predicate Written(k: int, j: int, i: int, c: int, b: int, a: int) {
    || (k > 0 && c <= k)
    || (j > 0 && c <= k + 1 && b <= j)
    || (i > 0 && c <= k + 1 && b <= j + 1 && a <= i)
  }

  ghost predicate Placed(v: View, f: Table3, k: int, j: int, i: int)
    requires v.Fits()
    reads v.buf
  {
    forall c, b, a | v.Has(c, b, a) && Written(k, j, i, c, b, a) :: v.Load(c, b, a) == f(c, b, a)
  }

  /** Two neighbouring stores; nodes that held f keep holding it. */
  method StorePair(v: View, c: nat, b: nat, i: nat, low: real, high: real, ghost f: Table3)
    requires v.Fits() && v.Has(c, b, i) && v.Has(c, b, i + 1) && low == f(c, b, i) && high == f(c, b, i + 1)
    modifies v.buf
    ensures v.Load(c, b, i) == f(c, b, i) && v.Load(c, b, i + 1) == f(c, b, i + 1)
    ensures forall z, y, x | v.Has(z, y, x) && old(v.Load(z, y, x)) == f(z, y, x) :: v.Load(z, y, x) == f(z, y, x)
  {
    v.Store(c, b, i, low);
    v.Store(c, b, i + 1, high);
  }

  lemma NewlyWritten(k: nat, j: nat, i: nat, c: int, b: int, a: int)
    requires Written(k, j, i + 1, c, b, a) && c >= 0 && b >= 0 && a >= 0
    ensures Written(k, j, i, c, b, a) || ((c == k || c == k + 1) && (b == j || b == j + 1) && (a == i || a == i + 1))
  {
  }

  /** The eight stores of one coordinate at the corners of zone (i, j, k), by corner number. */
  method StoreCorners(v: View, k: nat, j: nat, i: nat, values: seq<real>, ghost f: Table3)
    requires v.Fits() && v.nz > k + 1 && v.ny > j + 1 && v.nx > i + 1 && |values| == 8
    requires values[0] == f(k, j, i) && values[1] == f(k, j, i + 1)
    requires values[2] == f(k, j + 1, i) && values[3] == f(k, j + 1, i + 1)
    requires values[4] == f(k + 1, j, i) && values[5] == f(k + 1, j, i + 1)
    requires values[6] == f(k + 1, j + 1, i) && values[7] == f(k + 1, j + 1, i + 1)
    requires Placed(v, f, k, j, i)
    modifies v.buf
    ensures Placed(v, f, k, j, i + 1)
  {
    StorePair(v, k, j, i, values[0], values[1], f);
    StorePair(v, k, j + 1, i, values[2], values[3], f);
    StorePair(v, k + 1, j, i, values[4], values[5], f);
    StorePair(v, k + 1, j + 1, i, values[6], values[7], f);
    forall c, b, a | v.Has(c, b, a) && Written(k, j, i + 1, c, b, a) ensures v.Load(c, b, a) == f(c, b, a) {
      NewlyWritten(k, j, i, c, b, a);
    }
  }

  function PositionX(dx: real): Table3 {
    (k, j, i) => i as real * dx
  }

  function PositionY(dy: real): Table3 {
    (k, j, i) => j as real * dy
  }

  function PositionZ(dz: real): Table3 {
    (k, j, i) => k as real * dz
  }

  method PlaceX(v: View, dx: real, k: nat, j: nat, i: nat)
    requires v.Fits() && v.nz > k + 1 && v.ny > j + 1 && v.nx > i + 1 && Placed(v, PositionX(dx), k, j, i)
    modifies v.buf
    ensures Placed(v, PositionX(dx), k, j, i + 1)
  {
    var low, high := i as real * dx, (i + 1) as real * dx;
    StoreCorners(v, k, j, i, [low, high, low, high, low, high, low, high], PositionX(dx));
  }

  method PlaceY(v: View, dy: real, k: nat, j: nat, i: nat)
    requires v.Fits() && v.nz > k + 1 && v.ny > j + 1 && v.nx > i + 1 && Placed(v, PositionY(dy), k, j, i)
    modifies v.buf
    ensures Placed(v, PositionY(dy), k, j, i + 1)
  {
    var low, high := j as real * dy, (j + 1) as real * dy;
    StoreCorners(v, k, j, i, [low, low, high, high, low, low, high, high], PositionY(dy));
  }

  method PlaceZ(v: View, dz: real, k: nat, j: nat, i: nat)
    requires v.Fits() && v.nz > k + 1 && v.ny > j + 1 && v.nx > i + 1 && Placed(v, PositionZ(dz), k, j, i)
    modifies v.buf
    ensures Placed(v, PositionZ(dz), k, j, i + 1)
  {
    var low, high := k as real * dz, (k + 1) as real * dz;
    StoreCorners(v, k, j, i, [low, low, low, low, high, high, high, high], PositionZ(dz));
  }

  /** Every node of the mesh, phony ones included, gets its own coordinates. */
  method SetMeshPositions3d(x: View, dx: real, y: View, dy: real, z: View, dz: real, d: ADomain, ghost n: nat)
    requires x.buf != y.buf && x.buf != z.buf && y.buf != z.buf && x.Fits() && y.Fits() && z.Fits()
    requires d.ndims == 3 ==> Is3d(d, n) && x.nz == x.ny == x.nx == y.nz == y.ny == y.nx == z.nz == z.ny == z.nx == d.jp
    modifies x.buf, y.buf, z.buf
    ensures d.ndims == 3 ==> x.Holds(PositionX(dx)) && y.Holds(PositionY(dy)) && z.Holds(PositionZ(dz))
    ensures d.ndims != 3 ==> x.buf[..] == old(x.buf[..]) && y.buf[..] == old(y.buf[..]) && z.buf[..] == old(z.buf[..])
  {
    if d.ndims != 3 {
      return;
    }
    var klo, khi, jlo, jhi, ilo, ihi := d.kmin - NPNL, d.kmax + NPNR, d.jmin - NPNL, d.jmax + NPNR, d.imin - NPNL,
            d.imax + NPNR;
    for k := klo to khi
      invariant Placed(x, PositionX(dx), k, 0, 0) && Placed(y, PositionY(dy), k, 0, 0)
      invariant Placed(z, PositionZ(dz), k, 0, 0)
    {
      for j := jlo to jhi
        invariant Placed(x, PositionX(dx), k, j, 0) && Placed(y, PositionY(dy), k, j, 0)
        invariant Placed(z, PositionZ(dz), k, j, 0)
      {
        for i := ilo to ihi
          invariant Placed(x, PositionX(dx), k, j, i) && Placed(y, PositionY(dy), k, j, i)
          invariant Placed(z, PositionZ(dz), k, j, i)
        {
          PlaceX(x, dx, k, j, i);
          PlaceY(y, dy, k, j, i);
          PlaceZ(z, dz, k, j, i);
        }
      }
    }
  }

  lemma NodeEntry(v: View, f: Table3, side: nat, k: int, j: int, i: int)
    requires Shows(v, f) && v.nz == v.ny == v.nx == side && Inside(k, j, i, side, side, side)
    ensures var node := i + j * side + k * (side * side); 0 <= node < v.buf.Length && v.buf[node] == f(k, j, i)
  {
    NodeOffset(i, j, k, side);
    IdxInRange(k, j, i, side, side, side);
    assert v.Load(k, j, i) == f(k, j, i);
  }

  /** The node with index i + j*jp + k*kp stands at (i*dx, j*dy, k*dz). */
  lemma NodeCoordinates(x: View, dx: real, y: View, dy: real, z: View, dz: real, side: nat, k: int, j: int, i: int)
    requires Shows(x, PositionX(dx)) && Shows(y, PositionY(dy)) && Shows(z, PositionZ(dz))
    requires x.nz == x.ny == x.nx == side && y.nz == y.ny == y.nx == side && z.nz == z.ny == z.nx == side
    requires Inside(k, j, i, side, side, side)
    ensures var node := i + j * side + k * (side * side);
            && 0 <= node < x.buf.Length && node < y.buf.Length && node < z.buf.Length
            && x.buf[node] == i as real * dx && y.buf[node] == j as real * dy && z.buf[node] == k as real * dz
  {
    NodeEntry(x, PositionX(dx), side, k, j, i);
    NodeEntry(y, PositionY(dy), side, k, j, i);
    NodeEntry(z, PositionZ(dz), side, k, j, i);
  }
}
