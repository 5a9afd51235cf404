/** The structured mesh of the applications: index space, real zones and node positions. */
module Mesh {
  import opened Arith
  import opened Buffer
  import opened Sums

  /** Layers of phony nodes before and after the real ones. */
  const NPNL := 2
  const NPNR := 1

  /** Extents, strides and ranges of a mesh with rzmax - 1 real zones a side. */
  class ADomain {
    const ndims: int
    var imin: int
    var jmin: int
    var kmin: int
    var imax: int
    var jmax: int
    var kmax: int
    var jp: int
    var kp: int
    var nnalls: int
    var fpn: int
    var lpn: int
    var frn: int
    var lrn: int
    var fpz: int
    var lpz: int
    var nRealZones: int
    var nRealNodes: int

    constructor (rzmax: int, ndims: int)
      requires ndims == 2 || ndims == 3
      ensures this.ndims == ndims && imin == jmin == 2 && imax == jmax == rzmax + 1 && jp == rzmax + 3
      ensures ndims == 3 ==> kmin == 2 && kmax == rzmax + 1 && kp == Square(jp) && nnalls == Cube(jp)
      ensures ndims == 2 ==> kmin == kmax == kp == 0 && nnalls == Square(jp)
      ensures nRealZones == if ndims == 2 then Square(rzmax - 1) else Cube(rzmax - 1)
      ensures nRealNodes == if ndims == 2 then Square(rzmax) else Cube(rzmax)
      ensures fpn == 0 && lpn == nnalls - 1 && frn == 2 * kp + 2 * jp + 2 && lrn == nnalls - kp - jp - 2
      ensures fpz == kp + jp + 1 && lpz == lrn
    {
      this.ndims := ndims;
      var lo, hi := NPNL, rzmax + NPNR;
      imin, jmin, imax, jmax := lo, lo, hi, hi;
      var row := hi - lo + 1 + NPNL + NPNR;
      var zones, nodes := hi - lo, hi + 1 - lo;
      var plane, all := 0, 0;
      if ndims == 2 {
        kmin, kmax := 0, 0;
        all := row * (hi - lo + 1 + NPNL + NPNR);
        zones := zones * (hi - lo);
        nodes := nodes * (hi + 1 - lo);
      } else {
        kmin, kmax := lo, hi;
        plane := row * (hi - lo + 1 + NPNL + NPNR);
        all := plane * (hi - lo + 1 + NPNL + NPNR);
        zones := zones * ((hi - lo) * (hi - lo));
        nodes := nodes * ((hi + 1 - lo) * (hi + 1 - lo));
      }
      jp, kp, nnalls, nRealZones, nRealNodes := row, plane, all, zones, nodes;
      var first, last := 0, all - 1;
      var frn', lrn' := first + NPNL * (plane + row) + NPNL, last - NPNR * (plane + row) - NPNR;
      fpn, lpn, frn, lrn := first, last, frn', lrn';
      fpz, lpz := frn' - row - plane - 1, lrn';
    }
  }

  function Square(a: int): int {
    a * a
  }

  function Cube(a: int): int {
    a * a * a
  }

  /** A 3d mesh with n real zones and n + 4 nodes a side. */
  predicate Is3d(d: ADomain, n: nat)
    reads d
  {
    && d.ndims == 3 && d.jp == n + 4 && d.kp == (n + 4) * (n + 4) && d.nnalls == (n + 4) * (n + 4) * (n + 4)
    && d.imin == d.jmin == d.kmin == 2 && d.imax == d.jmax == d.kmax == n + 2 && d.nRealZones == n * n * n
    && d.frn == 2 + 2 * d.jp + 2 * d.kp
  }

  /** The mesh built for rzmax is of this kind. */
  method Build3d(rzmax: nat) returns (d: ADomain)
    requires rzmax >= 1
    ensures fresh(d) && Is3d(d, rzmax - 1)
  {
    d := new ADomain(rzmax, 3);
  }

  // ---- real zones ------------------------------------------------------------------------

  /** The index i + j*jp + k*kp. */
  lemma NodeOffset(i: int, j: int, k: int, jp: nat)
    ensures i + j * jp + k * (jp * jp) == Idx(k, j, i, jp, jp)
  {
    assert (k * jp + j) * jp == k * jp * jp + j * jp;
    assert k * (jp * jp) == k * jp * jp;
  }

  /** Slot of real zone (i, j, k), counted from the first one, and its index in the mesh. */
  function Slot(k: int, j: int, i: int, n: nat): int {
    Idx(k, j, i, n, n)
  }

  function ZoneIndex(k: int, j: int, i: int, n: nat): int {
    Idx(k + 2, j + 2, i + 2, n + 4, n + 4)
  }

  lemma SlotDistinct(k: int, j: int, i: int, c: int, b: int, a: int, n: nat)
    requires Inside(k, j, i, n, n, n) && Inside(c, b, a, n, n, n)
    ensures 0 <= Slot(k, j, i, n) < n * n * n
    ensures Slot(k, j, i, n) == Slot(c, b, a, n) <==> k == c && j == b && i == a
  {
    IdxInRange(k, j, i, n, n, n);
    if Slot(k, j, i, n) == Slot(c, b, a, n) { IdxInjective(k, j, i, c, b, a, n, n, n); }
  }

  /** The slots the loop nest has passed hold their zones. */
  ghost predicate ListedSoFar(zones: seq<int>, n: nat, c: int, b: int, a: int) {
    |zones| == n * n * n && forall k, j, i | Inside(k, j, i, n, n, n) && Before(k, j, i, c, b, a) ::
      0 <= Slot(k, j, i, n) < |zones| && zones[Slot(k, j, i, n)] == ZoneIndex(k, j, i, n)
  }

  lemma SetSlot(zones: seq<int>, n: nat, k: nat, j: nat, i: nat)
    requires Inside(k, j, i, n, n, n) && ListedSoFar(zones, n, k, j, i)
    ensures (SlotDistinct(k, j, i, k, j, i, n); ListedSoFar(zones[Slot(k, j, i, n) := ZoneIndex(k, j, i, n)],
                                                            n, k, j, i + 1))
  {
    SlotDistinct(k, j, i, k, j, i, n);
    forall c, b, a | Inside(c, b, a, n, n, n) && Before(c, b, a, k, j, i + 1)
      ensures 0 <= Slot(c, b, a, n) < |zones|
      ensures zones[Slot(k, j, i, n) := ZoneIndex(k, j, i, n)][Slot(c, b, a, n)] == ZoneIndex(c, b, a, n)
    {
      SlotDistinct(c, b, a, k, j, i, n);
    }
  }

  /** Every slot of the list holds its real zone. */
  ghost predicate RealZones(zones: seq<int>, n: nat) {
    ListedSoFar(zones, n, n, 0, 0)
  }

  /** setRealZones_3d, which leaves the list alone on a domain of another dimension. */
  method SetRealZones3d(zones: array<int>, d: ADomain, ghost n: nat)
    requires d.ndims == 3 ==> Is3d(d, n) && zones.Length == n * n * n
    modifies zones
    ensures d.ndims != 3 ==> zones[..] == old(zones[..])
    ensures d.ndims == 3 ==> RealZones(zones[..], n)
  {
    if d.ndims != 3 {
      return;
    }
    var jStride := d.imax - d.imin;
    var kStride := jStride * (d.jmax - d.jmin);
    for k := d.kmin to d.kmax
      invariant ListedSoFar(zones[..], n, k - 2, 0, 0)
    {
      for j := d.jmin to d.jmax
        invariant ListedSoFar(zones[..], n, k - 2, j - 2, 0)
      {
        for i := d.imin to d.imax
          invariant ListedSoFar(zones[..], n, k - 2, j - 2, i - 2)
        {
          var ip := i + j * d.jp + k * d.kp;
          var id := (i - d.imin) + (j - d.jmin) * jStride + (k - d.kmin) * kStride;
          NodeOffset(i, j, k, n + 4);
          NodeOffset(i - 2, j - 2, k - 2, n);
          SetSlot(zones[..], n, k - 2, j - 2, i - 2);
          SlotDistinct(k - 2, j - 2, i - 2, k - 2, j - 2, i - 2, n);
          ghost var before := zones[..];
          zones[id] := ip;
          assert zones[..] == before[id := ip];
        }
      }
    }
  }

  /** The slot of a zone, counted along its rows from the first real one, holds its index i + j*jp + k*kp. */
  lemma ListedZone(zones: seq<int>, d: ADomain, n: nat, k: int, j: int, i: int)
    requires Is3d(d, n) && RealZones(zones, n)
    requires d.kmin <= k < d.kmax && d.jmin <= j < d.jmax && d.imin <= i < d.imax
    ensures var id := (i - d.imin) + (j - d.jmin) * n + (k - d.kmin) * (n * n);
            0 <= id < |zones| && zones[id] == i + j * d.jp + k * d.kp
  {
    NodeOffset(i, j, k, n + 4);
    NodeOffset(i - 2, j - 2, k - 2, n);
    SlotDistinct(k - 2, j - 2, i - 2, k - 2, j - 2, i - 2, n);
  }

  /** An index is listed exactly when it is that of a zone in the real range; the first one is frn. */
  lemma ListedIff(zones: seq<int>, d: ADomain, n: nat, v: int)
    requires Is3d(d, n) && RealZones(zones, n)
    ensures v in zones <==> exists k, j, i :: InRange(d, k, j, i) && v == i + j * d.jp + k * d.kp
    ensures n >= 1 ==> zones[0] == d.frn
  {
    if v in zones {
      var p :| 0 <= p < |zones| && zones[p] == v;
      SlotOnto(p, n);
      var k, j, i :| Inside(k, j, i, n, n, n) && Slot(k, j, i, n) == p;
      NodeOffset(i, j, k, n);
      assert InRange(d, k + 2, j + 2, i + 2);
      ListedZone(zones, d, n, k + 2, j + 2, i + 2);
    }
    if k, j, i :| InRange(d, k, j, i) && v == i + j * d.jp + k * d.kp {
      ListedZone(zones, d, n, k, j, i);
    }
    if n >= 1 { ListedZone(zones, d, n, 2, 2, 2); }
  }

  /** Zone (i, j, k) lies in the real range of the domain. */
  predicate InRange(d: ADomain, k: int, j: int, i: int)
    reads d
  {
    d.kmin <= k < d.kmax && d.jmin <= j < d.jmax && d.imin <= i < d.imax
  }

  /** Every slot is the slot of some zone. */
  lemma SlotOnto(p: nat, n: nat)
    requires p < n * n * n
    ensures exists k, j, i :: Inside(k, j, i, n, n, n) && Slot(k, j, i, n) == p
  {
    if n == 0 { assert false; }
    Split(p, n);
    DivBound(p, n * n, n);
    var r := p / n;
    Split(r, n);
    DivBound(r, n, n);
    assert Inside(r / n, r % n, p % n, n, n, n) && Slot(r / n, r % n, p % n, n) == p;
  }

  /** The list has no repetition, and all eight corners of every zone in it are nodes of the mesh. */
  lemma ZonesDistinct(zones: seq<int>, n: nat, p: nat, q: nat)
    requires RealZones(zones, n) && p < |zones| && q < |zones| && zones[p] == zones[q]
    ensures p == q
  {
    SlotOnto(p, n);
    SlotOnto(q, n);
    var k, j, i :| Inside(k, j, i, n, n, n) && Slot(k, j, i, n) == p;
    var c, b, a :| Inside(c, b, a, n, n, n) && Slot(c, b, a, n) == q;
    IdxInjective(k + 2, j + 2, i + 2, c + 2, b + 2, a + 2, n + 4, n + 4, n + 4);
  }

  /** Offset of corner m of a zone from its index: the eight pointers of NDPTRSET. */
  function CornerOffset(m: int, jp: int, kp: int): int {
    (if m % 2 == 1 then 1 else 0) + (if (m / 2) % 2 == 1 then jp else 0) + (if m / 4 == 1 then kp else 0)
  }

  /** NDPTRSET builds each pointer from an earlier one. */
  method SetPointers(v: int, jp: int, kp: int) returns (p: seq<int>)
    ensures |p| == 8 && forall m | 0 <= m < 8 :: p[m] == v + CornerOffset(m, jp, kp)
  {
    var v0 := v;
    var v1 := v0 + 1;
    var v2 := v0 + jp;
    var v3 := v1 + jp;
    var v4 := v0 + kp;
    var v5 := v1 + kp;
    var v6 := v2 + kp;
    var v7 := v3 + kp;
    p := [v0, v1, v2, v3, v4, v5, v6, v7];
  }

  /** Corner m of zone (i, j, k) is the node m % 2 further along i, (m / 2) % 2 along j and m / 4 along k. */
  lemma CornerNode(k: int, j: int, i: int, m: nat, side: nat)
    requires m < 8
    ensures Idx(k, j, i, side, side) + CornerOffset(m, side, side * side) ==
            Idx(k + m / 4, j + (m / 2) % 2, i + m % 2, side, side)
  {
    NodeOffset(i, j, k, side);
    NodeOffset(i + m % 2, j + (m / 2) % 2, k + m / 4, side);
    assert (k + m / 4) * (side * side) == k * (side * side) + if m / 4 == 1 then side * side else 0;
    assert (j + (m / 2) % 2) * side == j * side + if (m / 2) % 2 == 1 then side else 0;
  }

  lemma CornersInside(zones: seq<int>, n: nat, p: nat, m: nat)
    requires RealZones(zones, n) && p < |zones| && m < 8
    ensures 0 <= zones[p] + CornerOffset(m, n + 4, (n + 4) * (n + 4)) < (n + 4) * (n + 4) * (n + 4)
    ensures 0 <= zones[p] < (n + 4) * (n + 4) * (n + 4)
  {
    SlotOnto(p, n);
    var k, j, i :| Inside(k, j, i, n, n, n) && Slot(k, j, i, n) == p;
    CornerNode(k + 2, j + 2, i + 2, m, n + 4);
    IdxInRange(k + 2 + m / 4, j + 2 + (m / 2) % 2, i + 2 + m % 2, n + 4, n + 4, n + 4);
    IdxInRange(k + 2, j + 2, i + 2, n + 4, n + 4, n + 4);
  }
}
