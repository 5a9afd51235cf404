/**
 * NODAL_ACCUMULATION_3D and ZONAL_ACCUMULATION_3D: scatter from zones to nodes by atomic
 * adds, and gather from nodes to zones.
 */
module Accumulation {
  import opened RealArith
  import opened Mesh
  import opened Sums
  import opened Team

  /** Listed zones, the offsets of their corners, and the share each corner gets or gives. */
  datatype Stencil = Stencil(zones: seq<int>, corners: seq<int>, share: real) {

    /** All corners of the listed zones are nodes, and the zones have entries in a zonal array. */
    ghost predicate Covered(nodes: nat, zonal: nat) {
      && |corners| >= 1 && (forall p | 0 <= p < |zones| :: 0 <= zones[p] < zonal)
      && (forall p, m | 0 <= p < |zones| && 0 <= m < |corners| :: 0 <= zones[p] + corners[m] < nodes)
    }

    /** What corner m of the zone in slot p adds to a node. */
    function Contribution(vol: seq<real>, node: int): Table2 {
      (p, m) =>
        if 0 <= p < |zones| && 0 <= m < |corners| && zones[p] + corners[m] == node then share * At(vol, zones[p])
        else 0.0
    }

    /** What all the adds bring to a node. */
    function Nodal(vol: seq<real>, node: int): real {
      Sum(|zones|, (p: int) => RowTotal(|corners|, Contribution(vol, node), p))
    }

    function CornerValue(x: seq<real>, i: int): int -> real {
      (m: int) => if 0 <= m < |corners| then At(x, i + corners[m]) else 0.0
    }

    /** The gathered value of zone i. */
    function Zonal(x: seq<real>, i: int): real {
      share * Sum(|corners|, CornerValue(x, i))
    }
  }

  /** The stencil of both kernels: the eight pointers of NDPTRSET, an eighth each. */
  function Corners(jp: int, kp: int): (offsets: seq<int>)
    ensures |offsets| == 8
  {
    seq(8, m => CornerOffset(m, jp, kp))
  }

  function Eighths(zones: seq<int>, jp: int, kp: int): Stencil {
    Stencil(zones, Corners(jp, kp), 0.125)
  }

  // ---- scatter ---------------------------------------------------------------------------

  /** Sums over the pairs (p, m) in a set, a row and all rows. */
  function OverRow(c: nat, f: Table2, p: int, todo: set<(int, int)>): real {
    if c == 0 then 0.0 else OverRow(c - 1, f, p, todo) + if (p, c - 1) in todo then f(p, c - 1) else 0.0
  }

  function OverPairs(n: nat, c: nat, f: Table2, todo: set<(int, int)>): real {
    if n == 0 then 0.0 else OverPairs(n - 1, c, f, todo) + OverRow(c, f, n - 1, todo)
  }

  lemma {:induction false} RowRemove(c: nat, f: Table2, p: int, todo: set<(int, int)>, r: int, m: nat)
    requires (r, m) in todo
    ensures OverRow(c, f, p, todo) == OverRow(c, f, p, todo - {(r, m)}) + if p == r && m < c then f(r, m) else 0.0
  {
    if c > 0 { RowRemove(c - 1, f, p, todo, r, m); }
  }

  lemma {:induction false} PairsRemove(n: nat, c: nat, f: Table2, todo: set<(int, int)>, r: nat, m: nat)
    requires (r, m) in todo
    ensures OverPairs(n, c, f, todo) == OverPairs(n, c, f, todo - {(r, m)}) + if r < n && m < c then f(r, m) else 0.0
  {
    if n > 0 {
      PairsRemove(n - 1, c, f, todo, r, m);
      RowRemove(c, f, n - 1, todo, r, m);
    }
  }

  lemma {:induction false} RowAll(c: nat, f: Table2, p: int, todo: set<(int, int)>)
    requires forall m | 0 <= m < c :: (p, m) in todo
    ensures OverRow(c, f, p, todo) == RowTotal(c, f, p)
  {
    if c > 0 { RowAll(c - 1, f, p, todo); }
  }

  lemma {:induction false} PairsAll(n: nat, c: nat, f: Table2, todo: set<(int, int)>)
    requires forall p, m | 0 <= p < n && 0 <= m < c :: (p, m) in todo
    ensures OverPairs(n, c, f, todo) == Sum(n, (p: int) => RowTotal(c, f, p))
  {
    if n > 0 {
      PairsAll(n - 1, c, f, todo);
      RowAll(c, f, n - 1, todo);
    }
  }

  lemma {:induction false} PairsNone(n: nat, c: nat, f: Table2)
    ensures OverPairs(n, c, f, {}) == 0.0
  {
    if n > 0 {
      PairsNone(n - 1, c, f);
      RowNone(c, f, n - 1);
    }
  }

  lemma {:induction false} RowNone(c: nat, f: Table2, p: int)
    ensures OverRow(c, f, p, {}) == 0.0
  {
    if c > 0 { RowNone(c - 1, f, p); }
  }

  function AllPairs(n: nat, c: nat): (all: set<(int, int)>)
    ensures forall p, m :: (p, m) in all <==> 0 <= p < n && 0 <= m < c
  {
    set p <- Iterations(n), m <- Iterations(c) :: (p, m)
  }

  /** What is left to be added plus what the node holds makes the final value. */
  ghost predicate Balanced(x: seq<real>, x0: seq<real>, vol: seq<real>, s: Stencil, todo: set<(int, int)>) {
    |x| == |x0| && forall i | 0 <= i < |x| ::
      x[i] + OverPairs(|s.zones|, |s.corners|, s.Contribution(vol, i), todo) == x0[i] + s.Nodal(vol, i)
  }

  lemma AddBalanced(x: seq<real>, x0: seq<real>, vol: seq<real>, s: Stencil, todo: set<(int, int)>, p: nat, m: nat)
    requires Balanced(x, x0, vol, s, todo) && (p, m) in todo && p < |s.zones| && m < |s.corners|
    requires 0 <= s.zones[p] + s.corners[m] < |x|
    ensures var i := s.zones[p] + s.corners[m];
            Balanced(x[i := x[i] + s.share * At(vol, s.zones[p])], x0, vol, s, todo - {(p, m)})
  {
    forall i | 0 <= i < |x|
      ensures OverPairs(|s.zones|, |s.corners|, s.Contribution(vol, i), todo) ==
              OverPairs(|s.zones|, |s.corners|, s.Contribution(vol, i), todo - {(p, m)}) + s.Contribution(vol, i)(p, m)
    {
      PairsRemove(|s.zones|, |s.corners|, s.Contribution(vol, i), todo, p, m);
    }
  }

  /** The atomic adds of all zones, in any order, leave the same nodal array. */
  method Scatter(x: array<real>, vol: seq<real>, s: Stencil)
    requires s.Covered(x.Length, |vol|)
    modifies x
    ensures forall i | 0 <= i < x.Length :: x[i] == old(x[i]) + s.Nodal(vol, i)
  {
    ghost var x0 := x[..];
    var todo := AllPairs(|s.zones|, |s.corners|);
    ghost var all := todo;
    forall i | 0 <= i < x.Length
      ensures OverPairs(|s.zones|, |s.corners|, s.Contribution(vol, i), todo) == s.Nodal(vol, i)
    {
      PairsAll(|s.zones|, |s.corners|, s.Contribution(vol, i), todo);
    }
    while todo != {}
      invariant todo <= all && Balanced(x[..], x0, vol, s, todo)
      decreases todo
    {
      var pair :| pair in todo;
      assert pair in all;
      AtomicAdd(x, vol, s, pair.0, pair.1, x0, todo);
      todo := todo - {pair};
    }
    forall i | 0 <= i < x.Length ensures x[i] == x0[i] + s.Nodal(vol, i) {
      PairsNone(|s.zones|, |s.corners|, s.Contribution(vol, i));
    }
  }

  method AtomicAdd(x: array<real>, vol: seq<real>, s: Stencil, p: nat, m: nat, ghost x0: seq<real>,
                   ghost todo: set<(int, int)>)
    requires s.Covered(x.Length, |vol|) && p < |s.zones| && m < |s.corners| && (p, m) in todo
    requires Balanced(x[..], x0, vol, s, todo)
    modifies x
    ensures Balanced(x[..], x0, vol, s, todo - {(p, m)})
  {
    AddBalanced(x[..], x0, vol, s, todo, p, m);
    ghost var before := x[..];
    var zone := s.zones[p];
    var val := s.share * vol[zone];
    var i := zone + s.corners[m];
    x[i] := x[i] + val;
    assert x[..] == before[i := before[i] + val];
  }

  // ---- gather ----------------------------------------------------------------------------

  lemma EightTerms(n: nat, f: int -> real)
    requires n == 8
    ensures Sum(n, f) == f(0) + f(1) + f(2) + f(3) + f(4) + f(5) + f(6) + f(7)
  {
    assert Sum(n, f) == Sum(n - 3, f) + f(n - 3) + f(n - 2) + f(n - 1);
    assert Sum(n - 3, f) == Sum(n - 6, f) + f(n - 6) + f(n - 5) + f(n - 4);
  }

  lemma ZonalIs(s: Stencil, x: seq<real>, i: int, total: real)
    requires |s.corners| == 8
    requires var f := s.CornerValue(x, i); total == f(0) + f(1) + f(2) + f(3) + f(4) + f(5) + f(6) + f(7)
    ensures s.share * total == s.Zonal(x, i)
  {
    EightTerms(|s.corners|, s.CornerValue(x, i));
  }

  /** The sum of the eight corner values, through the pointers. */
  method CornerSum(x: seq<real>, jp: int, kp: int, i: int) returns (total: real)
    requires forall m | 0 <= m < 8 :: 0 <= i + CornerOffset(m, jp, kp) < |x|
    ensures var f := Eighths([], jp, kp).CornerValue(x, i);
            total == f(0) + f(1) + f(2) + f(3) + f(4) + f(5) + f(6) + f(7)
  {
    var p := SetPointers(i, jp, kp);
    ghost var f := Eighths([], jp, kp).CornerValue(x, i);
    forall m | 0 <= m < 8 ensures 0 <= p[m] < |x| && x[p[m]] == f(m) {
      assert 0 <= i + CornerOffset(m, jp, kp) < |x|;
    }
    total := x[p[0]] + x[p[1]] + x[p[2]] + x[p[3]] + x[p[4]] + x[p[5]] + x[p[6]] + x[p[7]];
  }

  /** The gathered value of a zone is the mean over its eight nodes. */
  lemma ZonalMean(x: seq<real>, jp: nat, kp: nat, i: nat)
    requires i + 1 + jp + kp < |x|
    ensures Eighths([], jp, kp).Zonal(x, i) ==
            0.125 * (x[i] + x[i + 1] + x[i + jp] + x[i + jp + 1] + x[i + kp] + x[i + kp + 1] + x[i + kp + jp]
                     + x[i + kp + jp + 1])
  {
    var f := Eighths([], jp, kp).CornerValue(x, i);
    assert f(0) == x[i] && f(1) == x[i + 1] && f(2) == x[i + jp] && f(3) == x[i + jp + 1];
    assert f(4) == x[i + kp] && f(5) == x[i + kp + 1] && f(6) == x[i + kp + jp] && f(7) == x[i + kp + jp + 1];
    EightTerms(|Corners(jp, kp)|, f);
  }

  method ZonalBody(x: seq<real>, jp: int, kp: int, i: int) returns (v: real)
    requires forall m | 0 <= m < 8 :: 0 <= i + CornerOffset(m, jp, kp) < |x|
    ensures v == Eighths([], jp, kp).Zonal(x, i)
  {
    var total := CornerSum(x, jp, kp, i);
    ZonalIs(Eighths([], jp, kp), x, i, total);
    v := 0.125 * total;
  }

  /** The gather over all listed zones, in any order. */
  method Gather(vol: array<real>, x: seq<real>, zones: seq<int>, jp: int, kp: int)
    requires Eighths(zones, jp, kp).Covered(|x|, vol.Length)
    modifies vol
    ensures forall p | 0 <= p < |zones| :: vol[zones[p]] == Eighths([], jp, kp).Zonal(x, zones[p])
    ensures forall i | 0 <= i < vol.Length && i !in zones :: vol[i] == old(vol[i])
  {
    var todo := Iterations(|zones|);
    ghost var all, s := todo, Eighths(zones, jp, kp);
    while todo != {}
      invariant todo <= all
      invariant forall p | 0 <= p < |zones| && p !in todo :: vol[zones[p]] == Eighths([], jp, kp).Zonal(x, zones[p])
      invariant forall i | 0 <= i < vol.Length && i !in zones :: vol[i] == old(vol[i])
      decreases todo
    {
      var p: int :| p in todo;
      assert p in all;
      forall m | 0 <= m < 8 ensures 0 <= zones[p] + CornerOffset(m, jp, kp) < |x| {
        assert s.corners[m] == CornerOffset(m, jp, kp);
        assert 0 <= s.zones[p] + s.corners[m] < |x|;
      }
      vol[zones[p]] := ZonalBody(x, jp, kp, zones[p]);
      todo := todo - {p};
    }
  }

  // ---- scatter and gather are adjoint --------------------------------------------------------

  function ZoneSide(w: seq<real>, x: seq<real>, s: Stencil): int -> real {
    (p: int) => if 0 <= p < |s.zones| then At(w, s.zones[p]) * s.Zonal(x, s.zones[p]) else 0.0
  }

  function NodeSide(w: seq<real>, x: seq<real>, s: Stencil): int -> real {
    (node: int) => At(x, node) * s.Nodal(w, node)
  }

  /** The weight of a pair times x at its node. */
  function Paired(w: seq<real>, x: seq<real>, s: Stencil): Table2 {
    (p, m) => if 0 <= p < |s.zones| then s.share * At(w, s.zones[p]) * s.CornerValue(x, s.zones[p])(m) else 0.0
  }

  lemma ZoneRow(w: seq<real>, x: seq<real>, s: Stencil, p: nat)
    requires p < |s.zones|
    ensures ZoneSide(w, x, s)(p) == RowTotal(|s.corners|, Paired(w, x, s), p)
  {
    var a, f, g := At(w, s.zones[p]), s.CornerValue(x, s.zones[p]), Paired(w, x, s);
    SumScaled(|s.corners|, s.share * a, f, (m: int) => g(p, m));
    Grouped(a, s.share, Sum(|s.corners|, f));
  }

  lemma {:induction false} Delta(n: nat, c: int, v: real, f: int -> real)
    requires forall k | 0 <= k < n :: f(k) == if k == c then v else 0.0
    ensures Sum(n, f) == if 0 <= c < n then v else 0.0
  {
    if n > 0 { Delta(n - 1, c, v, f); }
  }

  /** What pair (p, m) contributes to a node, times x there. */
  function Entry(w: seq<real>, x: seq<real>, s: Stencil, node: int, p: int, m: int): real {
    At(x, node) * s.Contribution(w, node)(p, m)
  }

  lemma EntryAt(w: seq<real>, x: seq<real>, s: Stencil, node: int, p: nat, m: nat)
    requires p < |s.zones| && m < |s.corners|
    ensures Entry(w, x, s, node, p, m) == if node == s.zones[p] + s.corners[m] then Paired(w, x, s)(p, m) else 0.0
  {
    if node == s.zones[p] + s.corners[m] {
      assert s.CornerValue(x, s.zones[p])(m) == At(x, node);
      Grouped(At(x, node), s.share, At(w, s.zones[p]));
    }
  }

  /** For one zone: entries by node and corner, summed over the corners first. */
  function ZoneEntries(w: seq<real>, x: seq<real>, s: Stencil, p: int): Table2 {
    (node, m) => Entry(w, x, s, node, p, m)
  }

  function NodeEntries(w: seq<real>, x: seq<real>, s: Stencil): Table2 {
    (node, p) => RowTotal(|s.corners|, ZoneEntries(w, x, s, p), node)
  }

  lemma NodeEntry(w: seq<real>, x: seq<real>, s: Stencil, node: int, p: int)
    ensures NodeEntries(w, x, s)(node, p) == At(x, node) * RowTotal(|s.corners|, s.Contribution(w, node), p)
  {
    var e, f := ZoneEntries(w, x, s, p), s.Contribution(w, node);
    SumScaled(|s.corners|, At(x, node), (j: int) => f(p, j), (j: int) => e(node, j));
  }

  lemma NodeRow(w: seq<real>, x: seq<real>, s: Stencil, node: int)
    ensures NodeSide(w, x, s)(node) == RowTotal(|s.zones|, NodeEntries(w, x, s), node)
  {
    RowsScaled(|s.zones|, |s.corners|, At(x, node), s.Contribution(w, node), NodeEntries(w, x, s), node) by {
      forall p
        ensures NodeEntries(w, x, s)(node, p) == At(x, node) * RowTotal(|s.corners|, s.Contribution(w, node), p)
      {
        NodeEntry(w, x, s, node, p);
      }
    }
  }

  lemma RowsScaled(n: nat, c: nat, a: real, f: Table2, e: Table2, i: int)
    requires forall p :: e(i, p) == a * RowTotal(c, f, p)
    ensures RowTotal(n, e, i) == a * Sum(n, (p: int) => RowTotal(c, f, p))
  {
    SumScaled(n, a, (p: int) => RowTotal(c, f, p), (j: int) => e(i, j));
  }

  /** All a zone's adds, summed over the nodes first. */
  lemma ZoneColumn(w: seq<real>, x: seq<real>, s: Stencil, p: nat)
    requires p < |s.zones| && forall m | 0 <= m < |s.corners| :: 0 <= s.zones[p] + s.corners[m] < |x|
    ensures ColumnTotal(|x|, NodeEntries(w, x, s), p) == RowTotal(|s.corners|, Paired(w, x, s), p)
  {
    var e, g, c := ZoneEntries(w, x, s, p), Paired(w, x, s), |s.corners|;
    SumSwap(|x|, c, e);
    var f := NodeEntries(w, x, s);
    forall i ensures f(i, p) == RowTotal(c, e, i) {}
    SumExt(|x|, (i: int) => RowTotal(c, e, i), (i: int) => f(i, p));
    forall m | 0 <= m < c ensures ColumnTotal(|x|, e, m) == g(p, m) {
      forall node | 0 <= node < |x| ensures e(node, m) == if node == s.zones[p] + s.corners[m] then g(p, m) else 0.0 {
        EntryAt(w, x, s, node, p, m);
      }
      Delta(|x|, s.zones[p] + s.corners[m], g(p, m), (i: int) => e(i, m));
    }
    SumExt(c, (m: int) => ColumnTotal(|x|, e, m), (j: int) => g(p, j));
  }

  /** Over the same zones, w . gather(x) == x . scatter(w). */
  lemma Adjoint(w: seq<real>, x: seq<real>, s: Stencil)
    requires s.Covered(|x|, |w|)
    ensures Sum(|s.zones|, ZoneSide(w, x, s)) == Sum(|x|, NodeSide(w, x, s))
  {
    var e, n := NodeEntries(w, x, s), |s.zones|;
    SumSwap(|x|, n, e);
    forall node ensures NodeSide(w, x, s)(node) == RowTotal(n, e, node) { NodeRow(w, x, s, node); }
    SumExt(|x|, NodeSide(w, x, s), (node: int) => RowTotal(n, e, node));
    forall p | 0 <= p < n ensures ColumnTotal(|x|, e, p) == ZoneSide(w, x, s)(p) {
      ZoneColumn(w, x, s, p);
      ZoneRow(w, x, s, p);
    }
    SumExt(n, (p: int) => ColumnTotal(|x|, e, p), ZoneSide(w, x, s));
  }

  function Unit(n: nat): (s: seq<real>)
    ensures |s| == n
  {
    seq(n, _ => 1.0)
  }

  function Volume(vol: seq<real>, s: Stencil): int -> real {
    (p: int) => if 0 <= p < |s.zones| then At(vol, s.zones[p]) else 0.0
  }

  function NodalOf(vol: seq<real>, s: Stencil): int -> real {
    (node: int) => s.Nodal(vol, node)
  }

  lemma GatherOne(nodes: nat, s: Stencil, p: nat)
    requires forall q, m | 0 <= q < |s.zones| && 0 <= m < |s.corners| :: 0 <= s.zones[q] + s.corners[m] < nodes
    requires p < |s.zones| && s.share * |s.corners| as real == 1.0
    ensures s.Zonal(Unit(nodes), s.zones[p]) == 1.0
  {
    SumConstant(|s.corners|, 1.0);
    SumExt(|s.corners|, s.CornerValue(Unit(nodes), s.zones[p]), Constant(1.0));
  }

  /** When the shares of a zone add up to one the scatter neither makes nor loses volume. */
  lemma VolumeConserved(vol: seq<real>, nodes: nat, s: Stencil)
    requires s.Covered(nodes, |vol|) && s.share * |s.corners| as real == 1.0
    ensures Sum(nodes, NodalOf(vol, s)) == Sum(|s.zones|, Volume(vol, s))
  {
    var one := Unit(nodes);
    Adjoint(vol, one, s);
    SumExt(nodes, NodeSide(vol, one, s), NodalOf(vol, s));
    forall p | 0 <= p < |s.zones| ensures ZoneSide(vol, one, s)(p) == Volume(vol, s)(p) {
      GatherOne(nodes, s, p);
    }
    SumExt(|s.zones|, ZoneSide(vol, one, s), Volume(vol, s));
  }

  /** The real zones of the 3d mesh qualify for all of the above. */
  lemma RealZonesQualify(zones: seq<int>, n: nat, zonal: nat)
    requires RealZones(zones, n) && zonal >= (n + 4) * (n + 4) * (n + 4) - (n + 4) * (n + 4) - (n + 4) - 1
    ensures var s := Eighths(zones, n + 4, (n + 4) * (n + 4));
            s.Covered((n + 4) * (n + 4) * (n + 4), zonal) && s.share * |s.corners| as real == 1.0
  {
    var side := n + 4;
    var kp := side * side;
    var s := Eighths(zones, side, kp);
    forall p, m | 0 <= p < |zones| && 0 <= m < 8 ensures 0 <= zones[p] + s.corners[m] < side * side * side {
      CornersInside(zones, n, p, m);
    }
    forall p | 0 <= p < |zones| ensures 0 <= zones[p] < zonal {
      CornersInside(zones, n, p, 7);
    }
  }
}
