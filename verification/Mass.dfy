/** MASS3DPA: the mass operator by partial assembly, over two ping-pong buffers. */
module Mass {
  import opened Arith
  import opened Buffer
  import opened Elements
  import opened Sums

  /** The column stored at the end of a stage: out[z][y][x] = u[z] for all z. */
  method StoreColumn(out: View, y: nat, x: nat, u: array<real>, ghost r: Table3)
    requires out.buf != u && out.Fits() && u.Length == out.nz && y < out.ny && x < out.nx
    requires out.Columns(r, y, x) && forall z | 0 <= z < out.nz :: u[z] == r(z, y, x)
    modifies out.buf
    ensures out.Columns(r, y, x + 1)
  {
    for z := 0 to out.nz
      invariant forall w | 0 <= w < out.nz :: u[w] == r(w, y, x)
      invariant out.Columns(r, y, x)
      invariant forall w | 0 <= w < z :: out.Load(w, y, x) == r(w, y, x)
    {
      out.Store(z, y, x, u[z]);
    }
  }

  // Contraction of one axis, one column of accumulators at a time.

  method ProductX(t: View, m: View, z: nat, y: nat, q: nat, k: nat, ghost f: Table3, ghost c: Table2) returns (p: real)
    requires t.Fits() && m.Fits() && t.Has(z, y, k) && m.Has(0, q, k) && t.Holds(f) && m.HoldsRows(c)
    ensures p == TermX(f, c, z, y, q)(k)
  {
    var v := t.Read(z, y, k, f);
    var w := m.ReadRow(q, k, c);
    p := v * w;
  }

  method ColumnX(t: View, m: View, y: nat, q: nat, ghost f: Table3, ghost c: Table2) returns (u: array<real>)
    requires t.Fits() && m.Fits() && m.nx == t.nx && y < t.ny && q < m.ny && t.Holds(f) && m.HoldsRows(c)
    ensures fresh(u) && u.Length == t.nz && forall z | 0 <= z < t.nz :: u[z] == AlongX(t.nx, f, c)(z, y, q)
  {
    u := new real[t.nz](_ => 0.0);
    for k := 0 to t.nx
      invariant forall z | 0 <= z < t.nz :: u[z] == Sum(k, TermX(f, c, z, y, q))
    {
      AddEntryX(t, m, y, q, k, u, f, c);
    }
  }

  method AddEntryX(t: View, m: View, y: nat, q: nat, k: nat, u: array<real>, ghost f: Table3, ghost c: Table2)
    requires t.Fits() && m.Fits() && m.nx == t.nx && y < t.ny && q < m.ny && k < t.nx && t.Holds(f) && m.HoldsRows(c)
    requires u != t.buf && u != m.buf && u.Length == t.nz
    requires forall z | 0 <= z < t.nz :: u[z] == Sum(k, TermX(f, c, z, y, q))
    modifies u
    ensures forall z | 0 <= z < t.nz :: u[z] == Sum(k + 1, TermX(f, c, z, y, q))
  {
    for z := 0 to t.nz
      invariant forall w | 0 <= w < z :: u[w] == Sum(k + 1, TermX(f, c, w, y, q))
      invariant forall w | z <= w < t.nz :: u[w] == Sum(k, TermX(f, c, w, y, q))
    {
      var p := ProductX(t, m, z, y, q, k, f, c);
      u[z] := u[z] + p;
    }
  }

  method ProductY(t: View, m: View, z: nat, q: nat, x: nat, k: nat, ghost f: Table3, ghost c: Table2) returns (p: real)
    requires t.Fits() && m.Fits() && t.Has(z, k, x) && m.Has(0, q, k) && t.Holds(f) && m.HoldsRows(c)
    ensures p == TermY(f, c, z, q, x)(k)
  {
    var v := t.Read(z, k, x, f);
    var w := m.ReadRow(q, k, c);
    p := v * w;
  }

  method ColumnY(t: View, m: View, q: nat, x: nat, ghost f: Table3, ghost c: Table2) returns (u: array<real>)
    requires t.Fits() && m.Fits() && m.nx == t.ny && x < t.nx && q < m.ny && t.Holds(f) && m.HoldsRows(c)
    ensures fresh(u) && u.Length == t.nz && forall z | 0 <= z < t.nz :: u[z] == AlongY(t.ny, f, c)(z, q, x)
  {
    u := new real[t.nz](_ => 0.0);
    for k := 0 to t.ny
      invariant forall z | 0 <= z < t.nz :: u[z] == Sum(k, TermY(f, c, z, q, x))
    {
      AddEntryY(t, m, q, x, k, u, f, c);
    }
  }

  method AddEntryY(t: View, m: View, q: nat, x: nat, k: nat, u: array<real>, ghost f: Table3, ghost c: Table2)
    requires t.Fits() && m.Fits() && m.nx == t.ny && x < t.nx && q < m.ny && k < t.ny && t.Holds(f) && m.HoldsRows(c)
    requires u != t.buf && u != m.buf && u.Length == t.nz
    requires forall z | 0 <= z < t.nz :: u[z] == Sum(k, TermY(f, c, z, q, x))
    modifies u
    ensures forall z | 0 <= z < t.nz :: u[z] == Sum(k + 1, TermY(f, c, z, q, x))
  {
    for z := 0 to t.nz
      invariant forall w | 0 <= w < z :: u[w] == Sum(k + 1, TermY(f, c, w, q, x))
      invariant forall w | z <= w < t.nz :: u[w] == Sum(k, TermY(f, c, w, q, x))
    {
      var p := ProductY(t, m, z, q, x, k, f, c);
      u[z] := u[z] + p;
    }
  }

  method ProductZ(t: View, m: View, q: nat, y: nat, x: nat, k: nat, ghost f: Table3, ghost c: Table2) returns (p: real)
    requires t.Fits() && m.Fits() && t.Has(k, y, x) && m.Has(0, q, k) && t.Holds(f) && m.HoldsRows(c)
    ensures p == TermZ(f, c, q, y, x)(k)
  {
    var v := t.Read(k, y, x, f);
    var w := m.ReadRow(q, k, c);
    p := v * w;
  }

  method AddPlane(t: View, m: View, y: nat, x: nat, k: nat, u: array<real>, ghost f: Table3, ghost c: Table2)
    requires t.Fits() && m.Fits() && t.Has(k, y, x) && m.nx == t.nz && t.Holds(f) && m.HoldsRows(c)
    requires u != t.buf && u != m.buf && u.Length == m.ny
    requires forall q | 0 <= q < m.ny :: u[q] == Sum(k, TermZ(f, c, q, y, x))
    modifies u
    ensures forall q | 0 <= q < m.ny :: u[q] == Sum(k + 1, TermZ(f, c, q, y, x))
  {
    for q := 0 to m.ny
      invariant forall w | 0 <= w < q :: u[w] == Sum(k + 1, TermZ(f, c, w, y, x))
      invariant forall w | q <= w < m.ny :: u[w] == Sum(k, TermZ(f, c, w, y, x))
    {
      var p := ProductZ(t, m, q, y, x, k, f, c);
      u[q] := u[q] + p;
    }
  }

  method ColumnZ(t: View, m: View, y: nat, x: nat, ghost f: Table3, ghost c: Table2) returns (u: array<real>)
    requires t.Fits() && m.Fits() && m.nx == t.nz && x < t.nx && y < t.ny && t.Holds(f) && m.HoldsRows(c)
    ensures fresh(u) && u.Length == m.ny && forall q | 0 <= q < m.ny :: u[q] == AlongZ(t.nz, f, c)(q, y, x)
  {
    u := new real[m.ny](_ => 0.0);
    for k := 0 to t.nz
      invariant forall q | 0 <= q < m.ny :: u[q] == Sum(k, TermZ(f, c, q, y, x))
    {
      AddPlane(t, m, y, x, k, u, f, c);
    }
  }

  /** Stages 3 and 7. */
  method ContractX(t: View, m: View, out: View, ghost f: Table3, ghost c: Table2)
    requires out.buf != t.buf && out.buf != m.buf && t.Fits() && m.Fits() && out.Fits()
    requires m.nx == t.nx && out.nz == t.nz && out.ny == t.ny && out.nx == m.ny
    requires t.Holds(f) && m.HoldsRows(c)
    modifies out.buf
    ensures out.Holds(AlongX(t.nx, f, c))
  {
    ghost var r := AlongX(t.nx, f, c);
    for y := 0 to out.ny
      invariant out.Columns(r, y, 0)
    {
      for q := 0 to out.nx
        invariant out.Columns(r, y, q)
      {
        var u := ColumnX(t, m, y, q, f, c);
        StoreColumn(out, y, q, u, r);
      }
    }
  }

  /** Stages 4 and 8. */
  method ContractY(t: View, m: View, out: View, ghost f: Table3, ghost c: Table2)
    requires out.buf != t.buf && out.buf != m.buf && t.Fits() && m.Fits() && out.Fits()
    requires m.nx == t.ny && out.nz == t.nz && out.ny == m.ny && out.nx == t.nx
    requires t.Holds(f) && m.HoldsRows(c)
    modifies out.buf
    ensures out.Holds(AlongY(t.ny, f, c))
  {
    ghost var r := AlongY(t.ny, f, c);
    for q := 0 to out.ny
      invariant out.Columns(r, q, 0)
    {
      for x := 0 to out.nx
        invariant out.Columns(r, q, x)
      {
        var u := ColumnY(t, m, q, x, f, c);
        StoreColumn(out, q, x, u, r);
      }
    }
  }

  function Times(f: Table3, g: Table3): Table3 {
    (z, y, x) => f(z, y, x) * g(z, y, x)
  }

  /** Stages 1 and 2: the element's dofs, and B by rows. */
  method LoadInputs(xs: View, e: nat, ne: nat, out: View, b: array<real>, rows: View, ghost g: Table3)
    requires xs.buf != out.buf && xs.Fits() && out.Fits() && e < ne && xs.nz == ne * out.nz && xs.ny == out.ny
    requires xs.nx == out.nx
    requires rows.Fits() && rows.nz == 1 && rows.nx == out.ny && b.Length == rows.nx * rows.ny
    requires rows.buf != out.buf && b != out.buf && b != rows.buf && rows.buf != xs.buf && xs.Holds(g)
    modifies out.buf, rows.buf
    ensures out.Holds(Element(g, e, out.nz))
    ensures rows.HoldsRows(Basis(b[..], rows.ny))
  {
    ghost var r := Element(g, e, out.nz);
    BasisLoads(b, rows.nx, rows.ny);
    var bs := View(b, 1, rows.nx, rows.ny);
    for y := 0 to out.ny
      invariant out.Columns(r, y, 0)
      invariant forall q, d | rows.Has(0, q, d) && d < y :: rows.Load(0, q, d) == bs.Load(0, d, q)
    {
      for x := 0 to out.nx
        invariant out.Columns(r, y, x)
        invariant forall q, d | rows.Has(0, q, d) && d < y :: rows.Load(0, q, d) == bs.Load(0, d, q)
      {
        for z := 0 to out.nz
          invariant out.Columns(r, y, x)
          invariant forall w | 0 <= w < z :: out.Load(w, y, x) == r(w, y, x)
          invariant forall q, d | rows.Has(0, q, d) && d < y :: rows.Load(0, q, d) == bs.Load(0, d, q)
        {
          ElementInside(e, ne, out.nz, z);
          out.Store(z, y, x, xs.Load(e * out.nz + z, y, x));
        }
      }
      for q := 0 to rows.ny
        invariant out.Columns(r, y + 1, 0)
        invariant forall p, d | rows.Has(0, p, d) && (d < y || (d == y && p < q)) ::
                    rows.Load(0, p, d) == bs.Load(0, d, p)
      {
        rows.Store(0, q, y, bs.Load(0, y, q));
      }
    }
    BasisLoads(b, rows.nx, rows.ny);
  }

  /** Stage 5: contract z, and weigh by the quadrature data of the element. */
  method ContractWeigh(t: View, m: View, d: View, e: nat, ne: nat, out: View, ghost f: Table3, ghost c: Table2,
                       ghost g: Table3)
    requires out.buf != t.buf && out.buf != m.buf && out.buf != d.buf && t.Fits() && m.Fits() && d.Fits() && out.Fits()
    requires m.nx == t.nz && out.nz == m.ny && out.ny == t.ny && out.nx == t.nx
    requires e < ne && d.nz == ne * out.nz && d.ny == out.ny && d.nx == out.nx
    requires t.Holds(f) && m.HoldsRows(c) && d.Holds(g)
    modifies out.buf
    ensures out.Holds(Times(AlongZ(t.nz, f, c), Element(g, e, out.nz)))
  {
    ghost var r := Times(AlongZ(t.nz, f, c), Element(g, e, out.nz));
    for y := 0 to out.ny
      invariant out.Columns(r, y, 0)
    {
      for x := 0 to out.nx
        invariant out.Columns(r, y, x)
      {
        var u := ColumnZ(t, m, y, x, f, c);
        WeighColumn(d, e, ne, out.nz, y, x, u, AlongZ(t.nz, f, c), g);
        StoreColumn(out, y, x, u, r);
      }
    }
  }

  method WeighColumn(d: View, e: nat, ne: nat, n: nat, y: nat, x: nat, u: array<real>, ghost f: Table3, ghost g: Table3)
    requires d.buf != u && d.Fits() && e < ne && d.nz == ne * n && y < d.ny && x < d.nx && u.Length == n
    requires d.Holds(g) && forall z | 0 <= z < n :: u[z] == f(z, y, x)
    modifies u
    ensures forall z | 0 <= z < n :: u[z] == Times(f, Element(g, e, n))(z, y, x)
  {
    for z := 0 to n
      invariant forall w | 0 <= w < z :: u[w] == Times(f, Element(g, e, n))(w, y, x)
      invariant forall w | z <= w < n :: u[w] == f(w, y, x)
    {
      ElementInside(e, ne, n, z);
      u[z] := Weighed1(u[z], d.Load(e * n + z, y, x), f, Element(g, e, n), z, y, x);
    }
  }

  method Weighed1(v: real, w: real, ghost f: Table3, ghost g: Table3, ghost z: int, ghost y: int, ghost x: int)
    returns (r: real)
    requires v == f(z, y, x) && w == g(z, y, x)
    ensures r == Times(f, g)(z, y, x)
  {
    r := v * w;
  }

  /** Stage 9: contract z, and add to the element's part of Y. */
  method ContractAdd(t: View, m: View, ys: View, e: nat, ne: nat, ghost f: Table3, ghost c: Table2, ghost g: Table3)
    requires ys.buf != t.buf && ys.buf != m.buf && t.Fits() && m.Fits() && ys.Fits() && m.nx == t.nz
    requires e < ne && ys.nz == ne * m.ny && ys.ny == t.ny && ys.nx == t.nx
    requires t.Holds(f) && m.HoldsRows(c) && ys.Holds(g)
    modifies ys.buf
    ensures ys.Holds(Added(g, AlongZ(t.nz, f, c), e, m.ny))
  {
    ghost var r := AlongZ(t.nz, f, c);
    for y := 0 to t.ny
      invariant AddedColumns(ys, g, r, e, m.ny, y, 0)
    {
      for x := 0 to t.nx
        invariant AddedColumns(ys, g, r, e, m.ny, y, x)
      {
        var u := ColumnZ(t, m, y, x, f, c);
        AddColumn(ys, e, ne, y, x, u, r, g);
      }
    }
  }

  /** The columns a nest over y, x has passed have received f; the others are still g. */
  ghost predicate AddedColumns(ys: View, g: Table3, f: Table3, e: nat, n: nat, b: int, d: int)
    requires ys.Fits()
    reads ys.buf
  {
    forall z, y, x | ys.Has(z, y, x) ::
      ys.Load(z, y, x) == if Before(0, y, x, 0, b, d) then Added(g, f, e, n)(z, y, x) else g(z, y, x)
  }

  method AddColumn(ys: View, e: nat, ne: nat, y: nat, x: nat, u: array<real>, ghost f: Table3, ghost g: Table3)
    requires ys.buf != u && ys.Fits() && e < ne && ys.nz == ne * u.Length && y < ys.ny && x < ys.nx
    requires AddedColumns(ys, g, f, e, u.Length, y, x) && forall z | 0 <= z < u.Length :: u[z] == f(z, y, x)
    modifies ys.buf
    ensures AddedColumns(ys, g, f, e, u.Length, y, x + 1)
  {
    for z := 0 to u.Length
      invariant forall w | 0 <= w < u.Length :: u[w] == f(w, y, x)
      invariant forall w, b, d | ys.Has(w, b, d) ::
                  ys.Load(w, b, d) == if Before(0, b, d, 0, y, x) || (b == y && d == x && w < e * u.Length + z)
                                      then Added(g, f, e, u.Length)(w, b, d) else g(w, b, d)
    {
      ElementInside(e, ne, u.Length, z);
      var old_ := ys.Load(e * u.Length + z, y, x);
      ys.Store(e * u.Length + z, y, x, old_ + u[z]);
    }
  }

  /** The entry of Bt that stage 6 reads for (q, d): Bt[q + D*d]. */
  function TransposedAt(bt: seq<real>, d1: nat, d: int, q: int): real {
    if 0 <= q + d1 * d < |bt| then bt[q + d1 * d] else 0.0
  }

  /** Stage 6: the second coefficient table replaces the first in the shared buffer. */
  method LoadTransposed(bt: array<real>, rows: View)
    requires rows.Fits() && rows.nz == 1 && bt != rows.buf && bt.Length == rows.ny * rows.nx && rows.ny <= rows.nx
    modifies rows.buf
    ensures forall d, q | rows.Has(0, d, q) :: rows.Load(0, d, q) == TransposedAt(bt[..], rows.ny, d, q)
  {
    for d := 0 to rows.ny
      invariant forall c, p | rows.Has(0, c, p) && c < d :: rows.Load(0, c, p) == TransposedAt(bt[..], rows.ny, c, p)
    {
      for q := 0 to rows.nx
        invariant forall c, p | rows.Has(0, c, p) && (c < d || (c == d && p < q)) ::
                    rows.Load(0, c, p) == TransposedAt(bt[..], rows.ny, c, p)
      {
        TransposedInRange(rows.ny, rows.nx, d, q);
        rows.Store(0, d, q, bt[q + rows.ny * d]);
      }
    }
  }

  lemma TransposedInRange(d1: nat, q1: nat, d: nat, q: nat)
    requires d < d1 <= q1 && q < q1
    ensures q + d1 * d < d1 * q1
  {
    MulStep(d, d1, d1);
    MulMonotone(d1, q1, d1);
    assert d1 * d + d1 <= d1 * d1;
    if d1 >= 1 {
      assert d1 * q1 == d1 * d1 + d1 * (q1 - d1);
      MulMonotone(1, d1, q1 - d1);
    }
  }

  // ---- one element, and all of them --------------------------------------------

  ghost function LoadedTransposed(bt: seq<real>, d1: nat): Table2 {
    (d, q) => TransposedAt(bt, d1, d, q)
  }

  /** What the stages compute, axis by axis. */
  ghost function Weighed(d1: nat, b: Table2, d: Table3, x: Table3): Table3 {
    Times(AlongZ(d1, AlongY(d1, AlongX(d1, x, b), b), b), d)
  }

  ghost function Integrated(q1: nat, bt: Table2, w: Table3): Table3 {
    AlongZ(q1, AlongY(q1, AlongX(q1, w, bt), bt), bt)
  }

  ghost function Staged(d1: nat, q1: nat, b: Table2, bt: Table2, d: Table3, x: Table3): Table3 {
    Integrated(q1, bt, Weighed(d1, b, d, x))
  }

  /** Stages 1 to 5: dofs to weighted values at the quadrature points. */
  method Interpolate(b: array<real>, d: View, xs: View, e: nat, ne: nat, d1: nat, q1: nat, sDQ: array<real>,
                     sm0: array<real>, sm1: array<real>, ghost dg: Table3, ghost xg: Table3)
    requires 1 <= d1 <= q1 && b.Length == sDQ.Length == d1 * q1 && sm0.Length == sm1.Length == q1 * q1 * q1 && e < ne
    requires sm0 != sm1 && sDQ !in {sm0, sm1} && {b, d.buf, xs.buf} !! {sDQ, sm0, sm1}
    requires d.Fits() && xs.Fits() && d.nz == ne * q1 && d.ny == d.nx == q1 && xs.nz == ne * d1 && xs.ny == xs.nx == d1
    requires d.Holds(dg) && xs.Holds(xg)
    modifies sDQ, sm0, sm1
    ensures View(sm1, q1, q1, q1).Holds(Weighed(d1, Basis(b[..], q1), Element(dg, e, q1), Element(xg, e, d1)))
  {
    Cubes(d1, q1);
    var rows := View(sDQ, 1, q1, d1);
    var xsmem, ddq, dqq := View(sm0, d1, d1, d1), View(sm1, d1, d1, q1), View(sm0, d1, q1, q1);
    ghost var c, x := Basis(b[..], q1), Element(xg, e, d1);
    LoadInputs(xs, e, ne, xsmem, b, rows, xg);
    ContractX(xsmem, rows, ddq, x, c);
    ContractY(ddq, rows, dqq, AlongX(d1, x, c), c);
    ContractWeigh(dqq, rows, d, e, ne, View(sm1, q1, q1, q1), AlongY(d1, AlongX(d1, x, c), c), c, dg);
  }

  /** Stages 6 to 9: quadrature values back to the dofs, added to Y. */
  method Integrate(bt: array<real>, ys: View, e: nat, ne: nat, d1: nat, q1: nat, sDQ: array<real>,
                   sm0: array<real>, sm1: array<real>, ghost w: Table3, ghost yg: Table3)
    requires 1 <= d1 <= q1 && bt.Length == sDQ.Length == d1 * q1 && sm0.Length == sm1.Length == q1 * q1 * q1 && e < ne
    requires sm0 != sm1 && sDQ !in {sm0, sm1} && bt !in {sDQ, sm0, sm1} && ys.buf !in {bt, sDQ, sm0, sm1}
    requires ys.Fits() && ys.nz == ne * d1 && ys.ny == ys.nx == d1 && ys.Holds(yg)
    requires View(sm1, q1, q1, q1).Holds(w)
    modifies sDQ, sm0, sm1, ys.buf
    ensures ys.Holds(Added(yg, Integrated(q1, LoadedTransposed(bt[..], d1), w), e, d1))
  {
    Cubes(d1, q1);
    var rows := View(sDQ, 1, d1, q1);
    var qqq, qqd, qdd := View(sm1, q1, q1, q1), View(sm0, q1, q1, d1), View(sm1, q1, d1, d1);
    ghost var c := LoadedTransposed(bt[..], d1);
    LoadTransposed(bt, rows);
    assert rows.HoldsRows(c);
    ContractX(qqq, rows, qqd, w, c);
    ContractY(qqd, rows, qdd, AlongX(q1, w, c), c);
    ContractAdd(qdd, rows, ys, e, ne, AlongY(q1, AlongX(q1, w, c), c), c, yg);
  }

  /** All nine stages for one element. */
  method ElementAction(b: array<real>, bt: array<real>, d: View, xs: View, ys: View, e: nat, ne: nat, d1: nat, q1: nat,
                       ghost dg: Table3, ghost xg: Table3, ghost yg: Table3)
    requires 1 <= d1 <= q1 && b.Length == bt.Length == d1 * q1 && e < ne
    requires d.Fits() && xs.Fits() && ys.Fits() && ys.buf !in {b, bt, d.buf, xs.buf}
    requires d.nz == ne * q1 && d.ny == d.nx == q1 && xs.nz == ys.nz == ne * d1
    requires xs.ny == xs.nx == ys.ny == ys.nx == d1
    requires d.Holds(dg) && xs.Holds(xg) && ys.Holds(yg)
    modifies ys.buf
    ensures ys.Holds(Added(yg, Staged(d1, q1, Basis(b[..], q1), LoadedTransposed(bt[..], d1), Element(dg, e, q1),
                                      Element(xg, e, d1)), e, d1))
  {
    var sDQ := new real[q1 * d1];
    var sm0 := new real[q1 * q1 * q1];
    var sm1 := new real[q1 * q1 * q1];
    Interpolate(b, d, xs, e, ne, d1, q1, sDQ, sm0, sm1, dg, xg);
    Integrate(bt, ys, e, ne, d1, q1, sDQ, sm0, sm1,
              Weighed(d1, Basis(b[..], q1), Element(dg, e, q1), Element(xg, e, d1)), yg);
  }

  /** Every view of the scratch buffers fits when D <= Q. */
  lemma Cubes(d1: nat, q1: nat)
    requires d1 <= q1
    ensures d1 * d1 * d1 <= q1 * q1 * q1 && d1 * d1 * q1 <= q1 * q1 * q1 && d1 * q1 * q1 <= q1 * q1 * q1
    ensures q1 * q1 * d1 <= q1 * q1 * q1 && q1 * d1 * d1 <= q1 * q1 * q1 && 1 * q1 * d1 == q1 * d1 == d1 * q1
  {
    MulMonotone(d1, q1, d1);
    MulMonotone(d1, q1, q1);
    MulMonotone(d1 * d1, d1 * q1, d1);
    MulMonotone(d1 * d1, d1 * q1, q1);
    MulMonotone(d1 * q1, q1 * q1, d1);
    MulMonotone(d1 * q1, q1 * q1, q1);
    MulMonotone(d1, q1, d1 * d1);
    MulMonotone(d1, q1, q1 * q1);
  }

  ghost function AllElements(d1: nat, q1: nat, b: Table2, bt: Table2, dg: Table3, xg: Table3): nat -> Table3 {
    (e: nat) => Staged(d1, q1, b, bt, Element(dg, e, q1), Element(xg, e, d1))
  }

  /** The element loop. */
  method Apply(b: array<real>, bt: array<real>, d: View, xs: View, ys: View, ne: nat, d1: nat, q1: nat,
               ghost dg: Table3, ghost xg: Table3, ghost yg: Table3)
    requires 1 <= d1 <= q1 && b.Length == bt.Length == d1 * q1
    requires d.Fits() && xs.Fits() && ys.Fits() && ys.buf !in {b, bt, d.buf, xs.buf}
    requires d.nz == ne * q1 && d.ny == d.nx == q1 && xs.nz == ys.nz == ne * d1
    requires xs.ny == xs.nx == ys.ny == ys.nx == d1
    requires d.Holds(dg) && xs.Holds(xg) && ys.Holds(yg)
    modifies ys.buf
    ensures ys.Holds(AllAdded(yg, AllElements(d1, q1, Basis(b[..], q1), LoadedTransposed(bt[..], d1), dg, xg), ne, d1))
  {
    ghost var F := AllElements(d1, q1, Basis(b[..], q1), LoadedTransposed(bt[..], d1), dg, xg);
    for e := 0 to ne
      invariant ys.Holds(AllAdded(yg, F, e, d1))
    {
      ElementAction(b, bt, d, xs, ys, e, ne, d1, q1, dg, xg, AllAdded(yg, F, e, d1));
      forall z, y, x | ys.Has(z, y, x) ensures ys.Load(z, y, x) == AllAdded(yg, F, e + 1, d1)(z, y, x) {
        AddedNext(yg, F, e, d1, z, y, x);
      }
    }
  }
}
