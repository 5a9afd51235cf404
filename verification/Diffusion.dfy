/** DIFFUSION3DPA: the nine stages over sBG and the six reused rows of sm0 and sm1. */
module Diffusion {
  import opened Arith
  import opened Buffer
  import opened Elements
  import opened PackedTables
  import opened Packing
  import opened Sums

  ghost predicate Serves(p: Pair, b: Table2, g: Table2)
    reads p.buf
  {
    p.Fits() && p.Serves(b, g)
  }

  // ---- one product of a stage loop, by axis and table ---------------------------

  method TimesBX(t: View, p: Pair, z: nat, y: nat, o: nat, k: nat, ghost f: Table3, ghost b: Table2, ghost g: Table2)
    returns (r: real)
    requires Shows(t, f) && Serves(p, b, g) && t.Has(z, y, k) && p.Has(o, k)
    ensures r == TermX(f, b, z, y, o)(k)
  {
    var v := t.Read(z, y, k, f);
    var w := PlainCell(p, o, k, b, g);
    r := v * w;
  }

  method TimesGX(t: View, p: Pair, z: nat, y: nat, o: nat, k: nat, ghost f: Table3, ghost b: Table2, ghost g: Table2)
    returns (r: real)
    requires Shows(t, f) && Serves(p, b, g) && t.Has(z, y, k) && p.Has(o, k)
    ensures r == TermX(f, g, z, y, o)(k)
  {
    var v := t.Read(z, y, k, f);
    r := TimesSigned(p, o, k, v, f(z, y, k), b, g);
  }

  method TimesBY(t: View, p: Pair, z: nat, o: nat, x: nat, k: nat, ghost f: Table3, ghost b: Table2, ghost g: Table2)
    returns (r: real)
    requires Shows(t, f) && Serves(p, b, g) && t.Has(z, k, x) && p.Has(o, k)
    ensures r == TermY(f, b, z, o, x)(k)
  {
    var v := t.Read(z, k, x, f);
    var w := PlainCell(p, o, k, b, g);
    r := v * w;
  }

  method TimesGY(t: View, p: Pair, z: nat, o: nat, x: nat, k: nat, ghost f: Table3, ghost b: Table2, ghost g: Table2)
    returns (r: real)
    requires Shows(t, f) && Serves(p, b, g) && t.Has(z, k, x) && p.Has(o, k)
    ensures r == TermY(f, g, z, o, x)(k)
  {
    var v := t.Read(z, k, x, f);
    r := TimesSigned(p, o, k, v, f(z, k, x), b, g);
  }

  method TimesBZ(t: View, p: Pair, o: nat, y: nat, x: nat, k: nat, ghost f: Table3, ghost b: Table2, ghost g: Table2)
    returns (r: real)
    requires Shows(t, f) && Serves(p, b, g) && t.Has(k, y, x) && p.Has(o, k)
    ensures r == TermZ(f, b, o, y, x)(k)
  {
    var v := t.Read(k, y, x, f);
    var w := PlainCell(p, o, k, b, g);
    r := v * w;
  }

  method TimesGZ(t: View, p: Pair, o: nat, y: nat, x: nat, k: nat, ghost f: Table3, ghost b: Table2, ghost g: Table2)
    returns (r: real)
    requires Shows(t, f) && Serves(p, b, g) && t.Has(k, y, x) && p.Has(o, k)
    ensures r == TermZ(f, g, o, y, x)(k)
  {
    var v := t.Read(k, y, x, f);
    r := TimesSigned(p, o, k, v, f(k, y, x), b, g);
  }

  method PlainCell(p: Pair, o: nat, k: nat, ghost b: Table2, ghost g: Table2) returns (cell: real)
    requires Serves(p, b, g) && p.Has(o, k)
    ensures cell == b(o, k)
  {
    cell := p.ReadB(o, k);
  }

  method SignedCell(p: Pair, o: nat, k: nat, ghost b: Table2, ghost g: Table2) returns (cell: real, sign: real)
    requires Serves(p, b, g) && p.Has(o, k)
    ensures cell * sign == g(o, k)
  {
    cell, sign := p.ReadG(o, k), p.SignOf(o, k);
  }

  method TimesSigned(p: Pair, o: nat, k: nat, v: real, ghost a: real, ghost b: Table2, ghost g: Table2)
    returns (r: real)
    requires Serves(p, b, g) && p.Has(o, k) && v == a
    ensures r == a * g(o, k)
  {
    var cell, sign := SignedCell(p, o, k, b, g);
    r := Signed(v, cell, sign, a, g(o, k));
  }

  /** A value, the cell it is multiplied with and that cell's sign. */
  method Signed(v: real, cell: real, sign: real, ghost a: real, ghost b: real) returns (r: real)
    requires v == a && cell * sign == b
    ensures r == a * b
  {
    r := v * cell * sign;
    assert v * cell * sign == v * (cell * sign);
  }

  // ---- the accumulator loops ----------------------------------------------------

  /** Stage 3. */
  method SumsOfX(t: View, p: Pair, z: nat, y: nat, o: nat, ghost f: Table3, ghost b: Table2, ghost g: Table2)
    returns (u: real, v: real)
    requires Shows(t, f) && Serves(p, b, g) && z < t.nz && y < t.ny
    requires o < p.Outs() && p.Ins() == t.nx
    ensures u == AlongX(t.nx, f, b)(z, y, o) && v == AlongX(t.nx, f, g)(z, y, o)
  {
    u, v := 0.0, 0.0;
    for k := 0 to t.nx
      invariant u == Sum(k, TermX(f, b, z, y, o)) && v == Sum(k, TermX(f, g, z, y, o))
    {
      var a := TimesBX(t, p, z, y, o, k, f, b, g);
      var c := TimesGX(t, p, z, y, o, k, f, b, g);
      u, v := u + a, v + c;
    }
  }

  /** Stage 7. */
  method SumsX(t0: View, t1: View, t2: View, p: Pair, z: nat, y: nat, o: nat,
               ghost f0: Table3, ghost f1: Table3, ghost f2: Table3, ghost b: Table2, ghost g: Table2)
    returns (u: real, v: real, w: real)
    requires Shows(t0, f0) && Shows(t1, f1) && Shows(t2, f2) && Serves(p, b, g)
    requires t0.nx == t1.nx == t2.nx && z < t0.nz && z < t1.nz && z < t2.nz && y < t0.ny && y < t1.ny && y < t2.ny
    requires o < p.Outs() && p.Ins() == t0.nx
    ensures u == AlongX(t0.nx, f0, g)(z, y, o) && v == AlongX(t0.nx, f1, b)(z, y, o)
    ensures w == AlongX(t0.nx, f2, b)(z, y, o)
  {
    u, v, w := 0.0, 0.0, 0.0;
    for k := 0 to t0.nx
      invariant u == Sum(k, TermX(f0, g, z, y, o)) && v == Sum(k, TermX(f1, b, z, y, o))
      invariant w == Sum(k, TermX(f2, b, z, y, o))
    {
      var a0 := TimesGX(t0, p, z, y, o, k, f0, b, g);
      var a1 := TimesBX(t1, p, z, y, o, k, f1, b, g);
      var a2 := TimesBX(t2, p, z, y, o, k, f2, b, g);
      u, v, w := u + a0, v + a1, w + a2;
    }
  }

  /** Stages 4 and 8. */
  method SumsY(t0: View, t1: View, t2: View, p: Pair, z: nat, o: nat, x: nat,
               ghost f0: Table3, ghost f1: Table3, ghost f2: Table3, ghost b: Table2, ghost g: Table2)
    returns (u: real, v: real, w: real)
    requires Shows(t0, f0) && Shows(t1, f1) && Shows(t2, f2) && Serves(p, b, g)
    requires t0.ny == t1.ny == t2.ny && z < t0.nz && z < t1.nz && z < t2.nz && x < t0.nx && x < t1.nx && x < t2.nx
    requires o < p.Outs() && p.Ins() == t0.ny
    ensures u == AlongY(t0.ny, f0, b)(z, o, x) && v == AlongY(t0.ny, f1, g)(z, o, x)
    ensures w == AlongY(t0.ny, f2, b)(z, o, x)
  {
    u, v, w := 0.0, 0.0, 0.0;
    for k := 0 to t0.ny
      invariant u == Sum(k, TermY(f0, b, z, o, x)) && v == Sum(k, TermY(f1, g, z, o, x))
      invariant w == Sum(k, TermY(f2, b, z, o, x))
    {
      var a0 := TimesBY(t0, p, z, o, x, k, f0, b, g);
      var a1 := TimesGY(t1, p, z, o, x, k, f1, b, g);
      var a2 := TimesBY(t2, p, z, o, x, k, f2, b, g);
      u, v, w := u + a0, v + a1, w + a2;
    }
  }

  /** Stages 5 and 9. */
  method SumsZ(t0: View, t1: View, t2: View, p: Pair, o: nat, y: nat, x: nat,
               ghost f0: Table3, ghost f1: Table3, ghost f2: Table3, ghost b: Table2, ghost g: Table2)
    returns (u: real, v: real, w: real)
    requires Shows(t0, f0) && Shows(t1, f1) && Shows(t2, f2) && Serves(p, b, g)
    requires t0.nz == t1.nz == t2.nz && y < t0.ny && y < t1.ny && y < t2.ny && x < t0.nx && x < t1.nx && x < t2.nx
    requires o < p.Outs() && p.Ins() == t0.nz
    ensures u == AlongZ(t0.nz, f0, b)(o, y, x) && v == AlongZ(t0.nz, f1, b)(o, y, x)
    ensures w == AlongZ(t0.nz, f2, g)(o, y, x)
  {
    u, v, w := 0.0, 0.0, 0.0;
    for k := 0 to t0.nz
      invariant u == Sum(k, TermZ(f0, b, o, y, x)) && v == Sum(k, TermZ(f1, b, o, y, x))
      invariant w == Sum(k, TermZ(f2, g, o, y, x))
    {
      var a0 := TimesBZ(t0, p, o, y, x, k, f0, b, g);
      var a1 := TimesBZ(t1, p, o, y, x, k, f1, b, g);
      var a2 := TimesGZ(t2, p, o, y, x, k, f2, b, g);
      u, v, w := u + a0, v + a1, w + a2;
    }
  }

  // ---- three rows of scratch ------------------------------------------------------

  datatype Fields = Fields(f0: Table3, f1: Table3, f2: Table3)

  /** The three rows of sm0 or sm1, each cast to the same extents. */
  datatype Rows = Rows(v0: View, v1: View, v2: View) {

    predicate Sized(nz: nat, ny: nat, nx: nat) {
      && v0.nz == v1.nz == v2.nz == nz && v0.ny == v1.ny == v2.ny == ny && v0.nx == v1.nx == v2.nx == nx
      && v0.Fits() && v1.Fits() && v2.Fits()
    }

    predicate Apart() {
      v0.buf != v1.buf && v0.buf != v2.buf && v1.buf != v2.buf
    }

    function Bufs(): set<object> {
      {v0.buf, v1.buf, v2.buf}
    }

    ghost predicate Show(f: Fields)
      reads Bufs()
    {
      Shows(v0, f.f0) && Shows(v1, f.f1) && Shows(v2, f.f2)
    }

    ghost predicate Partly(f: Fields, c: int, b: int, d: int)
      requires v0.Fits() && v1.Fits() && v2.Fits()
      reads Bufs()
    {
      v0.Partly(f.f0, c, b, d) && v1.Partly(f.f1, c, b, d) && v2.Partly(f.f2, c, b, d)
    }

    /** The three stores that end a stage body. */
    method Store(z: nat, y: nat, x: nat, u: real, v: real, w: real, ghost f: Fields)
      requires Sized(v0.nz, v0.ny, v0.nx) && Apart() && v0.Has(z, y, x) && Partly(f, z, y, x)
      requires u == f.f0(z, y, x) && v == f.f1(z, y, x) && w == f.f2(z, y, x)
      modifies Bufs()
      ensures Partly(f, z, y, x + 1)
    {
      v0.Store(z, y, x, u);
      v1.Store(z, y, x, v);
      v2.Store(z, y, x, w);
    }
  }

  // ---- stages -----------------------------------------------------------------------

  /** Stage 1: the element's dofs, into row 2 of sm0. */
  method LoadElement(xs: View, e: nat, ne: nat, out: View, ghost g: Table3)
    requires xs.buf != out.buf && Shows(xs, g) && out.Fits() && e < ne && xs.nz == ne * out.nz && xs.ny == out.ny
    requires xs.nx == out.nx
    modifies out.buf
    ensures Shows(out, Element(g, e, out.nz))
  {
    ghost var r := Element(g, e, out.nz);
    for z := 0 to out.nz
      invariant out.Partly(r, z, 0, 0)
    {
      ElementInside(e, ne, out.nz, z);
      for y := 0 to out.ny
        invariant out.Partly(r, z, y, 0)
      {
        for x := 0 to out.nx
          invariant out.Partly(r, z, y, x)
        {
          out.Store(z, y, x, xs.Load(e * out.nz + z, y, x));
        }
      }
    }
  }

  /** Stage 3: B and G along x. */
  method InterpolateX(t: View, p: Pair, out0: View, out1: View, ghost f: Table3, ghost b: Table2, ghost g: Table2)
    requires Shows(t, f) && Serves(p, b, g) && p.Ins() == t.nx
    requires out0.buf != out1.buf && {out0.buf, out1.buf} !! {t.buf, p.buf} && out0.Fits() && out1.Fits()
    requires out0.nz == out1.nz == t.nz && out0.ny == out1.ny == t.ny && out0.nx == out1.nx == p.Outs()
    modifies out0.buf, out1.buf
    ensures Shows(out0, AlongX(t.nx, f, b)) && Shows(out1, AlongX(t.nx, f, g))
  {
    ghost var r0, r1 := AlongX(t.nx, f, b), AlongX(t.nx, f, g);
    for z := 0 to out0.nz
      invariant out0.Partly(r0, z, 0, 0) && out1.Partly(r1, z, 0, 0)
    {
      for y := 0 to out0.ny
        invariant out0.Partly(r0, z, y, 0) && out1.Partly(r1, z, y, 0)
      {
        for q := 0 to out0.nx
          invariant out0.Partly(r0, z, y, q) && out1.Partly(r1, z, y, q)
        {
          var u, v := SumsOfX(t, p, z, y, q, f, b, g);
          out0.Store(z, y, q, u);
          out1.Store(z, y, q, v);
        }
      }
    }
  }

  ghost function FieldsX(n: nat, f: Fields, b: Table2, g: Table2): Fields {
    Fields(AlongX(n, f.f0, g), AlongX(n, f.f1, b), AlongX(n, f.f2, b))
  }

  ghost function FieldsY(n: nat, f: Fields, b: Table2, g: Table2): Fields {
    Fields(AlongY(n, f.f0, b), AlongY(n, f.f1, g), AlongY(n, f.f2, b))
  }

  ghost function FieldsZ(n: nat, f: Fields, b: Table2, g: Table2): Fields {
    Fields(AlongZ(n, f.f0, b), AlongZ(n, f.f1, b), AlongZ(n, f.f2, g))
  }

  /** Stage 7. */
  method ContractX(t: Rows, p: Pair, out: Rows, nz: nat, ny: nat, ghost f: Fields, ghost b: Table2, ghost g: Table2)
    requires t.Sized(nz, ny, p.Ins()) && out.Sized(nz, ny, p.Outs()) && out.Apart() && out.Bufs() !! t.Bufs() + {p.buf}
    requires t.Show(f) && Serves(p, b, g)
    modifies out.Bufs()
    ensures out.Show(FieldsX(p.Ins(), f, b, g))
  {
    ghost var r := FieldsX(p.Ins(), f, b, g);
    for z := 0 to nz
      invariant out.Partly(r, z, 0, 0)
    {
      for y := 0 to ny
        invariant out.Partly(r, z, y, 0)
      {
        for o := 0 to p.Outs()
          invariant out.Partly(r, z, y, o)
        {
          var u, v, w := SumsX(t.v0, t.v1, t.v2, p, z, y, o, f.f0, f.f1, f.f2, b, g);
          out.Store(z, y, o, u, v, w, r);
        }
      }
    }
  }

  /** Stages 4 and 8. */
  method ContractY(t: Rows, p: Pair, out: Rows, nz: nat, nx: nat, ghost f: Fields, ghost b: Table2, ghost g: Table2)
    requires t.Sized(nz, p.Ins(), nx) && out.Sized(nz, p.Outs(), nx) && out.Apart() && out.Bufs() !! t.Bufs() + {p.buf}
    requires t.Show(f) && Serves(p, b, g)
    modifies out.Bufs()
    ensures out.Show(FieldsY(p.Ins(), f, b, g))
  {
    ghost var r := FieldsY(p.Ins(), f, b, g);
    for z := 0 to nz
      invariant out.Partly(r, z, 0, 0)
    {
      for o := 0 to p.Outs()
        invariant out.Partly(r, z, o, 0)
      {
        for x := 0 to nx
          invariant out.Partly(r, z, o, x)
        {
          var u, v, w := SumsY(t.v0, t.v1, t.v2, p, z, o, x, f.f0, f.f1, f.f2, b, g);
          out.Store(z, o, x, u, v, w, r);
        }
      }
    }
  }

  /** Stage 5's coefficient of gradient component c in flux component r. */
  function Component(symmetric: bool, r: nat, c: nat): (s: nat)
    requires r < 3 && c < 3
    ensures s < if symmetric then 6 else 9
  {
    if !symmetric then 3 * r + c
    else if r == 0 then c
    else if c == 0 then r
    else r + c + 1
  }

  ghost function Material(d: Table3, e: nat, sym: nat, q1: nat, symmetric: bool): (nat, nat) -> Table3 {
    (r, c) => Coefficient(d, e, sym, q1, if r < 3 && c < 3 then Component(symmetric, r, c) else 0)
  }

  ghost function Flux(o: (nat, nat) -> Table3, r: nat, f: Fields): Table3 {
    (z, y, x) => o(r, 0)(z, y, x) * f.f0(z, y, x) + o(r, 1)(z, y, x) * f.f1(z, y, x) + o(r, 2)(z, y, x) * f.f2(z, y, x)
  }

  ghost function Fluxes(o: (nat, nat) -> Table3, f: Fields): Fields {
    Fields(Flux(o, 0, f), Flux(o, 1, f), Flux(o, 2, f))
  }

  /** The coefficients and the three products of stage 5. */
  method Weigh(ds: View, e: nat, ne: nat, sym: nat, symmetric: bool, z: nat, y: nat, x: nat, u: real, v: real, w: real,
               ghost d: Table3, ghost f: Fields)
    returns (a0: real, a1: real, a2: real)
    requires Shows(ds, d) && ds.ny == ds.nx && ds.nz == ne * sym * ds.nx && e < ne
    requires (if symmetric then 6 else 9) <= sym
    requires z < ds.nx && y < ds.nx && x < ds.nx
    requires u == f.f0(z, y, x) && v == f.f1(z, y, x) && w == f.f2(z, y, x)
    ensures var o := Material(d, e, sym, ds.nx, symmetric);
            a0 == Flux(o, 0, f)(z, y, x) && a1 == Flux(o, 1, f)(z, y, x) && a2 == Flux(o, 2, f)(z, y, x)
  {
    var d0 := LoadData(ds, e, ne, sym, 0, z, y, x, d);
    var d1 := LoadData(ds, e, ne, sym, 1, z, y, x, d);
    var d2 := LoadData(ds, e, ne, sym, 2, z, y, x, d);
    var d3 := LoadData(ds, e, ne, sym, 3, z, y, x, d);
    var d4 := LoadData(ds, e, ne, sym, 4, z, y, x, d);
    var d5 := LoadData(ds, e, ne, sym, 5, z, y, x, d);
    var o11, o12, o13 := d0, d1, d2;
    var o21 := if symmetric then o12 else d3;
    var o22 := if symmetric then d3 else d4;
    var o23 := if symmetric then d4 else d5;
    var o31, o32, o33 := o13, o23, d5;
    if !symmetric {
      o31 := LoadData(ds, e, ne, sym, 6, z, y, x, d);
      o32 := LoadData(ds, e, ne, sym, 7, z, y, x, d);
      o33 := LoadData(ds, e, ne, sym, 8, z, y, x, d);
    }
    ghost var o := Material(d, e, sym, ds.nx, symmetric);
    a0 := ProductWithD(o11, o12, o13, u, v, w, o, 0, f, z, y, x);
    a1 := ProductWithD(o21, o22, o23, u, v, w, o, 1, f, z, y, x);
    a2 := ProductWithD(o31, o32, o33, u, v, w, o, 2, f, z, y, x);
  }

  method ProductWithD(o1: real, o2: real, o3: real, u: real, v: real, w: real, ghost o: (nat, nat) -> Table3,
                      ghost r: nat, ghost f: Fields, ghost z: nat, ghost y: nat, ghost x: nat)
    returns (a: real)
    requires o1 == o(r, 0)(z, y, x) && o2 == o(r, 1)(z, y, x) && o3 == o(r, 2)(z, y, x)
    requires u == f.f0(z, y, x) && v == f.f1(z, y, x) && w == f.f2(z, y, x)
    ensures a == Flux(o, r, f)(z, y, x)
  {
    a := o1 * u + o2 * v + o3 * w;
  }

  /** Stage 5. */
  method ContractWeigh(t: Rows, p: Pair, ds: View, e: nat, ne: nat, sym: nat, symmetric: bool, out: Rows,
                       ghost f: Fields, ghost b: Table2, ghost g: Table2, ghost d: Table3)
    requires !p.turned && t.Sized(p.d1, p.q1, p.q1) && out.Sized(p.q1, p.q1, p.q1)
    requires out.Apart() && out.Bufs() !! t.Bufs() + {p.buf, ds.buf}
    requires Shows(ds, d) && ds.ny == ds.nx == p.q1 && ds.nz == ne * sym * p.q1 && e < ne
    requires (if symmetric then 6 else 9) <= sym
    requires t.Show(f) && Serves(p, b, g)
    modifies out.Bufs()
    ensures out.Show(Fluxes(Material(d, e, sym, p.q1, symmetric), FieldsZ(p.d1, f, b, g)))
  {
    ghost var h := FieldsZ(p.d1, f, b, g);
    ghost var r := Fluxes(Material(d, e, sym, p.q1, symmetric), h);
    for z := 0 to p.q1
      invariant out.Partly(r, z, 0, 0)
    {
      for y := 0 to p.q1
        invariant out.Partly(r, z, y, 0)
      {
        for x := 0 to p.q1
          invariant out.Partly(r, z, y, x)
        {
          var u, v, w := SumsZ(t.v0, t.v1, t.v2, p, z, y, x, f.f0, f.f1, f.f2, b, g);
          var a0, a1, a2 := Weigh(ds, e, ne, sym, symmetric, z, y, x, u, v, w, d, h);
          out.Store(z, y, x, a0, a1, a2, r);
        }
      }
    }
  }

  ghost function Total(f: Fields): Table3 {
    (z, y, x) => f.f0(z, y, x) + f.f1(z, y, x) + f.f2(z, y, x)
  }

  /** The cells of element e that the loop nest has passed have received f. */
  ghost predicate AddedSoFar(ys: View, g: Table3, f: Table3, e: nat, n: nat, c: int, b: int, d: int)
    requires ys.Fits()
    reads ys.buf
  {
    forall z, y, x | ys.Has(z, y, x) ::
      ys.Load(z, y, x) == if Before(z - e * n, y, x, c, b, d) then Added(g, f, e, n)(z, y, x) else g(z, y, x)
  }

  method AddOne(ys: View, e: nat, ne: nat, n: nat, z: nat, y: nat, x: nat, v: real, ghost f: Table3, ghost g: Table3)
    requires ys.Fits() && e < ne && ys.nz == ne * n && z < n && y < ys.ny && x < ys.nx && v == f(z, y, x)
    requires AddedSoFar(ys, g, f, e, n, z, y, x)
    modifies ys.buf
    ensures AddedSoFar(ys, g, f, e, n, z, y, x + 1)
  {
    ElementInside(e, ne, n, z);
    var was := ys.Load(e * n + z, y, x);
    ys.Store(e * n + z, y, x, was + v);
  }

  /** Stage 9. */
  method ContractAdd(t: Rows, p: Pair, ys: View, e: nat, ne: nat, ghost f: Fields, ghost b: Table2, ghost g: Table2,
                     ghost y0: Table3)
    requires p.turned && t.Sized(p.q1, p.d1, p.d1) && t.Show(f) && Serves(p, b, g)
    requires Shows(ys, y0) && ys.ny == ys.nx == p.d1 && ys.nz == ne * p.d1 && e < ne && ys.buf !in t.Bufs() + {p.buf}
    modifies ys.buf
    ensures Shows(ys, Added(y0, Total(FieldsZ(p.q1, f, b, g)), e, p.d1))
  {
    var n := p.d1;
    ghost var r := Total(FieldsZ(p.q1, f, b, g));
    for z := 0 to n
      invariant AddedSoFar(ys, y0, r, e, n, z, 0, 0)
    {
      for y := 0 to n
        invariant AddedSoFar(ys, y0, r, e, n, z, y, 0)
      {
        for x := 0 to n
          invariant AddedSoFar(ys, y0, r, e, n, z, y, x)
        {
          var u, v, w := SumsZ(t.v0, t.v1, t.v2, p, z, y, x, f.f0, f.f1, f.f2, b, g);
          AddOne(ys, e, ne, n, z, y, x, u + v + w, r, y0);
        }
      }
    }
  }

  // ---- one element, and all of them -----------------------------------------------

  /** What stages 3 to 5 compute before the products with D: the three derivatives. */
  ghost function Gradient(d1: nat, x: Table3, b: Table2, g: Table2): Fields {
    var u, v := AlongX(d1, x, b), AlongX(d1, x, g);
    FieldsZ(d1, FieldsY(d1, Fields(v, u, u), b, g), b, g)
  }

  /** What stages 7 to 9 add up. */
  ghost function Divergence(q1: nat, h: Fields, bt: Table2, gt: Table2): Table3 {
    Total(FieldsZ(q1, FieldsY(q1, FieldsX(q1, h, bt, gt), bt, gt), bt, gt))
  }

  ghost function Staged(d1: nat, q1: nat, b: Table2, g: Table2, o: (nat, nat) -> Table3, x: Table3): Table3 {
    Divergence(q1, Fluxes(o, Gradient(d1, x, b, g)), Turned(b), Turned(g))
  }

  /** A row of sm0 or sm1, and the three of them, cast to the given extents. */
  predicate Scratch(rows: seq<array<real>>, m: nat) {
    |rows| == 3 && rows[0].Length == rows[1].Length == rows[2].Length == m * m * m
    && rows[0] != rows[1] && rows[0] != rows[2] && rows[1] != rows[2]
  }

  function Cast(rows: seq<array<real>>, nz: nat, ny: nat, nx: nat, m: nat): (r: Rows)
    requires Scratch(rows, m) && nz <= m && ny <= m && nx <= m
    ensures r.Sized(nz, ny, nx) && r.Apart() && r.Bufs() == {rows[0], rows[1], rows[2]}
  {
    CubeFits(nz, ny, nx, m);
    Rows(View(rows[0], nz, ny, nx), View(rows[1], nz, ny, nx), View(rows[2], nz, ny, nx))
  }

  /** Stages 1 to 5. */
  method Interpolate(b: array<real>, g: array<real>, ds: View, xs: View, e: nat, ne: nat, sym: nat, symmetric: bool,
                     p: Pair, sm0: seq<array<real>>, sm1: seq<array<real>>, m: nat, ghost d: Table3, ghost x: Table3)
    requires !p.turned && p.Fits() && p.d1 <= m && p.q1 <= m && b.Length == g.Length == p.d1 * p.q1 && e < ne
    requires Scratch(sm0, m) && Scratch(sm1, m) && {sm0[0], sm0[1], sm0[2]} !! {sm1[0], sm1[1], sm1[2]}
    requires {sm0[0], sm0[1], sm0[2], sm1[0], sm1[1], sm1[2], p.buf} !! {b, g, ds.buf, xs.buf}
    requires p.buf !in {sm0[0], sm0[1], sm0[2], sm1[0], sm1[1], sm1[2]}
    requires Shows(ds, d) && ds.ny == ds.nx == p.q1 && ds.nz == ne * sym * p.q1 && (if symmetric then 6 else 9) <= sym
    requires Shows(xs, x) && xs.ny == xs.nx == p.d1 && xs.nz == ne * p.d1
    modifies sm0[0], sm0[1], sm0[2], sm1[0], sm1[1], sm1[2], p.buf
    ensures var sb, sg := SeenB(Basis(b[..], p.q1), Basis(g[..], p.q1), p.q1, p.d1),
                SeenG(Basis(b[..], p.q1), Basis(g[..], p.q1), p.q1, p.d1);
            Cast(sm0, p.q1, p.q1, p.q1, m).Show(Fluxes(Material(d, e, sym, p.q1, symmetric),
                                                       Gradient(p.d1, Element(x, e, p.d1), sb, sg)))
  {
    var d1, q1 := p.d1, p.q1;
    ghost var sb, sg := SeenB(Basis(b[..], q1), Basis(g[..], q1), q1, d1),
            SeenG(Basis(b[..], q1), Basis(g[..], q1), q1, d1);
    var dofs := Cast(sm0, d1, d1, d1, m).v2;
    var ddq := Cast(sm0, d1, d1, q1, m);
    var dqq := Cast(sm1, d1, q1, q1, m);
    ghost var x0 := Element(x, e, d1);
    LoadElement(xs, e, ne, dofs, x);
    p.Load(b, g);
    InterpolateX(dofs, p, ddq.v0, ddq.v1, x0, sb, sg);
    ghost var u, v := AlongX(d1, x0, sb), AlongX(d1, x0, sg);
    ContractY(Rows(ddq.v1, ddq.v0, ddq.v0), p, dqq, d1, q1, Fields(v, u, u), sb, sg);
    ContractWeigh(dqq, p, ds, e, ne, sym, symmetric, Cast(sm0, q1, q1, q1, m),
                  FieldsY(d1, Fields(v, u, u), sb, sg), sb, sg, d);
  }

  /** Stages 6 to 9. */
  method Integrate(b: array<real>, g: array<real>, ys: View, e: nat, ne: nat, p: Pair,
                   sm0: seq<array<real>>, sm1: seq<array<real>>, m: nat, ghost h: Fields, ghost y0: Table3)
    requires p.turned && p.Fits() && p.d1 <= m && p.q1 <= m && b.Length == g.Length == p.d1 * p.q1 && e < ne
    requires Scratch(sm0, m) && Scratch(sm1, m) && {sm0[0], sm0[1], sm0[2]} !! {sm1[0], sm1[1], sm1[2]}
    requires {sm0[0], sm0[1], sm0[2], sm1[0], sm1[1], sm1[2], p.buf} !! {b, g, ys.buf}
    requires p.buf !in {sm0[0], sm0[1], sm0[2], sm1[0], sm1[1], sm1[2]} && ys.buf !in {b, g}
    requires Shows(ys, y0) && ys.ny == ys.nx == p.d1 && ys.nz == ne * p.d1
    requires Cast(sm0, p.q1, p.q1, p.q1, m).Show(h)
    modifies sm0[0], sm0[1], sm0[2], sm1[0], sm1[1], sm1[2], p.buf, ys.buf
    ensures var sb, sg := SeenB(Basis(b[..], p.q1), Basis(g[..], p.q1), p.q1, p.d1),
                SeenG(Basis(b[..], p.q1), Basis(g[..], p.q1), p.q1, p.d1);
            Shows(ys, Added(y0, Divergence(p.q1, h, Turned(sb), Turned(sg)), e, p.d1))
  {
    var d1, q1 := p.d1, p.q1;
    ghost var sb, sg := SeenB(Basis(b[..], q1), Basis(g[..], q1), q1, d1),
            SeenG(Basis(b[..], q1), Basis(g[..], q1), q1, d1);
    ghost var bt, gt := Turned(sb), Turned(sg);
    var qqd, qdd := Cast(sm1, q1, q1, d1, m), Cast(sm0, q1, d1, d1, m);
    p.Load(b, g);
    ContractX(Cast(sm0, q1, q1, q1, m), p, qqd, q1, q1, h, bt, gt);
    ContractY(qqd, p, qdd, q1, d1, FieldsX(q1, h, bt, gt), bt, gt);
    ContractAdd(qdd, p, ys, e, ne, FieldsY(q1, FieldsX(q1, h, bt, gt), bt, gt), bt, gt, y0);
  }

  /** The action on element e with the tables that reads of sBG return. */
  ghost function Action(b: Table2, g: Table2, d: Table3, x: Table3, e: nat, d1: nat, q1: nat, sym: nat,
                        symmetric: bool): Table3 {
    Staged(d1, q1, SeenB(b, g, q1, d1), SeenG(b, g, q1, d1), Material(d, e, sym, q1, symmetric), Element(x, e, d1))
  }

  /** All nine stages for one element. */
  method ElementAction(b: array<real>, g: array<real>, ds: View, xs: View, ys: View, e: nat, ne: nat, sym: nat,
                       symmetric: bool, d1: nat, q1: nat, ghost d: Table3, ghost x: Table3, ghost y0: Table3)
    requires b.Length == g.Length == d1 * q1 && e < ne && ys.buf !in {b, g, ds.buf, xs.buf}
    requires Shows(ds, d) && ds.ny == ds.nx == q1 && ds.nz == ne * sym * q1 && (if symmetric then 6 else 9) <= sym
    requires Shows(xs, x) && xs.ny == xs.nx == d1 && xs.nz == ne * d1
    requires Shows(ys, y0) && ys.ny == ys.nx == d1 && ys.nz == ne * d1
    modifies ys.buf
    ensures Shows(ys, Added(y0, Action(Basis(b[..], q1), Basis(g[..], q1), d, x, e, d1, q1, sym, symmetric), e, d1))
  {
    var m := Max(q1, d1);
    var sBG := new real[q1 * d1];
    var r0, r1, r2 := new real[m * m * m], new real[m * m * m], new real[m * m * m];
    var s0, s1, s2 := new real[m * m * m], new real[m * m * m], new real[m * m * m];
    var sm0, sm1 := [r0, r1, r2], [s0, s1, s2];
    Interpolate(b, g, ds, xs, e, ne, sym, symmetric, Pair(sBG, q1, d1, false), sm0, sm1, m, d, x);
    ghost var sb, sg := SeenB(Basis(b[..], q1), Basis(g[..], q1), q1, d1),
            SeenG(Basis(b[..], q1), Basis(g[..], q1), q1, d1);
    Integrate(b, g, ys, e, ne, Pair(sBG, q1, d1, true), sm0, sm1, m,
              Fluxes(Material(d, e, sym, q1, symmetric), Gradient(d1, Element(x, e, d1), sb, sg)), y0);
  }

  ghost function AllActions(b: Table2, g: Table2, d: Table3, x: Table3, d1: nat, q1: nat, sym: nat,
                            symmetric: bool): nat -> Table3 {
    (e: nat) => Action(b, g, d, x, e, d1, q1, sym, symmetric)
  }

  /** The element loop. */
  method Apply(b: array<real>, g: array<real>, ds: View, xs: View, ys: View, ne: nat, sym: nat, symmetric: bool,
               d1: nat, q1: nat, ghost d: Table3, ghost x: Table3, ghost y0: Table3)
    requires d1 >= 1 && b.Length == g.Length == d1 * q1 && ys.buf !in {b, g, ds.buf, xs.buf}
    requires Shows(ds, d) && ds.ny == ds.nx == q1 && ds.nz == ne * sym * q1 && (if symmetric then 6 else 9) <= sym
    requires Shows(xs, x) && xs.ny == xs.nx == d1 && xs.nz == ne * d1
    requires Shows(ys, y0) && ys.ny == ys.nx == d1 && ys.nz == ne * d1
    modifies ys.buf
    ensures Shows(ys, AllAdded(y0,
                               AllActions(Basis(b[..], q1), Basis(g[..], q1), d, x, d1, q1, sym, symmetric), ne, d1))
  {
    ghost var F := AllActions(Basis(b[..], q1), Basis(g[..], q1), d, x, d1, q1, sym, symmetric);
    for e := 0 to ne
      invariant Shows(ys, AllAdded(y0, F, e, d1))
    {
      ElementAction(b, g, ds, xs, ys, e, ne, sym, symmetric, d1, q1, d, x, AllAdded(y0, F, e, d1));
      forall z, y, x' | ys.Has(z, y, x') ensures ys.Load(z, y, x') == AllAdded(y0, F, e + 1, d1)(z, y, x') {
        AddedNext(y0, F, e, d1, z, y, x');
      }
    }
  }
}
