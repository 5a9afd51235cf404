/** One element's share of the global arrays, the e-th run of n planes, and the shared basis tables. */
module Elements {
  import opened Arith
  import opened Buffer
  import opened Sums

  function Element(g: Table3, e: nat, n: nat): Table3 {
    (z, y, x) => g(e * n + z, y, x)
  }

  lemma ElementInside(e: nat, ne: nat, n: nat, z: nat)
    requires e < ne && z < n
    ensures 0 <= e * n + z < ne * n
  {
    MulStep(e, ne, n);
    MulMonotone(0, e, n);
  }

  /** g with f added to element e. */
  function Added(g: Table3, f: Table3, e: nat, n: nat): Table3 {
    (z, y, x) => if e * n <= z < e * n + n then g(z, y, x) + f(z - e * n, y, x) else g(z, y, x)
  }

  /** g with F(e) added to every element e below `upto`. */
  function AllAdded(g: Table3, F: nat -> Table3, upto: nat, n: nat): Table3
    requires n > 0
  {
    (z, y, x) => if 0 <= z < upto * n then g(z, y, x) + F(z / n)(z % n, y, x) else g(z, y, x)
  }

  lemma AddedNext(g: Table3, F: nat -> Table3, e: nat, n: nat, z: int, y: int, x: int)
    requires n > 0
    ensures Added(AllAdded(g, F, e, n), F(e), e, n)(z, y, x) == AllAdded(g, F, e + 1, n)(z, y, x)
  {
    assert (e + 1) * n == e * n + n;
    if e * n <= z < e * n + n { DivMod(e, z - e * n, n); }
    MulMonotone(0, e, n);
  }

  /** After the loop over elements each one has received exactly its own contribution. */
  lemma AllAddedAt(g: Table3, F: nat -> Table3, ne: nat, n: nat, e: nat, z: nat, y: int, x: int)
    requires n > 0 && e < ne && z < n
    ensures AllAdded(g, F, ne, n)(e * n + z, y, x) == g(e * n + z, y, x) + F(e)(z, y, x)
  {
    ElementInside(e, ne, n, z);
    DivMod(e, z, n);
  }

  /** The contents of a global array as a table. */
  ghost function Contents(v: View): (g: Table3)
    requires v.Fits()
    reads v.buf
    ensures v.Holds(g)
  {
    var s, ny, nx := v.buf[..], v.ny, v.nx;
    var g: Table3 := (z, y, x) => if 0 <= Idx(z, y, x, ny, nx) < |s| then s[Idx(z, y, x, ny, nx)] else 0.0;
    assert v.Holds(g) by {
      forall z, y, x | v.Has(z, y, x) ensures v.Load(z, y, x) == g(z, y, x) { IdxInRange(z, y, x, v.nz, v.ny, v.nx); }
    }
    g
  }

  // The basis tables all elements share.

  /** B(q, d) as the macro B_ reads it: B[q + Q*d]. */
  function BasisAt(b: seq<real>, q1: nat, q: int, d: int): real {
    if 0 <= d * q1 + q < |b| then b[d * q1 + q] else 0.0
  }

  ghost function Basis(b: seq<real>, q1: nat): Table2 {
    (q, d) => BasisAt(b, q1, q, d)
  }

  lemma BasisLoads(b: array<real>, d1: nat, q1: nat)
    requires b.Length == d1 * q1
    ensures View(b, 1, d1, q1).Fits()
    ensures forall d, q | View(b, 1, d1, q1).Has(0, d, q) ::
              View(b, 1, d1, q1).Load(0, d, q) == BasisAt(b[..], q1, q, d)
  {
    assert 1 * d1 * q1 == d1 * q1;
    forall d, q | Inside(0, d, q, 1, d1, q1) ensures 0 <= d * q1 + q < b.Length {
      IdxInRange(0, d, q, 1, d1, q1);
    }
  }

  lemma BasisEntry(b: seq<real>, d1: nat, q1: nat, q: nat, d: nat)
    requires |b| == d1 * q1 && q < q1 && d < d1
    ensures 0 <= q + q1 * d < |b| && Basis(b, q1)(q, d) == b[q + q1 * d]
  {
    IdxInRange(0, d, q, 1, d1, q1);
    assert 1 * d1 * q1 == d1 * q1;
  }

  /** Where the macros X_, Y_ and D_ find entry (x, y, z) of element e, and what stands there. */
  lemma ElementEntry(v: View, g: Table3, ne: nat, n: nat, e: nat, z: nat, y: nat, x: nat)
    requires Shows(v, g) && v.nz == ne * n && v.ny == v.nx == n && e < ne && z < n && y < n && x < n
    ensures var at := x + n * y + n * n * z + n * n * n * e;
            0 <= at < v.buf.Length && v.buf[at] == g(e * n + z, y, x)
  {
    ElementInside(e, ne, n, z);
    ElementOffset(e, n, z, y, x);
    IdxInRange(e * n + z, y, x, v.nz, n, n);
    assert v.Load(e * n + z, y, x) == g(e * n + z, y, x);
  }

  lemma ElementOffset(e: nat, n: nat, z: int, y: int, x: int)
    ensures Idx(e * n + z, y, x, n, n) == x + n * y + n * n * z + n * n * n * e
  {
    var m := n * n;
    CubeOffset(e * n + z, y, x, n);
    assert m * (e * n + z) == m * (e * n) + m * z;
    assert m * (e * n) == m * n * e;
  }

  lemma CubeOffset(w: int, y: int, x: int, n: nat)
    ensures Idx(w, y, x, n, n) == x + n * y + n * n * w
  {
    assert (w * n + y) * n == w * n * n + y * n;
    assert w * n * n == n * n * w;
  }

  // Quadrature data with several components an element.

  /** Where the macro finds component s of element e at point (x, y, z), and what stands there. */
  lemma ComponentEntry(v: View, g: Table3, ne: nat, sym: nat, q1: nat, e: nat, s: nat, z: nat, y: nat, x: nat)
    requires Shows(v, g) && v.nz == ne * sym * q1 && v.ny == v.nx == q1 && e < ne && s < sym
    requires z < q1 && y < q1 && x < q1
    ensures var at := x + q1 * y + q1 * q1 * z + q1 * q1 * q1 * s + q1 * q1 * q1 * sym * e;
            0 <= at < v.buf.Length && v.buf[at] == g((e * sym + s) * q1 + z, y, x)
  {
    ElementInside(e, ne, sym, s);
    ElementEntry(v, g, ne * sym, q1, e * sym + s, z, y, x);
    assert q1 * q1 * q1 * (e * sym + s) == q1 * q1 * q1 * sym * e + q1 * q1 * q1 * s;
  }

  /** Component s of element e in the data laid out with `sym` components an element. */
  ghost function Coefficient(d: Table3, e: nat, sym: nat, q1: nat, s: nat): Table3 {
    (z, y, x) => d((e * sym + s) * q1 + z, y, x)
  }

  lemma PlaneOfData(e: nat, ne: nat, sym: nat, q1: nat, s: nat, z: nat)
    requires e < ne && s < sym && z < q1
    ensures 0 <= (e * sym + s) * q1 + z < ne * sym * q1
  {
    ElementInside(e, ne, sym, s);
    ElementInside(e * sym + s, ne * sym, q1, z);
  }

  /** The macro d(qx, qy, qz, s, e). */
  method LoadData(ds: View, e: nat, ne: nat, sym: nat, s: nat, z: nat, y: nat, x: nat, ghost d: Table3)
    returns (v: real)
    requires Shows(ds, d) && ds.ny == ds.nx && ds.nz == ne * sym * ds.nx && e < ne && s < sym && z < ds.nx && y < ds.nx
    requires x < ds.nx
    ensures v == Coefficient(d, e, sym, ds.nx, s)(z, y, x)
  {
    PlaneOfData(e, ne, sym, ds.nx, s, z);
    v := ds.Read((e * sym + s) * ds.nx + z, y, x, d);
  }
}
