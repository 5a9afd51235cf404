/**
 * Flat scratch buffers viewed as three-dimensional C arrays.  The same buffer is viewed
 * with different extents at different stages, so only the flat index is stored.
 */
module Buffer {
  import opened Arith
  import opened Sums

  /** Offset of [z][y][x] in a C array whose two inner extents are ny and nx. */
  function Idx(z: int, y: int, x: int, ny: nat, nx: nat): int {
    (z * ny + y) * nx + x
  }

  predicate Inside(z: int, y: int, x: int, nz: nat, ny: nat, nx: nat) {
    0 <= z < nz && 0 <= y < ny && 0 <= x < nx
  }

  lemma IdxInRange(z: int, y: int, x: int, nz: nat, ny: nat, nx: nat)
    requires Inside(z, y, x, nz, ny, nx)
    ensures 0 <= Idx(z, y, x, ny, nx) < nz * ny * nx
  {
    MulStep(z, nz, ny);
    MulMonotone(0, z, ny);
    var r := z * ny + y;
    MulStep(r, nz * ny, nx);
    MulMonotone(0, r, nx);
  }

  lemma IdxInjective(z: int, y: int, x: int, w: int, v: int, u: int, nz: nat, ny: nat, nx: nat)
    requires Inside(z, y, x, nz, ny, nx) && Inside(w, v, u, nz, ny, nx)
    requires Idx(z, y, x, ny, nx) == Idx(w, v, u, ny, nx)
    ensures z == w && y == v && x == u
  {
    MulMonotone(0, z, ny);
    MulMonotone(0, w, ny);
    DivMod(z * ny + y, x, nx);
    DivMod(w * ny + v, u, nx);
    DivMod(z, y, ny);
    DivMod(w, v, ny);
  }

  /** Whether the loop nest over (z, y, x) has passed a cell when it stands at (c, b, d). */
  predicate Before(z: int, y: int, x: int, c: int, b: int, d: int) {
    z < c || (z == c && (y < b || (y == b && x < d)))
  }

  /** A pointer cast: a buffer and the three extents it is read with. */
  datatype View = View(buf: array<real>, nz: nat, ny: nat, nx: nat) {

    predicate Fits() {
      nz * ny * nx <= buf.Length
    }

    predicate Has(z: int, y: int, x: int) {
      Inside(z, y, x, nz, ny, nx)
    }

    function Load(z: int, y: int, x: int): real
      requires Fits() && Has(z, y, x)
      reads buf
    {
      IdxInRange(z, y, x, nz, ny, nx);
      buf[Idx(z, y, x, ny, nx)]
    }

    /** A load, by what the view shows. */
    method Read(z: int, y: int, x: int, ghost f: Table3) returns (v: real)
      requires Fits() && Has(z, y, x) && Holds(f)
      ensures v == f(z, y, x)
    {
      v := Load(z, y, x);
    }

    method ReadRow(q: int, k: int, ghost c: Table2) returns (v: real)
      requires Fits() && Has(0, q, k) && HoldsRows(c)
      ensures v == c(q, k)
    {
      v := Load(0, q, k);
    }

    /** Storing one cell changes no other cell of the view. */
    method Store(z: int, y: int, x: int, v: real)
      requires Fits() && Has(z, y, x)
      modifies buf
      ensures Load(z, y, x) == v
      ensures forall c, b, d | Has(c, b, d) && (c != z || b != y || d != x) :: Load(c, b, d) == old(Load(c, b, d))
    {
      IdxInRange(z, y, x, nz, ny, nx);
      forall c, b, d | Has(c, b, d) && (c != z || b != y || d != x)
        ensures Idx(c, b, d, ny, nx) != Idx(z, y, x, ny, nx)
      {
        if Idx(c, b, d, ny, nx) == Idx(z, y, x, ny, nx) { IdxInjective(c, b, d, z, y, x, nz, ny, nx); }
      }
      buf[Idx(z, y, x, ny, nx)] := v;
    }

    /** The view shows the table f. */
    ghost predicate Holds(f: Table3)
      requires Fits()
      reads buf
    {
      forall z, y, x {:trigger Load(z, y, x)} | Has(z, y, x) :: Load(z, y, x) == f(z, y, x)
    }

    /** The cells a loop nest over z, y, x has passed show f already. */
    ghost predicate Partly(f: Table3, c: int, b: int, d: int)
      requires Fits()
      reads buf
    {
      forall z, y, x {:trigger Load(z, y, x)} | Has(z, y, x) && Before(z, y, x, c, b, d) :: Load(z, y, x) == f(z, y, x)
    }

    /** The same for a nest over y, x that fills whole z-columns. */
    ghost predicate Columns(f: Table3, b: int, d: int)
      requires Fits()
      reads buf
    {
      forall z, y, x {:trigger Load(z, y, x)} | Has(z, y, x) && Before(0, y, x, 0, b, d) :: Load(z, y, x) == f(z, y, x)
    }

    /** The view, one plane deep, shows the coefficients c[q][k] by rows. */
    ghost predicate HoldsRows(c: Table2)
      requires Fits()
      reads buf
    {
      nz == 1 && forall q, k {:trigger Load(0, q, k)} | Has(0, q, k) :: Load(0, q, k) == c(q, k)
    }
  }

  /** The view lies within its buffer and shows f. */
  ghost predicate Shows(t: View, f: Table3)
    reads t.buf
  {
    t.Fits() && t.Holds(f)
  }

  lemma CubeFits(a: nat, b: nat, c: nat, m: nat)
    requires a <= m && b <= m && c <= m
    ensures a * b * c <= m * m * m
  {
    MulMonotone(a, m, b);
    MulMonotone(b, m, m);
    MulMonotone(a * b, m * m, c);
    MulMonotone(c, m, m * m);
  }

  function Max(a: nat, b: nat): (m: nat)
    ensures a <= m && b <= m
  {
    if a > b then a else b
  }
}
