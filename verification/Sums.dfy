/** Finite sums of reals, and the tensor algebra the finite-element kernels rest on. */
module Sums {
  import opened RealArith

  /** A table indexed by two or three coordinates. */
  type Table2 = (int, int) -> real
  type Table3 = (int, int, int) -> real

  function Sum(n: nat, f: int -> real): real {
    if n == 0 then 0.0 else Sum(n - 1, f) + f(n - 1)
  }

  /** One x-row and one (y, x)-plane of a triple sum. */
  function Row(nx: nat, f: Table3, z: int, y: int): real {
    Sum(nx, (x: int) => f(z, y, x))
  }

  function Plane(ny: nat, nx: nat, f: Table3, z: int): real {
    Sum(ny, (y: int) => Row(nx, f, z, y))
  }

  function Sum3(nz: nat, ny: nat, nx: nat, f: Table3): real {
    Sum(nz, (z: int) => Plane(ny, nx, f, z))
  }

  lemma {:induction false} SumExt(n: nat, f: int -> real, g: int -> real)
    requires forall k | 0 <= k < n :: f(k) == g(k)
    ensures Sum(n, f) == Sum(n, g)
  {
    if n > 0 { SumExt(n - 1, f, g); }
  }

  lemma {:induction false} SumScaled(n: nat, c: real, f: int -> real, g: int -> real)
    requires forall k | 0 <= k < n :: g(k) == c * f(k)
    ensures Sum(n, g) == c * Sum(n, f)
  {
    if n > 0 {
      SumScaled(n - 1, c, f, g);
      Distribute(c, Sum(n - 1, f), f(n - 1));
    }
  }

  lemma {:induction false} SumAdd(n: nat, f: int -> real, g: int -> real)
    ensures Sum(n, (k: int) => f(k) + g(k)) == Sum(n, f) + Sum(n, g)
  {
    if n > 0 { SumAdd(n - 1, f, g); }
  }

  lemma {:induction false} SumZero(n: nat, f: int -> real)
    requires forall k | 0 <= k < n :: f(k) == 0.0
    ensures Sum(n, f) == 0.0
  {
    if n > 0 { SumZero(n - 1, f); }
  }

  function Constant(c: real): int -> real {
    (k: int) => c
  }

  lemma {:induction false} SumConstant(n: nat, c: real)
    ensures Sum(n, Constant(c)) == n as real * c
  {
    if n > 0 { SumConstant(n - 1, c); }
  }

  /** The sum of each run of `size` values. */
  function BlockSum(size: nat, f: int -> real): int -> real {
    (b: int) => Sum(size, (t: int) => f(b * size + t))
  }

  lemma {:induction false} SumAppend(n: nat, m: nat, f: int -> real)
    ensures Sum(n + m, f) == Sum(n, f) + Sum(m, (k: int) => f(n + k))
  {
    if m > 0 {
      SumAppend(n, m - 1, f);
      assert Sum(n + m, f) == Sum(n + m - 1, f) + f(n + m - 1);
      var g := (k: int) => f(n + k);
      assert Sum(m, g) == Sum(m - 1, g) + g(m - 1);
    }
  }

  lemma {:induction false} SumByBlocks(blocks: nat, size: nat, f: int -> real)
    ensures Sum(blocks, BlockSum(size, f)) == Sum(blocks * size, f)
  {
    if blocks > 0 {
      SumByBlocks(blocks - 1, size, f);
      assert blocks * size == (blocks - 1) * size + size;
      SumAppend((blocks - 1) * size, size, f);
    }
  }

  /** The sum of f over the members of s below n. */
  function Over(n: nat, f: int -> real, s: set<int>): real {
    if n == 0 then 0.0 else Over(n - 1, f, s) + if n - 1 in s then f(n - 1) else 0.0
  }

  lemma {:induction false} OverRemove(n: nat, f: int -> real, s: set<int>, b: int)
    requires 0 <= b && b in s
    ensures Over(n, f, s) == Over(n, f, s - {b}) + if b < n then f(b) else 0.0
  {
    if n > 0 { OverRemove(n - 1, f, s, b); }
  }

  lemma {:induction false} OverAll(n: nat, f: int -> real, s: set<int>)
    requires forall b | 0 <= b < n :: b in s
    ensures Over(n, f, s) == Sum(n, f)
  {
    if n > 0 { OverAll(n - 1, f, s); }
  }

  lemma {:induction false} OverNone(n: nat, f: int -> real)
    ensures Over(n, f, {}) == 0.0
  {
    if n > 0 { OverNone(n - 1, f); }
  }

  function RowTotal(m: nat, f: Table2, i: int): real {
    Sum(m, (j: int) => f(i, j))
  }

  function ColumnTotal(n: nat, f: Table2, j: int): real {
    Sum(n, (i: int) => f(i, j))
  }

  /** Exchange of two finite sums. */
  lemma {:induction false} SumSwap(n: nat, m: nat, f: Table2)
    ensures Sum(n, (i: int) => RowTotal(m, f, i)) == Sum(m, (j: int) => ColumnTotal(n, f, j))
  {
    if n == 0 {
      SumZero(m, (j: int) => ColumnTotal(n, f, j));
    } else {
      var inner, last := (j: int) => ColumnTotal(n - 1, f, j), (j: int) => f(n - 1, j);
      SumSwap(n - 1, m, f);
      SumExt(n - 1, (i: int) => RowTotal(m, f, i), (i: int) => RowTotal(m, f, i));
      SumAdd(m, inner, last);
      SumExt(m, (j: int) => ColumnTotal(n, f, j), (j: int) => inner(j) + last(j));
    }
  }

  lemma RowExt(nx: nat, f: Table3, g: Table3, z: int, y: int)
    requires forall x | 0 <= x < nx :: f(z, y, x) == g(z, y, x)
    ensures Row(nx, f, z, y) == Row(nx, g, z, y)
  {
    SumExt(nx, (x: int) => f(z, y, x), (x: int) => g(z, y, x));
  }

  lemma PlaneExt(ny: nat, nx: nat, f: Table3, g: Table3, z: int)
    requires forall y, x | 0 <= y < ny && 0 <= x < nx :: f(z, y, x) == g(z, y, x)
    ensures Plane(ny, nx, f, z) == Plane(ny, nx, g, z)
  {
    forall y | 0 <= y < ny ensures Row(nx, f, z, y) == Row(nx, g, z, y) {
      RowExt(nx, f, g, z, y);
    }
    SumExt(ny, (y: int) => Row(nx, f, z, y), (y: int) => Row(nx, g, z, y));
  }

  lemma Sum3Ext(nz: nat, ny: nat, nx: nat, f: Table3, g: Table3)
    requires forall z, y, x | 0 <= z < nz && 0 <= y < ny && 0 <= x < nx :: f(z, y, x) == g(z, y, x)
    ensures Sum3(nz, ny, nx, f) == Sum3(nz, ny, nx, g)
  {
    forall z | 0 <= z < nz ensures Plane(ny, nx, f, z) == Plane(ny, nx, g, z) {
      PlaneExt(ny, nx, f, g, z);
    }
    SumExt(nz, (z: int) => Plane(ny, nx, f, z), (z: int) => Plane(ny, nx, g, z));
  }

  lemma Sum3Add(nz: nat, ny: nat, nx: nat, f: Table3, g: Table3)
    ensures Sum3(nz, ny, nx, (z, y, x) => f(z, y, x) + g(z, y, x)) == Sum3(nz, ny, nx, f) + Sum3(nz, ny, nx, g)
  {
    var h: Table3 := (z, y, x) => f(z, y, x) + g(z, y, x);
    forall z, y ensures Row(nx, h, z, y) == Row(nx, f, z, y) + Row(nx, g, z, y) {
      SumAdd(nx, (x: int) => f(z, y, x), (x: int) => g(z, y, x));
      SumExt(nx, (x: int) => h(z, y, x), (x: int) => ((x: int) => f(z, y, x))(x) + ((x: int) => g(z, y, x))(x));
    }
    forall z ensures Plane(ny, nx, h, z) == Plane(ny, nx, f, z) + Plane(ny, nx, g, z) {
      var fr, gr := (y: int) => Row(nx, f, z, y), (y: int) => Row(nx, g, z, y);
      SumAdd(ny, fr, gr);
      SumExt(ny, (y: int) => Row(nx, h, z, y), (y: int) => fr(y) + gr(y));
    }
    var fp, gp := (z: int) => Plane(ny, nx, f, z), (z: int) => Plane(ny, nx, g, z);
    SumAdd(nz, fp, gp);
    SumExt(nz, (z: int) => Plane(ny, nx, h, z), (z: int) => fp(z) + gp(z));
  }

  function Scaled(c: real, f: Table3): Table3 {
    (z, y, x) => c * f(z, y, x)
  }

  lemma RowScale(nx: nat, c: real, f: Table3, z: int, y: int)
    ensures Row(nx, Scaled(c, f), z, y) == c * Row(nx, f, z, y)
  {
    var g := Scaled(c, f);
    SumScaled(nx, c, (x: int) => f(z, y, x), (x: int) => g(z, y, x));
  }

  lemma RowsScaled(ny: nat, nx: nat, c: real, f: Table3, g: Table3, z: int)
    requires forall y :: Row(nx, g, z, y) == c * Row(nx, f, z, y)
    ensures Plane(ny, nx, g, z) == c * Plane(ny, nx, f, z)
  {
    SumScaled(ny, c, (y: int) => Row(nx, f, z, y), (y: int) => Row(nx, g, z, y));
  }

  lemma PlaneScale(ny: nat, nx: nat, c: real, f: Table3, z: int)
    ensures Plane(ny, nx, Scaled(c, f), z) == c * Plane(ny, nx, f, z)
  {
    forall y ensures Row(nx, Scaled(c, f), z, y) == c * Row(nx, f, z, y) { RowScale(nx, c, f, z, y); }
    RowsScaled(ny, nx, c, f, Scaled(c, f), z);
  }

  lemma PlanesScaled(nz: nat, ny: nat, nx: nat, c: real, f: Table3, g: Table3)
    requires forall z :: Plane(ny, nx, g, z) == c * Plane(ny, nx, f, z)
    ensures Sum3(nz, ny, nx, g) == c * Sum3(nz, ny, nx, f)
  {
    SumScaled(nz, c, (z: int) => Plane(ny, nx, f, z), (z: int) => Plane(ny, nx, g, z));
  }

  lemma Sum3Scale(nz: nat, ny: nat, nx: nat, c: real, f: Table3)
    ensures Sum3(nz, ny, nx, Scaled(c, f)) == c * Sum3(nz, ny, nx, f)
  {
    forall z ensures Plane(ny, nx, Scaled(c, f), z) == c * Plane(ny, nx, f, z) { PlaneScale(ny, nx, c, f, z); }
    PlanesScaled(nz, ny, nx, c, f, Scaled(c, f));
  }

  lemma MultipleOf(n: nat, k: real, w: Table3, row: Table3)
    requires forall z, y, x :: row(z, y, x) == k * w(z, y, x)
    ensures Sum3(n, n, n, row) == k * Sum3(n, n, n, w)
  {
    Sum3Scale(n, n, n, k, w);
    Sum3Ext(n, n, n, row, Scaled(k, w));
  }

  // Signs and comparisons of triple sums.

  lemma {:induction false} SumPositive(n: nat, f: int -> real)
    requires forall k | 0 <= k < n :: f(k) >= 0.0
    ensures Sum(n, f) >= 0.0
  {
    if n > 0 { SumPositive(n - 1, f); }
  }

  lemma Sum3Positive(nz: nat, ny: nat, nx: nat, f: Table3)
    requires forall i, j, k | 0 <= i < nz && 0 <= j < ny && 0 <= k < nx :: f(i, j, k) >= 0.0
    ensures Sum3(nz, ny, nx, f) >= 0.0
  {
    forall i | 0 <= i < nz ensures Plane(ny, nx, f, i) >= 0.0 {
      forall j | 0 <= j < ny ensures Row(nx, f, i, j) >= 0.0 {
        SumPositive(nx, (k: int) => f(i, j, k));
      }
      SumPositive(ny, (j: int) => Row(nx, f, i, j));
    }
    SumPositive(nz, (i: int) => Plane(ny, nx, f, i));
  }

  lemma {:induction false} SumAt(n: nat, f: int -> real, k: nat)
    requires k < n && forall j | 0 <= j < n && j != k :: f(j) == 0.0
    ensures Sum(n, f) == f(k)
  {
    if k < n - 1 { SumAt(n - 1, f, k); } else { SumZero(n - 1, f); }
  }

  lemma Sum3At(n: nat, f: Table3, w: nat, v: nat, u: nat)
    requires w < n && v < n && u < n
    requires forall z, y, x | 0 <= z < n && 0 <= y < n && 0 <= x < n && (z != w || y != v || x != u) ::
               f(z, y, x) == 0.0
    ensures Sum3(n, n, n, f) == f(w, v, u)
  {
    forall z | 0 <= z < n && z != w ensures Plane(n, n, f, z) == 0.0 {
      forall y | 0 <= y < n ensures Row(n, f, z, y) == 0.0 { SumZero(n, (x: int) => f(z, y, x)); }
      SumZero(n, (y: int) => Row(n, f, z, y));
    }
    forall y | 0 <= y < n && y != v ensures Row(n, f, w, y) == 0.0 { SumZero(n, (x: int) => f(w, y, x)); }
    SumAt(n, (x: int) => f(w, v, x), u);
    SumAt(n, (y: int) => Row(n, f, w, y), v);
    SumAt(n, (z: int) => Plane(n, n, f, z), w);
  }

  /** A sum of non-negative terms is at least each of them. */
  lemma {:induction false} SumAtLeast(n: nat, f: int -> real, k: nat)
    requires k < n && forall j | 0 <= j < n :: f(j) >= 0.0
    ensures Sum(n, f) >= f(k)
  {
    if k < n - 1 { SumAtLeast(n - 1, f, k); } else { SumPositive(n - 1, f); }
  }

  lemma Sum3AtLeast(n: nat, f: Table3, w: nat, v: nat, u: nat)
    requires w < n && v < n && u < n
    requires forall z, y, x | 0 <= z < n && 0 <= y < n && 0 <= x < n :: f(z, y, x) >= 0.0
    ensures Sum3(n, n, n, f) >= f(w, v, u)
  {
    forall z | 0 <= z < n ensures Plane(n, n, f, z) >= 0.0 {
      forall y | 0 <= y < n ensures Row(n, f, z, y) >= 0.0 { SumPositive(n, (x: int) => f(z, y, x)); }
      SumPositive(n, (y: int) => Row(n, f, z, y));
    }
    forall y | 0 <= y < n ensures Row(n, f, w, y) >= 0.0 { SumPositive(n, (x: int) => f(w, y, x)); }
    SumAtLeast(n, (x: int) => f(w, v, x), u);
    SumAtLeast(n, (y: int) => Row(n, f, w, y), v);
    SumAtLeast(n, (z: int) => Plane(n, n, f, z), w);
  }

  function Difference(g: Table3, f: Table3): Table3 {
    (z, y, x) => g(z, y, x) - f(z, y, x)
  }

  lemma Sum3Difference(n: nat, f: Table3, g: Table3)
    ensures Sum3(n, n, n, g) == Sum3(n, n, n, f) + Sum3(n, n, n, Difference(g, f))
  {
    var h := Difference(g, f);
    Sum3Add(n, n, n, f, h);
    Sum3Ext(n, n, n, g, (z, y, x) => f(z, y, x) + h(z, y, x));
  }

  lemma Sum3Monotone(n: nat, f: Table3, g: Table3)
    requires forall z, y, x | 0 <= z < n && 0 <= y < n && 0 <= x < n :: f(z, y, x) <= g(z, y, x)
    ensures Sum3(n, n, n, f) <= Sum3(n, n, n, g)
  {
    Sum3Difference(n, f, g);
    Sum3Positive(n, n, n, Difference(g, f));
  }

  /** Smaller somewhere and larger nowhere: a smaller sum. */
  lemma Sum3Below(n: nat, f: Table3, g: Table3, w: nat, v: nat, u: nat)
    requires w < n && v < n && u < n && f(w, v, u) < g(w, v, u)
    requires forall z, y, x | 0 <= z < n && 0 <= y < n && 0 <= x < n :: f(z, y, x) <= g(z, y, x)
    ensures Sum3(n, n, n, f) < Sum3(n, n, n, g)
  {
    Sum3Difference(n, f, g);
    Sum3AtLeast(n, Difference(g, f), w, v, u);
  }

  lemma Sum3Negated(n: nat, c: Table3)
    ensures Sum3(n, n, n, Scaled(-1.0, c)) == -Sum3(n, n, n, c)
  {
    Sum3Scale(n, n, n, -1.0, c);
  }

  /** Bounds on all terms bound the sum, strictly if they are strict anywhere. */
  lemma Sum3Between(n: nat, f: Table3, c: Table3)
    requires forall z, y, x | 0 <= z < n && 0 <= y < n && 0 <= x < n :: -c(z, y, x) <= f(z, y, x) <= c(z, y, x)
    ensures -Sum3(n, n, n, c) <= Sum3(n, n, n, f) <= Sum3(n, n, n, c)
  {
    Sum3Monotone(n, f, c);
    Sum3Monotone(n, Scaled(-1.0, c), f);
    Sum3Negated(n, c);
  }

  lemma Sum3StrictlyBetween(n: nat, f: Table3, c: Table3, w: nat, v: nat, u: nat)
    requires w < n && v < n && u < n && -c(w, v, u) < f(w, v, u) < c(w, v, u)
    requires forall z, y, x | 0 <= z < n && 0 <= y < n && 0 <= x < n :: -c(z, y, x) <= f(z, y, x) <= c(z, y, x)
    ensures -Sum3(n, n, n, c) < Sum3(n, n, n, f) < Sum3(n, n, n, c)
  {
    Sum3Below(n, f, c, w, v, u);
    Sum3Below(n, Scaled(-1.0, c), f, w, v, u);
    Sum3Negated(n, c);
  }

  function Flip(f: Table3): Table3 {
    (x, y, z) => f(z, y, x)
  }

  function Middle(ny: nat, f: Table3): Table2 {
    (z, x) => Sum(ny, (y: int) => f(z, y, x))
  }

  lemma PlaneTurned(ny: nat, nx: nat, f: Table3, z: int)
    ensures Plane(ny, nx, f, z) == RowTotal(nx, Middle(ny, f), z)
  {
    var p: Table2 := (y, x) => f(z, y, x);
    SumSwap(ny, nx, p);
    forall y ensures RowTotal(nx, p, y) == Row(nx, f, z, y) {
      SumExt(nx, (x: int) => p(y, x), (x: int) => f(z, y, x));
    }
    SumExt(ny, (y: int) => RowTotal(nx, p, y), (y: int) => Row(nx, f, z, y));
    forall x ensures ColumnTotal(ny, p, x) == Middle(ny, f)(z, x) {
      SumExt(ny, (y: int) => p(y, x), (y: int) => f(z, y, x));
    }
    SumExt(nx, (x: int) => ColumnTotal(ny, p, x), (x: int) => Middle(ny, f)(z, x));
  }

  /** Nesting the three sums the other way round changes nothing. */
  lemma Sum3Flip(nz: nat, ny: nat, nx: nat, f: Table3)
    ensures Sum3(nx, ny, nz, Flip(f)) == Sum3(nz, ny, nx, f)
  {
    var middle := Middle(ny, f);
    SumSwap(nz, nx, middle);
    forall z ensures Plane(ny, nx, f, z) == RowTotal(nx, middle, z) { PlaneTurned(ny, nx, f, z); }
    SumExt(nz, (z: int) => Plane(ny, nx, f, z), (z: int) => RowTotal(nx, middle, z));
    forall x ensures Plane(ny, nz, Flip(f), x) == ColumnTotal(nz, middle, x) {
      PlaneTurned(ny, nz, Flip(f), x);
      forall z ensures Middle(ny, Flip(f))(x, z) == middle(z, x) {
        SumExt(ny, (y: int) => Flip(f)(x, y, z), (y: int) => f(z, y, x));
      }
      SumExt(nz, (z: int) => Middle(ny, Flip(f))(x, z), (z: int) => middle(z, x));
    }
    SumExt(nx, (x: int) => Plane(ny, nz, Flip(f), x), (x: int) => ColumnTotal(nz, middle, x));
  }

  // Exchange of a triple sum with a single one, and with another triple sum.

  function Slice(f: (int, int, int, int) -> real, i: int): Table3 {
    (z, y, x) => f(i, z, y, x)
  }

  function SumSlices(n: nat, f: (int, int, int, int) -> real): Table3 {
    (z, y, x) => Sum(n, (i: int) => f(i, z, y, x))
  }

  lemma Sum3Zero(nz: nat, ny: nat, nx: nat, f: Table3)
    requires forall z, y, x :: f(z, y, x) == 0.0
    ensures Sum3(nz, ny, nx, f) == 0.0
  {
    forall z ensures Plane(ny, nx, f, z) == 0.0 {
      forall y ensures Row(nx, f, z, y) == 0.0 { SumZero(nx, (x: int) => f(z, y, x)); }
      SumZero(ny, (y: int) => Row(nx, f, z, y));
    }
    SumZero(nz, (z: int) => Plane(ny, nx, f, z));
  }

  lemma NextSlice(n: nat, nz: nat, ny: nat, nx: nat, f: (int, int, int, int) -> real)
    requires n > 0
    ensures Sum3(nz, ny, nx, SumSlices(n, f)) ==
            Sum3(nz, ny, nx, SumSlices(n - 1, f)) + Sum3(nz, ny, nx, Slice(f, n - 1))
  {
    var g, h := SumSlices(n - 1, f), Slice(f, n - 1);
    Sum3Add(nz, ny, nx, g, h);
    Sum3Ext(nz, ny, nx, SumSlices(n, f), (z, y, x) => g(z, y, x) + h(z, y, x));
  }

  lemma {:induction false} SumSum3Swap(n: nat, nz: nat, ny: nat, nx: nat, f: (int, int, int, int) -> real)
    ensures Sum(n, (i: int) => Sum3(nz, ny, nx, Slice(f, i))) == Sum3(nz, ny, nx, SumSlices(n, f))
  {
    if n == 0 {
      Sum3Zero(nz, ny, nx, SumSlices(0, f));
    } else {
      SumSum3Swap(n - 1, nz, ny, nx, f);
      NextSlice(n, nz, ny, nx, f);
    }
  }

  /** A coefficient for every pair of index triples, read by rows and by columns. */
  type Table6 = (int, int, int, int, int, int) -> real

  function RowOf(f: Table6, z: int, y: int, x: int): Table3 {
    (w, v, u) => f(z, y, x, w, v, u)
  }

  function ColumnOf(f: Table6, w: int, v: int, u: int): Table3 {
    (z, y, x) => f(z, y, x, w, v, u)
  }

  function RowSums(mz: nat, my: nat, mx: nat, f: Table6): Table3 {
    (z, y, x) => Sum3(mz, my, mx, RowOf(f, z, y, x))
  }

  function ColumnSums(nz: nat, ny: nat, nx: nat, f: Table6): Table3 {
    (w, v, u) => Sum3(nz, ny, nx, ColumnOf(f, w, v, u))
  }

  function RowColumn(nx: nat, f: Table6, z: int, y: int): Table3 {
    (w, v, u) => Row(nx, ColumnOf(f, w, v, u), z, y)
  }

  function PlaneColumn(ny: nat, nx: nat, f: Table6, z: int): Table3 {
    (w, v, u) => Plane(ny, nx, ColumnOf(f, w, v, u), z)
  }

  lemma RowSwap(nx: nat, mz: nat, my: nat, mx: nat, f: Table6, z: int, y: int)
    ensures Row(nx, RowSums(mz, my, mx, f), z, y) == Sum3(mz, my, mx, RowColumn(nx, f, z, y))
  {
    var g := (i: int, w: int, v: int, u: int) => f(z, y, i, w, v, u);
    SumSum3Swap(nx, mz, my, mx, g);
    forall x ensures Sum3(mz, my, mx, Slice(g, x)) == RowSums(mz, my, mx, f)(z, y, x) {
      Sum3Ext(mz, my, mx, Slice(g, x), RowOf(f, z, y, x));
    }
    SumExt(nx, (x: int) => Sum3(mz, my, mx, Slice(g, x)), (x: int) => RowSums(mz, my, mx, f)(z, y, x));
    forall w, v, u ensures SumSlices(nx, g)(w, v, u) == RowColumn(nx, f, z, y)(w, v, u) {
      forall x ensures g(x, w, v, u) == ColumnOf(f, w, v, u)(z, y, x) {}
      SumExt(nx, (x: int) => g(x, w, v, u), (x: int) => ColumnOf(f, w, v, u)(z, y, x));
    }
    Sum3Ext(mz, my, mx, SumSlices(nx, g), RowColumn(nx, f, z, y));
  }

  lemma PlaneSwap(ny: nat, nx: nat, mz: nat, my: nat, mx: nat, f: Table6, z: int)
    ensures Plane(ny, nx, RowSums(mz, my, mx, f), z) == Sum3(mz, my, mx, PlaneColumn(ny, nx, f, z))
  {
    var g := (i: int, w: int, v: int, u: int) => RowColumn(nx, f, z, i)(w, v, u);
    SumSum3Swap(ny, mz, my, mx, g);
    forall y ensures Sum3(mz, my, mx, Slice(g, y)) == Row(nx, RowSums(mz, my, mx, f), z, y) {
      RowSwap(nx, mz, my, mx, f, z, y);
      Sum3Ext(mz, my, mx, Slice(g, y), RowColumn(nx, f, z, y));
    }
    SumExt(ny, (y: int) => Sum3(mz, my, mx, Slice(g, y)), (y: int) => Row(nx, RowSums(mz, my, mx, f), z, y));
    forall w, v, u ensures SumSlices(ny, g)(w, v, u) == PlaneColumn(ny, nx, f, z)(w, v, u) {
      forall y ensures g(y, w, v, u) == Row(nx, ColumnOf(f, w, v, u), z, y) {
        assert g(y, w, v, u) == RowColumn(nx, f, z, y)(w, v, u);
      }
      SumExt(ny, (y: int) => g(y, w, v, u), (y: int) => Row(nx, ColumnOf(f, w, v, u), z, y));
    }
    Sum3Ext(mz, my, mx, SumSlices(ny, g), PlaneColumn(ny, nx, f, z));
  }

  /** Summing all entries by rows or by columns gives the same total. */
  lemma Sum3Swap(nz: nat, ny: nat, nx: nat, mz: nat, my: nat, mx: nat, f: Table6)
    ensures Sum3(nz, ny, nx, RowSums(mz, my, mx, f)) == Sum3(mz, my, mx, ColumnSums(nz, ny, nx, f))
  {
    var g := (i: int, w: int, v: int, u: int) => PlaneColumn(ny, nx, f, i)(w, v, u);
    SumSum3Swap(nz, mz, my, mx, g);
    forall z ensures Sum3(mz, my, mx, Slice(g, z)) == Plane(ny, nx, RowSums(mz, my, mx, f), z) {
      PlaneSwap(ny, nx, mz, my, mx, f, z);
      Sum3Ext(mz, my, mx, Slice(g, z), PlaneColumn(ny, nx, f, z));
    }
    SumExt(nz, (z: int) => Sum3(mz, my, mx, Slice(g, z)), (z: int) => Plane(ny, nx, RowSums(mz, my, mx, f), z));
    forall w, v, u ensures SumSlices(nz, g)(w, v, u) == ColumnSums(nz, ny, nx, f)(w, v, u) {
      forall z ensures g(z, w, v, u) == Plane(ny, nx, ColumnOf(f, w, v, u), z) {
        assert g(z, w, v, u) == PlaneColumn(ny, nx, f, z)(w, v, u);
      }
      SumExt(nz, (z: int) => g(z, w, v, u), (z: int) => Plane(ny, nx, ColumnOf(f, w, v, u), z));
    }
    Sum3Ext(mz, my, mx, SumSlices(nz, g), ColumnSums(nz, ny, nx, f));
  }

  // Contraction of one axis of a table with a coefficient matrix.

  function TermX(t: Table3, m: Table2, z: int, y: int, q: int): int -> real {
    (k: int) => t(z, y, k) * m(q, k)
  }

  function TermY(t: Table3, m: Table2, z: int, q: int, x: int): int -> real {
    (k: int) => t(z, k, x) * m(q, k)
  }

  function TermZ(t: Table3, m: Table2, q: int, y: int, x: int): int -> real {
    (k: int) => t(k, y, x) * m(q, k)
  }

  function AlongX(n: nat, t: Table3, m: Table2): Table3 {
    (z, y, q) => Sum(n, TermX(t, m, z, y, q))
  }

  function AlongY(n: nat, t: Table3, m: Table2): Table3 {
    (z, q, x) => Sum(n, TermY(t, m, z, q, x))
  }

  function AlongZ(n: nat, t: Table3, m: Table2): Table3 {
    (q, y, x) => Sum(n, TermZ(t, m, q, y, x))
  }

  /** The summand, and the value, of the direct tensor-product sum. */
  function Weighted(mz: Table2, my: Table2, mx: Table2, qz: int, qy: int, qx: int, t: Table3): Table3 {
    (z, y, x) => mz(qz, z) * my(qy, y) * mx(qx, x) * t(z, y, x)
  }

  function Tensor(nz: nat, ny: nat, nx: nat, mz: Table2, my: Table2, mx: Table2, t: Table3): Table3 {
    (qz, qy, qx) => Sum3(nz, ny, nx, Weighted(mz, my, mx, qz, qy, qx, t))
  }

  lemma FactorTerm(mz: Table2, my: Table2, mx: Table2, t: Table3, qz: int, qy: int, qx: int, z: int, y: int, x: int)
    ensures Weighted(mz, my, mx, qz, qy, qx, t)(z, y, x) == mz(qz, z) * my(qy, y) * TermX(t, mx, z, y, qx)(x)
  {
    Grouped(mz(qz, z) * my(qy, y), mx(qx, x), t(z, y, x));
  }

  lemma FactorRow(nx: nat, mz: Table2, my: Table2, mx: Table2, t: Table3, qz: int, qy: int, qx: int, z: int, y: int)
    ensures mz(qz, z) * TermY(AlongX(nx, t, mx), my, z, qy, qx)(y) == Row(nx, Weighted(mz, my, mx, qz, qy, qx, t), z, y)
  {
    var w, c, term := Weighted(mz, my, mx, qz, qy, qx, t), mz(qz, z) * my(qy, y), TermX(t, mx, z, y, qx);
    forall x ensures w(z, y, x) == c * term(x) { FactorTerm(mz, my, mx, t, qz, qy, qx, z, y, x); }
    SumScaled(nx, c, term, (x: int) => w(z, y, x));
    Grouped(mz(qz, z), my(qy, y), Sum(nx, term));
  }

  lemma FactorPlane(ny: nat, nx: nat, mz: Table2, my: Table2, mx: Table2, t: Table3, qz: int, qy: int, qx: int, z: int)
    ensures TermZ(AlongY(ny, AlongX(nx, t, mx), my), mz, qz, qy, qx)(z) ==
            Plane(ny, nx, Weighted(mz, my, mx, qz, qy, qx, t), z)
  {
    var term := TermY(AlongX(nx, t, mx), my, z, qy, qx);
    PlaneOfRows(ny, nx, mz(qz, z), term, Weighted(mz, my, mx, qz, qy, qx, t), z) by {
      forall y ensures Row(nx, Weighted(mz, my, mx, qz, qy, qx, t), z, y) == mz(qz, z) * term(y) {
        FactorRow(nx, mz, my, mx, t, qz, qy, qx, z, y);
      }
    }
  }

  lemma PlaneOfRows(ny: nat, nx: nat, c: real, term: int -> real, w: Table3, z: int)
    requires forall y :: Row(nx, w, z, y) == c * term(y)
    ensures Plane(ny, nx, w, z) == Sum(ny, term) * c
  {
    SumScaled(ny, c, term, (y: int) => Row(nx, w, z, y));
  }

  /**
   * Sum factorisation: contracting one axis at a time is the full triple sum of
   * the products.
   */
  lemma FactorXYZ(nz: nat, ny: nat, nx: nat, mz: Table2, my: Table2, mx: Table2, t: Table3, qz: int, qy: int, qx: int)
    ensures AlongZ(nz, AlongY(ny, AlongX(nx, t, mx), my), mz)(qz, qy, qx) ==
            Tensor(nz, ny, nx, mz, my, mx, t)(qz, qy, qx)
  {
    var w := Weighted(mz, my, mx, qz, qy, qx, t);
    var term := TermZ(AlongY(ny, AlongX(nx, t, mx), my), mz, qz, qy, qx);
    forall z ensures term(z) == Plane(ny, nx, w, z) {
      FactorPlane(ny, nx, mz, my, mx, t, qz, qy, qx, z);
    }
    SumExt(nz, term, (z: int) => Plane(ny, nx, w, z));
  }

  lemma TensorExt(nz: nat, ny: nat, nx: nat, mz: Table2, my: Table2, mx: Table2, f: Table3, g: Table3, qz: int,
                  qy: int, qx: int)
    requires forall z, y, x | 0 <= z < nz && 0 <= y < ny && 0 <= x < nx :: f(z, y, x) == g(z, y, x)
    ensures Tensor(nz, ny, nx, mz, my, mx, f)(qz, qy, qx) == Tensor(nz, ny, nx, mz, my, mx, g)(qz, qy, qx)
  {
    Sum3Ext(nz, ny, nx, Weighted(mz, my, mx, qz, qy, qx, f), Weighted(mz, my, mx, qz, qy, qx, g));
  }

  // The triple sum of a product of one function at the three coordinates.

  function CubeOf(g: int -> real): Table3 {
    (z, y, x) => g(z) * g(y) * g(x)
  }

  lemma SumMultiple(n: nat, c: real, f: int -> real, g: int -> real, t: real)
    requires Sum(n, f) == t && forall k | 0 <= k < n :: g(k) == c * f(k)
    ensures Sum(n, g) == c * t
  {
    SumScaled(n, c, f, g);
  }

  lemma CubeRow(n: nat, g: int -> real, s: real, z: int, y: int, a: real, v: real)
    requires s == Sum(n, g) && a == g(z) && v == g(y)
    ensures Row(n, CubeOf(g), z, y) == a * s * v
  {
    var f := CubeOf(g);
    SumMultiple(n, a * v, g, (x: int) => f(z, y, x), s);
    Grouped(a, v, s);
    Grouped(a, s, v);
  }

  /** Every row of a plane, or every plane, is c times an entry of g. */
  ghost predicate RowsAre(n: nat, f: Table3, z: int, c: real, g: int -> real) {
    forall y :: Row(n, f, z, y) == c * g(y)
  }

  ghost predicate PlanesAre(n: nat, f: Table3, c: real, g: int -> real) {
    forall z :: Plane(n, n, f, z) == c * g(z)
  }

  lemma PlaneMultiple(n: nat, f: Table3, z: int, c: real, g: int -> real, t: real)
    requires Sum(n, g) == t && RowsAre(n, f, z, c, g)
    ensures Plane(n, n, f, z) == c * t
  {
    SumMultiple(n, c, g, (y: int) => Row(n, f, z, y), t);
  }

  lemma Sum3Multiple(n: nat, f: Table3, c: real, g: int -> real, t: real)
    requires Sum(n, g) == t && PlanesAre(n, f, c, g)
    ensures Sum3(n, n, n, f) == c * t
  {
    SumMultiple(n, c, g, (z: int) => Plane(n, n, f, z), t);
  }

  lemma CubeRows(n: nat, g: int -> real, s: real, z: int, a: real)
    requires s == Sum(n, g) && a == g(z)
    ensures RowsAre(n, CubeOf(g), z, a * s, g)
  {
    forall y ensures Row(n, CubeOf(g), z, y) == a * s * g(y) { CubeRow(n, g, s, z, y, a, g(y)); }
  }

  lemma CubePlane(n: nat, g: int -> real, s: real, z: int, a: real)
    requires s == Sum(n, g) && a == g(z)
    ensures Plane(n, n, CubeOf(g), z) == a * s * s
  {
    CubeRows(n, g, s, z, a);
    PlaneMultiple(n, CubeOf(g), z, a * s, g, s);
  }

  lemma TurnedPlane(n: nat, g: int -> real, s: real, z: int, a: real, c: real)
    requires s == Sum(n, g) && a == g(z) && c == s * s
    ensures Plane(n, n, CubeOf(g), z) == c * a
  {
    CubePlane(n, g, s, z, a);
    Regroup3(a, s, c);
  }

  lemma Regroup3(a: real, s: real, c: real)
    requires c == s * s
    ensures a * s * s == c * a
  {
  }

  lemma CubePlanes(n: nat, g: int -> real, s: real, c: real)
    requires s == Sum(n, g) && c == s * s
    ensures PlanesAre(n, CubeOf(g), c, g)
  {
    forall z ensures Plane(n, n, CubeOf(g), z) == c * g(z) { TurnedPlane(n, g, s, z, g(z), c); }
  }

  lemma CubeTotal(n: nat, g: int -> real, s: real, c: real)
    requires s == Sum(n, g) && c == s * s
    ensures Sum3(n, n, n, CubeOf(g)) == c * s
  {
    CubePlanes(n, g, s, c);
    Sum3Multiple(n, CubeOf(g), c, g, s);
  }

  /** It is the third power of the sum. */
  lemma CubeSum(n: nat, g: int -> real, s: real, cube: real)
    requires s == Sum(n, g) && cube == s * s * s
    ensures Sum3(n, n, n, CubeOf(g)) == cube
  {
    CubeTotal(n, g, s, s * s);
  }
}
