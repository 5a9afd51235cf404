/** The CUDA kernel of REDUCE_SUM: grid-stride partial sums, a halving tree, atomic adds. */
module ReduceSum {
  import opened Arith
  import opened Sums
  import opened Team

  // ---- grid-stride partial sums ---------------------------------------------------------

  /** x[i] + x[i + step] + ... */
  function Stride(x: seq<real>, i: nat, step: nat): real
    requires step >= 1
    decreases |x| - i
  {
    if i >= |x| then 0.0 else x[i] + Stride(x, i + step, step)
  }

  function Tail(x: seq<real>, i: nat): real
    decreases |x| - i
  {
    if i >= |x| then 0.0 else x[i] + Tail(x, i + 1)
  }

  function Window(x: seq<real>, i: nat, step: nat): int -> real
    requires step >= 1
  {
    (r: int) => if r >= 0 then Stride(x, i + r, step) else 0.0
  }

  /** Moving a window of `step` strides up by one drops exactly x[i]. */
  lemma {:induction false} WindowShift(x: seq<real>, i: nat, step: nat, n: nat)
    requires step >= 1
    ensures Sum(n, Window(x, i + 1, step)) + Stride(x, i, step) == Sum(n, Window(x, i, step)) + Stride(x, i + n, step)
  {
    if n > 0 { WindowShift(x, i, step, n - 1); }
  }

  /** The strides of all residues cover the rest of x once. */
  lemma {:induction false} StridesCover(x: seq<real>, i: nat, step: nat)
    requires step >= 1
    ensures Sum(step, Window(x, i, step)) == Tail(x, i)
    decreases |x| - i
  {
    if i >= |x| {
      forall r: nat | r < step ensures Window(x, i, step)(r) == 0.0 {
        assert Stride(x, i + r, step) == 0.0;
      }
      SumZero(step, Window(x, i, step));
    } else {
      StridesCover(x, i + 1, step);
      WindowShift(x, i, step, step);
    }
  }

  /** What thread t of block b holds before the tree. */
  function Partial(x: seq<real>, init: real, grid: nat, size: nat, b: nat): int -> real
    requires grid >= 1 && size >= 1
  {
    StepPositive(grid, size);
    (t: int) => init + (if t >= 0 then Stride(x, b * size + t, grid * size) else 0.0)
  }

  lemma StepPositive(grid: nat, size: nat)
    requires grid >= 1 && size >= 1
    ensures grid * size >= 1
  {
    MulMonotone(1, grid, size);
  }

  lemma PartialTotal(x: seq<real>, init: real, grid: nat, size: nat, b: nat)
    requires grid >= 1 && size >= 1
    ensures (StepPositive(grid, size);
             Sum(size, Partial(x, init, grid, size, b)) ==
                 size as real * init + BlockSum(size, Window(x, 0, grid * size))(b))
  {
    StepPositive(grid, size);
    var f := (t: int) => Window(x, 0, grid * size)(b * size + t);
    SumConstant(size, init);
    SumAdd(size, Constant(init), f);
    MulMonotone(0, b, size);
    forall t | 0 <= t < size ensures Partial(x, init, grid, size, b)(t) == Constant(init)(t) + f(t) {
      assert Window(x, 0, grid * size)(b * size + t) == Stride(x, 0 + (b * size + t), grid * size);
    }
    SumExt(size, Partial(x, init, grid, size, b), (t: int) => Constant(init)(t) + f(t));
  }

  function BlockTotal(x: seq<real>, init: real, grid: nat, size: nat): int -> real
    requires grid >= 1 && size >= 1
  {
    (b: int) => if b >= 0 then Sum(size, Partial(x, init, grid, size, b)) else 0.0
  }

  lemma AddConstant(n: nat, c: real, f: int -> real, g: int -> real)
    requires forall k | 0 <= k < n :: g(k) == c + f(k)
    ensures Sum(n, g) == n as real * c + Sum(n, f)
  {
    SumConstant(n, c);
    SumAdd(n, Constant(c), f);
    SumExt(n, g, (k: int) => Constant(c)(k) + f(k));
  }

  lemma GridSum(x: seq<real>, init: real, grid: nat, size: nat, c: real)
    requires grid >= 1 && size >= 1 && c == size as real * init
    ensures Sum(grid, BlockTotal(x, init, grid, size)) == Tail(x, 0) + grid as real * c
  {
    StepPositive(grid, size);
    var w := Window(x, 0, grid * size);
    forall b | 0 <= b < grid ensures BlockTotal(x, init, grid, size)(b) == c + BlockSum(size, w)(b) {
      PartialTotal(x, init, grid, size, b);
    }
    AddConstant(grid, c, BlockSum(size, w), BlockTotal(x, init, grid, size));
    SumByBlocks(grid, size, w);
    StridesCover(x, 0, grid * size);
  }

  /** All blocks together hold the sum of x, and init once for every thread of the grid. */
  lemma GridTotal(x: seq<real>, init: real, grid: nat, size: nat)
    requires grid >= 1 && size >= 1
    ensures Sum(grid, BlockTotal(x, init, grid, size)) == Tail(x, 0) + (grid * size) as real * init
  {
    GridSum(x, init, grid, size, size as real * init);
    Reassociate(grid, size, init);
  }

  lemma Reassociate(a: nat, b: nat, c: real)
    ensures a as real * (b as real * c) == (a * b) as real * c
  {
    assert (a * b) as real == a as real * b as real;
  }

  // ---- the halving tree -------------------------------------------------------------------

  /** One level: the lower i entries take in the i entries above them. */
  function Level(p: seq<real>, i: nat): (r: seq<real>)
    requires 2 * i <= |p|
    ensures |r| == |p|
  {
    seq(|p|, t requires 0 <= t < |p| => if t < i then p[t] + p[t + i] else p[t])
  }

  function Tree(p: seq<real>, i: nat): (r: seq<real>)
    requires 2 * i <= |p|
    ensures |r| == |p|
    decreases i
  {
    if i == 0 then p else Tree(Level(p, i), i / 2)
  }

  function Entry(p: seq<real>): int -> real {
    (t: int) => if 0 <= t < |p| then p[t] else 0.0
  }

  lemma LevelTotal(p: seq<real>, i: nat)
    requires 2 * i <= |p|
    ensures Sum(i, Entry(Level(p, i))) == Sum(2 * i, Entry(p))
  {
    SumAppend(i, i, Entry(p));
    var high := (k: int) => Entry(p)(i + k);
    SumAdd(i, Entry(p), high);
    SumExt(i, Entry(Level(p, i)), (k: int) => Entry(p)(k) + high(k));
  }

  predicate PowerOfTwo(n: nat)
    decreases n
  {
    n == 1 || (n > 1 && n % 2 == 0 && PowerOfTwo(n / 2))
  }

  /** With a power of two of entries left, entry 0 ends with their total. */
  lemma {:induction false} TreeTotal(p: seq<real>, n: nat)
    requires n <= |p| && PowerOfTwo(n)
    ensures Tree(p, n / 2)[0] == Sum(n, Entry(p))
    decreases n
  {
    if n == 1 {
      assert Sum(1, Entry(p)) == Sum(0, Entry(p)) + Entry(p)(0);
    } else {
      LevelTotal(p, n / 2);
      TreeTotal(Level(p, n / 2), n / 2);
    }
  }

  function Ones(n: nat): seq<real> {
    seq(n, _ => 1.0)
  }

  /** Entries equal to c below n: entry 0 ends with c times the largest power of two in n. */
  function Reached(n: nat): nat
    requires n >= 1
    decreases n
  {
    if n == 1 then 1 else 2 * Reached(n / 2)
  }

  lemma {:induction false} ReachedExact(n: nat)
    requires n >= 1
    ensures Reached(n) <= n && (Reached(n) == n <==> PowerOfTwo(n))
    decreases n
  {
    if n > 1 { ReachedExact(n / 2); }
  }

  lemma Doubled(r: nat, c: real)
    ensures r as real * (c + c) == (2 * r) as real * c
  {
    assert (2 * r) as real == 2.0 * r as real;
  }

  function DoubledUp(n: nat, c: real): real
    requires n >= 1
    decreases n
  {
    if n == 1 then c else DoubledUp(n / 2, c + c)
  }

  lemma {:induction false} DoubledUpIs(n: nat, c: real)
    requires n >= 1
    ensures DoubledUp(n, c) == Reached(n) as real * c
    decreases n
  {
    if n > 1 {
      DoubledUpIs(n / 2, c + c);
      Doubled(Reached(n / 2), c);
    }
  }

  lemma {:induction false} TreeDoubles(p: seq<real>, n: nat, c: real)
    requires 1 <= n <= |p| && forall t | 0 <= t < n :: p[t] == c
    ensures Tree(p, n / 2)[0] == DoubledUp(n, c)
    decreases n
  {
    if n > 1 { TreeDoubles(Level(p, n / 2), n / 2, c + c); }
  }

  lemma TreeOfEqual(p: seq<real>, n: nat, c: real)
    requires 1 <= n <= |p| && forall t | 0 <= t < n :: p[t] == c
    ensures Tree(p, n / 2)[0] == Reached(n) as real * c
  {
    TreeDoubles(p, n, c);
    DoubledUpIs(n, c);
  }

  /** On equal inputs a tree over another size comes out too small. */
  lemma OnesMissed(n: nat)
    requires n >= 1 && !PowerOfTwo(n)
    ensures !TreeAddsUp(Ones(n))
  {
    TreeOfEqual(Ones(n), n, 1.0);
    ReachedExact(n);
    OnesTotal(n);
  }

  lemma OnesTotal(n: nat)
    ensures Sum(n, Entry(Ones(n))) == n as real
  {
    SumConstant(n, 1.0);
    SumExt(n, Entry(Ones(n)), Constant(1.0));
  }

  /** The tree adds up every input exactly when the block size is a power of two. */
  lemma TreeTotalIff(n: nat)
    requires n >= 1
    ensures PowerOfTwo(n) <==> forall p: seq<real> | |p| == n :: TreeAddsUp(p)
  {
    if PowerOfTwo(n) {
      forall p: seq<real> | |p| == n ensures TreeAddsUp(p) { TreeTotal(p, n); }
    } else {
      OnesMissed(n);
    }
  }

  predicate TreeAddsUp(p: seq<real>)
    requires |p| >= 1
  {
    Tree(p, |p| / 2)[0] == Sum(|p|, Entry(p))
  }

  // ---- the kernel ---------------------------------------------------------------------------

  /** Below i: stored entries are new, the others old, and what threads hold is to be stored. */
  ghost predicate MidLevel(psum: array<real>, p: seq<real>, i: nat, held: seq<real>, toLoad: set<int>,
                           toStore: set<int>)
    reads psum
  {
    && 2 * i <= |p| == psum.Length && |held| == i && toLoad <= toStore && (forall t | t in toStore :: 0 <= t < i)
    && (forall u | 0 <= u < i && u !in toStore :: psum[u] == Level(p, i)[u])
    && (forall u | 0 <= u < i && u in toStore :: psum[u] == p[u])
    && (forall u | i <= u < psum.Length :: psum[u] == p[u])
    && (forall u | u in toStore && u !in toLoad :: held[u] == Level(p, i)[u])
  }

  /** Threads load both operands and store their sum in any interleaving; a barrier ends the level. */
  method RunLevel(psum: array<real>, i: nat)
    requires 2 * i <= psum.Length
    modifies psum
    ensures psum[..] == Level(old(psum[..]), i)
  {
    ghost var p := psum[..];
    var held := seq(i, _ => 0.0);
    var toLoad, toStore := Iterations(i), Iterations(i);
    while toStore != {}
      invariant MidLevel(psum, p, i, held, toLoad, toStore)
      decreases toStore, toLoad
    {
      var t :| t in toStore;
      if t in toLoad {
        var sum := psum[t] + psum[t + i];
        held, toLoad := held[t := sum], toLoad - {t};
      } else {
        psum[t] := held[t];
        toStore := toStore - {t};
      }
    }
    assert forall u | 0 <= u < psum.Length :: psum[u] == Level(p, i)[u];
  }

  /** The part of thread t's loop over the grid. */
  method Accumulate(x: seq<real>, init: real, start: nat, step: nat) returns (acc: real)
    requires step >= 1
    ensures acc == init + Stride(x, start, step)
  {
    acc := init;
    var i := start;
    while i < |x|
      invariant acc + Stride(x, i, step) == init + Stride(x, start, step)
      decreases |x| - i
    {
      assert Stride(x, i, step) == x[i] + Stride(x, i + step, step);
      acc := acc + x[i];
      i := i + step;
    }
    assert Stride(x, i, step) == 0.0;
  }

  /** One block up to its atomic add: what it will add to the sum. */
  method RunBlock(x: seq<real>, init: real, grid: nat, size: nat, b: nat) returns (r: real)
    requires grid >= 1 && size >= 1
    ensures r == Tree(Partials(x, init, grid, size, b), size / 2)[0]
  {
    var psum := new real[size];
    FillPartials(x, init, grid, b, psum);
    ghost var p := Partials(x, init, grid, size, b);
    var i: nat := size / 2;
    while i > 0
      invariant 2 * i <= size && Tree(psum[..], i) == Tree(p, size / 2)
      decreases i
    {
      RunLevel(psum, i);
      i := i / 2;
    }
    r := psum[0];
  }

  /** The first loop of every thread of the block, threads in any order. */
  method FillPartials(x: seq<real>, init: real, grid: nat, b: nat, psum: array<real>)
    requires grid >= 1 && psum.Length >= 1
    modifies psum
    ensures psum[..] == Partials(x, init, grid, psum.Length, b)
  {
    var size := psum.Length;
    StepPositive(grid, size);
    MulMonotone(0, b, size);
    var threads := Iterations(size);
    ghost var all := threads;
    while threads != {}
      invariant threads <= all
      invariant forall u | 0 <= u < size && u !in threads :: psum[u] == Partial(x, init, grid, size, b)(u)
      decreases threads
    {
      var t: int :| t in threads;
      assert t in all;
      psum[t] := Accumulate(x, init, b * size + t, grid * size);
      threads := threads - {t};
    }
  }

  function Partials(x: seq<real>, init: real, grid: nat, size: nat, b: nat): (p: seq<real>)
    requires grid >= 1 && size >= 1
    ensures |p| == size
  {
    seq(size, (t: int) requires 0 <= t < size => Partial(x, init, grid, size, b)(t))
  }

  /** With a power-of-two block size a block adds the total of its threads' partial sums. */
  lemma BlockResult(x: seq<real>, init: real, grid: nat, size: nat, b: nat)
    requires grid >= 1 && PowerOfTwo(size)
    ensures size >= 1
    ensures Tree(Partials(x, init, grid, size, b), size / 2)[0] == BlockTotal(x, init, grid, size)(b)
  {
    var p := Partials(x, init, grid, size, b);
    TreeTotal(p, size);
    SumExt(size, Entry(p), Partial(x, init, grid, size, b));
  }

  /** What block b adds, for any block size. */
  function BlockAdds(x: seq<real>, init: real, grid: nat, size: nat): int -> real
    requires grid >= 1 && size >= 1
  {
    (b: int) => if b >= 0 then Tree(Partials(x, init, grid, size, b), size / 2)[0] else 0.0
  }

  /** Blocks reach their atomic add in any order. */
  method Kernel(x: seq<real>, init: real, grid: nat, size: nat, sum0: real) returns (sum: real)
    requires grid >= 1 && size >= 1
    ensures sum == sum0 + Sum(grid, BlockAdds(x, init, grid, size))
    ensures PowerOfTwo(size) ==> sum == sum0 + Tail(x, 0) + (grid * size) as real * init
  {
    sum := sum0;
    var blocks := Iterations(grid);
    ghost var f := BlockAdds(x, init, grid, size);
    OverAll(grid, f, blocks);
    while blocks != {}
      invariant blocks <= Iterations(grid) && sum + Over(grid, f, blocks) == sum0 + Sum(grid, f)
      decreases blocks
    {
      var b: int :| b in blocks;
      var r := RunBlock(x, init, grid, size, b);
      OverRemove(grid, f, blocks, b);
      sum := sum + r;
      blocks := blocks - {b};
    }
    OverNone(grid, f);
    if PowerOfTwo(size) { KernelTotal(x, init, grid, size); }
  }

  lemma KernelTotal(x: seq<real>, init: real, grid: nat, size: nat)
    requires grid >= 1 && PowerOfTwo(size)
    ensures size >= 1 && Sum(grid, BlockAdds(x, init, grid, size)) == Tail(x, 0) + (grid * size) as real * init
  {
    forall b | 0 <= b < grid ensures BlockAdds(x, init, grid, size)(b) == BlockTotal(x, init, grid, size)(b) {
      BlockResult(x, init, grid, size, b);
    }
    SumExt(grid, BlockAdds(x, init, grid, size), BlockTotal(x, init, grid, size));
    GridTotal(x, init, grid, size);
  }

  lemma EmptyBlock(init: real, grid: nat, size: nat, b: nat)
    requires grid >= 1 && size >= 1
    ensures Tree(Partials([], init, grid, size, b), size / 2)[0] == Reached(size) as real * init
  {
    StepPositive(grid, size);
    MulMonotone(0, b, size);
    var p := Partials([], init, grid, size, b);
    forall t | 0 <= t < size ensures p[t] == init {
      assert Stride([], b * size + t, grid * size) == 0.0;
      assert p[t] == Partial([], init, grid, size, b)(t);
    }
    TreeOfEqual(p, size, init);
  }

  /** Nothing but sum_init is added where there is nothing to sum. */
  lemma EmptyAdds(init: real, grid: nat, size: nat, c: real)
    requires grid >= 1 && size >= 1 && c == Reached(size) as real * init
    ensures Sum(grid, BlockAdds([], init, grid, size)) == grid as real * c
  {
    forall b | 0 <= b < grid ensures BlockAdds([], init, grid, size)(b) == c { EmptyBlock(init, grid, size, b); }
    SumConstant(grid, c);
    SumExt(grid, BlockAdds([], init, grid, size), Constant(c));
  }

  /** The kernel adds what it should for every x and sum_init exactly when the block size is a power of two. */
  lemma KernelTotalIff(grid: nat, size: nat)
    requires grid >= 1 && size >= 1
    ensures PowerOfTwo(size) <==>
              forall x, init :: Sum(grid, BlockAdds(x, init, grid, size)) == Tail(x, 0) + (grid * size) as real * init
  {
    if PowerOfTwo(size) {
      forall x, init ensures Sum(grid, BlockAdds(x, init, grid, size)) == Tail(x, 0) + (grid * size) as real * init {
        KernelTotal(x, init, grid, size);
      }
    } else {
      ReachedExact(size);
      EmptyAdds(1.0, grid, size, Reached(size) as real);
      MulMonotone(Reached(size) + 1, size, grid);
      assert grid as real * Reached(size) as real == (grid * Reached(size)) as real;
      assert Sum(grid, BlockAdds([], 1.0, grid, size)) != Tail([], 0) + (grid * size) as real * 1.0;
    }
  }

  /** The sequential loop, which starts from init once. */
  /** The tail from 0 on is the plain sum of x. */
  lemma TailIsSum(x: seq<real>)
    ensures Tail(x, 0) == Sum(|x|, Entry(x))
  {
    TailAfter(x, 0);
  }

  lemma {:induction false} TailAfter(x: seq<real>, i: nat)
    requires i <= |x|
    ensures Sum(i, Entry(x)) + Tail(x, i) == Sum(|x|, Entry(x))
    decreases |x| - i
  {
    if i < |x| {
      TailAfter(x, i + 1);
      assert Sum(i + 1, Entry(x)) == Sum(i, Entry(x)) + x[i];
    }
  }

  method Sequential(x: seq<real>, init: real) returns (sum: real)
    ensures sum == init + Tail(x, 0)
  {
    sum := init;
    for i := 0 to |x|
      invariant sum + Tail(x, i) == init + Tail(x, 0)
    {
      sum := sum + x[i];
    }
  }

  /**
   * Both as the host runs them: started at init, the kernel returns what the sequential
   * loop returns exactly when init is zero.
   */
  method Compare(x: seq<real>, init: real, grid: nat, size: nat) returns (k: real, s: real)
    requires grid >= 1 && PowerOfTwo(size)
    ensures k == s <==> init == 0.0
    ensures init == 0.0 ==> k == s == Tail(x, 0)
  {
    k := Kernel(x, init, grid, size, init);
    s := Sequential(x, init);
    PlainSumIff(x, init, grid, size);
  }

  lemma PlainSumIff(x: seq<real>, init: real, grid: nat, size: nat)
    requires grid >= 1 && size >= 1
    ensures init + Tail(x, 0) + (grid * size) as real * init == init + Tail(x, 0) <==> init == 0.0
  {
    StepPositive(grid, size);
    var c := (grid * size) as real;
    assert c >= 1.0;
    if init > 0.0 { assert c * init >= init; }
    if init < 0.0 { assert c * init <= init; }
  }
}
