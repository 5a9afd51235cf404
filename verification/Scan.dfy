/**
 * Exclusive prefix sums: the sequential loop, and the two-phase loop an OpenMP team
 * runs.  The element type is a parameter: reals for SCAN, whose input and output are
 * different arrays, and integers for INDEXLIST_3LOOP, which scans in place.
 */
module Scan {
  import opened Team
  import opened TwoPhase

  /** A commutative addition on the elements. */
  datatype Sum<!T(!new)> = Sum(zero: T, add: (T, T) -> T) {
    ghost predicate Lawful() {
      && (forall a :: add(a, zero) == a)
      && (forall a, b :: add(a, b) == add(b, a))
      && (forall a, b, c :: add(add(a, b), c) == add(a, add(b, c)))
    }
  }

  /** The sum of x[lo..i]. */
  function Range<T(!new)>(m: Sum<T>, x: seq<T>, lo: nat, i: nat): T
    requires i <= |x|
  {
    if i <= lo then m.zero else m.add(Range(m, x, lo, i - 1), x[i - 1])
  }

  function Prefix<T(!new)>(m: Sum<T>, x: seq<T>, i: nat): T
    requires i <= |x|
  {
    Range(m, x, 0, i)
  }

  lemma {:induction false} JoinRanges<T(!new)>(m: Sum<T>, x: seq<T>, lo: nat, i: nat)
    requires m.Lawful() && lo <= i <= |x|
    ensures m.add(Prefix(m, x, lo), Range(m, x, lo, i)) == Prefix(m, x, i)
    ensures m.add(Range(m, x, lo, i), Prefix(m, x, lo)) == Prefix(m, x, i)
  {
    if lo < i {
      JoinRanges(m, x, lo, i - 1);
      assert m.add(Prefix(m, x, lo), m.add(Range(m, x, lo, i - 1), x[i - 1])) ==
             m.add(m.add(Prefix(m, x, lo), Range(m, x, lo, i - 1)), x[i - 1]);
    }
  }

  /** The sequential loop: y[i] becomes the sum of the x before i; y may be x itself. */
  method Sequential<T(!new)>(m: Sum<T>, x: array<T>, y: array<T>)
    requires y.Length >= x.Length
    modifies y
    ensures forall i | 0 <= i < x.Length :: y[i] == Prefix(m, old(x[..]), i)
    ensures forall i | x.Length <= i < y.Length :: y[i] == old(y[i])
  {
    var scanVar := m.zero;
    ghost var v := x[..];
    for i := 0 to x.Length
      invariant scanVar == Prefix(m, v, i)
      invariant forall j | 0 <= j < i :: y[j] == Prefix(m, v, j)
      invariant forall j | i <= j < x.Length :: x[j] == v[j]
      invariant forall j | x.Length <= j < y.Length :: y[j] == old(y[j])
    {
      var inc := x[i];
      y[i] := scanVar;
      scanVar := m.add(scanVar, inc);
    }
  }

  /** `acc` of a thread is local_scan_var, and after the barrier prev_sum. */
  datatype State<T> = State(y: seq<T>, sums: seq<T>, threads: seq<Thread<T>>)

  ghost predicate Shape<T(!new)>(x: seq<T>, b: seq<nat>, s: State<T>) {
    Chunks(b, |x|) && |s.y| >= |x| && |s.sums| == |s.threads| == |b| - 1
  }

  /** One step of thread t, whose chunk is [b[t], b[t + 1]). */
  ghost function Step<T(!new)>(m: Sum<T>, x: seq<T>, b: seq<nat>, s: State<T>, t: nat): State<T>
    requires Shape(x, b, s) && t < |s.threads|
  {
    var th := s.threads[t];
    match th.phase
    case First(i) =>
      if i < b[t + 1] then
        s.(y := s.y[i := th.acc], threads := s.threads[t := Thread(First(i + 1), m.add(th.acc, x[i]))])
      else
        s.(sums := s.sums[t := th.acc], threads := s.threads[t := th.(phase := AtBarrier)])
    case AtBarrier =>
      s.(threads := s.threads[t := if t == 0 then th.(phase := Finished) else Thread(Gathering(0), m.zero)])
    case Gathering(ip) =>
      s.(threads := s.threads[t := if ip < t then Thread(Gathering(ip + 1), m.add(th.acc, s.sums[ip]))
                                   else th.(phase := Second(b[t]))])
    case Second(i) =>
      if i < b[t + 1] then
        s.(y := s.y[i := m.add(s.y[i], th.acc)], threads := s.threads[t := th.(phase := Second(i + 1))])
      else
        s.(threads := s.threads[t := th.(phase := Finished)])
    case Finished => s
  }

  /**
   * What thread t has established for its own chunk [lo, hi).  When the scan is in
   * place, what it has not scanned yet is still the input.
   */
  ghost predicate ThreadOk<T(!new)>(m: Sum<T>, x: seq<T>, inPlace: bool, lo: nat, hi: nat, b: seq<nat>,
                                    s: State<T>, t: nat)
    requires Shape(x, b, s) && t < |s.threads| && lo <= hi <= |x|
  {
    var th := s.threads[t];
    && (!th.phase.First? ==> s.sums[t] == Range(m, x, lo, hi))
    && match th.phase
      case First(i) =>
        && lo <= i <= hi && th.acc == Range(m, x, lo, i)
        && (forall j | lo <= j < i :: s.y[j] == Range(m, x, lo, j))
        && (inPlace ==> forall j | i <= j < hi :: s.y[j] == x[j])
      case AtBarrier =>
        forall j | lo <= j < hi :: s.y[j] == Range(m, x, lo, j)
      case Gathering(ip) =>
        && ip <= t && th.acc == Prefix(m, x, b[ip])
        && forall j | lo <= j < hi :: s.y[j] == Range(m, x, lo, j)
      case Second(i) =>
        && lo <= i <= hi && th.acc == Prefix(m, x, lo)
        && (forall j | lo <= j < i :: s.y[j] == Prefix(m, x, j))
        && forall j | i <= j < hi :: s.y[j] == Range(m, x, lo, j)
      case Finished =>
        forall j | lo <= j < hi :: s.y[j] == Prefix(m, x, j)
  }

  ghost predicate Inv<T(!new)>(m: Sum<T>, x: seq<T>, inPlace: bool, b: seq<nat>, s: State<T>) {
    && Shape(x, b, s)
    && (forall t | 0 <= t < |s.threads| :: ThreadOk(m, x, inPlace, b[t], b[t + 1], b, s, t))
    && (forall t, u | 0 <= t < |s.threads| && 0 <= u < |s.threads| && s.threads[t].phase.First? ::
          BeforeBarrier(s.threads[u].phase))
  }

  lemma StepOwn<T(!new)>(m: Sum<T>, x: seq<T>, inPlace: bool, b: seq<nat>, s: State<T>, t: nat)
    requires m.Lawful() && Inv(m, x, inPlace, b, s) && t < |s.threads| && CanStep(s.threads, t)
    ensures ThreadOk(m, x, inPlace, b[t], b[t + 1], b, Step(m, x, b, s, t), t)
  {
    var th := s.threads[t];
    assert ThreadOk(m, x, inPlace, b[t], b[t + 1], b, s, t);
    if th.phase.Gathering? && th.phase.ip < t {
      assert ThreadOk(m, x, inPlace, b[th.phase.ip], b[th.phase.ip + 1], b, s, th.phase.ip);
      assert !s.threads[th.phase.ip].phase.First?;
      JoinRanges(m, x, b[th.phase.ip], b[th.phase.ip + 1]);
    }
    if th.phase.Second? && th.phase.i < b[t + 1] {
      JoinRanges(m, x, b[t], th.phase.i);
    }
  }

  lemma StepOther<T(!new)>(m: Sum<T>, x: seq<T>, inPlace: bool, b: seq<nat>, s: State<T>, t: nat, u: nat)
    requires m.Lawful() && Inv(m, x, inPlace, b, s) && t < |s.threads| && CanStep(s.threads, t) && u < |s.threads|
    requires u != t
    ensures ThreadOk(m, x, inPlace, b[u], b[u + 1], b, Step(m, x, b, s, t), u)
  {
    assert ThreadOk(m, x, inPlace, b[u], b[u + 1], b, s, u) && ThreadOk(m, x, inPlace, b[t], b[t + 1], b, s, t);
    assert if t < u then b[t + 1] <= b[u] else b[u + 1] <= b[t];
  }

  /** No thread passes the barrier while another still scans. */
  lemma StepBarrier<T(!new)>(m: Sum<T>, x: seq<T>, inPlace: bool, b: seq<nat>, s: State<T>, t: nat, k: nat, u: nat)
    requires Inv(m, x, inPlace, b, s) && t < |s.threads| && CanStep(s.threads, t) && k < |s.threads| && u < |s.threads|
    requires Step(m, x, b, s, t).threads[k].phase.First?
    ensures BeforeBarrier(Step(m, x, b, s, t).threads[u].phase)
  {
    assert s.threads[k].phase.First? && BeforeBarrier(s.threads[u].phase);
  }

  lemma StepInv<T(!new)>(m: Sum<T>, x: seq<T>, inPlace: bool, b: seq<nat>, s: State<T>, t: nat)
    requires m.Lawful() && Inv(m, x, inPlace, b, s) && t < |s.threads| && CanStep(s.threads, t)
    ensures Inv(m, x, inPlace, b, Step(m, x, b, s, t))
  {
    var after := Step(m, x, b, s, t);
    assert Shape(x, b, after);
    forall u | 0 <= u < |after.threads| ensures ThreadOk(m, x, inPlace, b[u], b[u + 1], b, after, u) {
      if u == t { StepOwn(m, x, inPlace, b, s, t); } else { StepOther(m, x, inPlace, b, s, t, u); }
    }
    forall k, u | 0 <= k < |after.threads| && 0 <= u < |after.threads| && after.threads[k].phase.First?
      ensures BeforeBarrier(after.threads[u].phase)
    {
      StepBarrier(m, x, inPlace, b, s, t, k, u);
    }
  }

  /** All threads finished: y is the exclusive scan, whatever the interleaving was. */
  lemma FinishedScan<T(!new)>(m: Sum<T>, x: seq<T>, inPlace: bool, b: seq<nat>, s: State<T>, i: nat)
    requires m.Lawful() && Inv(m, x, inPlace, b, s) && i < |x|
    requires forall t | 0 <= t < |s.threads| :: s.threads[t].phase == Finished
    ensures s.y[i] == Prefix(m, x, i)
  {
    var t := ChunkOf(b, |x|, i);
    assert ThreadOk(m, x, inPlace, b[t], b[t + 1], b, s, t);
  }

  // ---- the team, run to the end ------------------------------------------------

  lemma StepWork<T(!new)>(m: Sum<T>, x: seq<T>, inPlace: bool, b: seq<nat>, s: State<T>, t: nat)
    requires m.Lawful() && Inv(m, x, inPlace, b, s) && t < |s.threads| && CanStep(s.threads, t)
    ensures Work(b, Step(m, x, b, s, t).threads) < Work(b, s.threads)
  {
    assert ThreadOk(m, x, inPlace, b[t], b[t + 1], b, s, t);
    WorkDrops(b, s.threads, Step(m, x, b, s, t).threads, t);
  }

  /** One step on the shared arrays themselves; `input` is what x held at the start. */
  method StepInPlace<T(!new)>(m: Sum<T>, x: array<T>, ghost input: seq<T>, y: array<T>, sums: array<T>,
                              threads: seq<Thread<T>>, b: seq<nat>, t: nat)
    returns (th: Thread<T>)
    requires x != sums && y != sums && t < |threads| == sums.Length
    requires |input| == x.Length && Shape(input, b, State(y[..], sums[..], threads))
    requires threads[t].phase.Gathering? ==> threads[t].phase.ip <= t
    requires threads[t].phase.First? && threads[t].phase.i < b[t + 1] ==>
               x[threads[t].phase.i] == input[threads[t].phase.i]
    modifies y, sums
    ensures State(y[..], sums[..], threads[t := th]) == Step(m, input, b, State(old(y[..]), old(sums[..]), threads), t)
  {
    th := threads[t];
    match th.phase
    case First(i) =>
      if i < b[t + 1] {
        var inc := x[i];
        y[i] := th.acc;
        th := Thread(First(i + 1), m.add(th.acc, inc));
      } else {
        sums[t] := th.acc;
        th := th.(phase := AtBarrier);
      }
    case AtBarrier =>
      th := if t == 0 then th.(phase := Finished) else Thread(Gathering(0), m.zero);
    case Gathering(ip) =>
      th := if ip < t then Thread(Gathering(ip + 1), m.add(th.acc, sums[ip])) else th.(phase := Second(b[t]));
    case Second(i) =>
      if i < b[t + 1] {
        y[i] := m.add(y[i], th.acc);
        th := th.(phase := Second(i + 1));
      } else {
        th := th.(phase := Finished);
      }
    case Finished =>
  }

  /** Some thread that may step, chosen freely, makes its next step. */
  method AnyThreadSteps<T(!new)>(m: Sum<T>, x: array<T>, ghost input: seq<T>, y: array<T>, sums: array<T>,
                                 threads: seq<Thread<T>>, b: seq<nat>)
    returns (after: seq<Thread<T>>)
    requires m.Lawful() && x != sums && y != sums && |input| == x.Length && (x == y || x[..] == input)
    requires Inv(m, input, x == y, b, State(y[..], sums[..], threads))
    requires exists t | 0 <= t < |threads| :: threads[t].phase != Finished
    modifies y, sums
    ensures x == y || x[..] == input
    ensures Inv(m, input, x == y, b, State(y[..], sums[..], after))
    ensures y[x.Length..] == old(y[x.Length..])
    ensures Work(b, after) < Work(b, threads)
  {
    ghost var u :| 0 <= u < |threads| && threads[u].phase != Finished;
    SomeoneCanStep(threads, u);
    var t: nat :| t < |threads| && CanStep(threads, t);
    ghost var s := State(y[..], sums[..], threads);
    assert ThreadOk(m, input, x == y, b[t], b[t + 1], b, s, t);
    StepInv(m, input, x == y, b, s, t);
    StepWork(m, input, x == y, b, s, t);
    var th := StepInPlace(m, x, input, y, sums, threads, b, t);
    after := threads[t := th];
    assert Step(m, input, b, s, t).y[x.Length..] == s.y[x.Length..];
  }

  /**
   * A team of p threads, scheduled in any way the barrier allows, terminates with the
   * exclusive scan in y.
   */
  method ByTeam<T(0, !new)>(m: Sum<T>, x: array<T>, y: array<T>, p: nat)
    requires m.Lawful() && y.Length >= x.Length && p >= 1
    modifies y
    ensures forall i | 0 <= i < x.Length :: y[i] == Prefix(m, old(x[..]), i)
    ensures y[x.Length..] == old(y[x.Length..])
  {
    var b := Bounds(x.Length, p);
    var sums := new T[p];
    var threads := seq(p, t requires 0 <= t < p => Thread(First(b[t]), m.zero));
    ghost var input := x[..];
    while exists t | 0 <= t < p :: threads[t].phase != Finished
      invariant x == y || x[..] == input
      invariant Inv(m, input, x == y, b, State(y[..], sums[..], threads))
      invariant y[x.Length..] == old(y[x.Length..])
      decreases Work(b, threads)
    {
      threads := AnyThreadSteps(m, x, input, y, sums, threads, b);
    }
    forall i | 0 <= i < x.Length ensures y[i] == Prefix(m, input, i) {
      FinishedScan(m, input, x == y, b, State(y[..], sums[..], threads), i);
    }
  }

  /** SCAN itself, over the reals. */
  const REALS: Sum<real> := Sum(0.0, (a: real, b: real) => a + b)

  /** The counts of INDEXLIST_3LOOP. */
  const COUNTS: Sum<int> := Sum(0, (a: int, b: int) => a + b)

  /** SCAN as a team runs it meets the recurrence the kernel is documented by. */
  method ScanByTeam(x: array<real>, y: array<real>, p: nat)
    requires x != y && y.Length >= x.Length && p >= 1
    modifies y
    ensures x.Length > 0 ==> y[0] == 0.0
    ensures forall i | 1 <= i < x.Length :: y[i] == y[i - 1] + x[i - 1]
    ensures y[x.Length..] == old(y[x.Length..])
  {
    SumsLawful();
    ByTeam(REALS, x, y, p);
    forall i | 1 <= i < x.Length ensures y[i] == y[i - 1] + x[i - 1] { ScanRecurrence(x[..], i - 1); }
  }

  lemma SumsLawful()
    ensures REALS.Lawful() && COUNTS.Lawful()
  {
  }

  /** Prefix sums satisfy the recurrence the kernel is documented by. */
  lemma ScanRecurrence(x: seq<real>, i: nat)
    requires i < |x|
    ensures Prefix(REALS, x, 0) == 0.0
    ensures Prefix(REALS, x, i + 1) == Prefix(REALS, x, i) + x[i]
  {
  }
}
