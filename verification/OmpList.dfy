/**
 * INDEXLIST by an OpenMP team: each thread counts its chunk, the team meets at a
 * barrier, and each thread writes its part of the list.  Every loop iteration is a
 * step of its own and threads interleave freely.
 */
module OmpList {
  import opened IndexList
  import opened Team
  import opened TwoPhase

  /** `acc` of a thread is local_sum_var, and after the barrier local_count_var. */
  datatype State = State(scan: seq<int>, sums: seq<int>, list: seq<int>, count: int, threads: seq<Thread<int>>)

  ghost predicate Shape(x: seq<real>, b: seq<nat>, s: State) {
    Chunks(b, |x|) && |s.scan| == |x| <= |s.list| && |s.sums| == |s.threads| == |b| - 1
  }

  /** One step of thread t, whose chunk is [b[t], b[t + 1]). */
  ghost function Step(x: seq<real>, b: seq<nat>, s: State, t: nat): State
    requires Shape(x, b, s) && t < |s.threads|
    requires s.threads[t].phase.Second? && s.threads[t].phase.i < b[t + 1] && s.scan[s.threads[t].phase.i] != 0 ==>
               0 <= s.threads[t].acc < |s.list|
  {
    var th := s.threads[t];
    match th.phase
    case First(i) =>
      if i < b[t + 1] then
        s.(scan := s.scan[i := Bit(x, i)], threads := s.threads[t := Thread(First(i + 1), th.acc + Bit(x, i))])
      else
        s.(sums := s.sums[t := th.acc], threads := s.threads[t := th.(phase := AtBarrier)])
    case AtBarrier =>
      s.(threads := s.threads[t := Thread(Gathering(0), 0)])
    case Gathering(ip) =>
      s.(threads := s.threads[t := if ip < t then Thread(Gathering(ip + 1), th.acc + s.sums[ip])
                                   else th.(phase := Second(b[t]))])
    case Second(i) =>
      if i < b[t + 1] then
        s.(list := if s.scan[i] != 0 then s.list[th.acc := i] else s.list,
           threads := s.threads[t := Thread(Second(i + 1), th.acc + s.scan[i])])
      else
        s.(count := if t == |s.threads| - 1 then th.acc else s.count, threads := s.threads[t := th.(phase := Finished)])
    case Finished => s
  }

  ghost predicate Listed(x: seq<real>, list: seq<int>, lo: nat, hi: nat) {
    forall j | lo <= j < hi :: Placed(x, list, j)
  }

  /** What thread t has established for its own chunk [lo, hi). */
  ghost predicate ThreadOk(x: seq<real>, lo: nat, hi: nat, b: seq<nat>, s: State, t: nat)
    requires Shape(x, b, s) && t < |s.threads| && lo <= hi <= |x|
  {
    var th := s.threads[t];
    && (!th.phase.First? ==>
          s.sums[t] == Count(x, hi) - Count(x, lo) && forall j | lo <= j < hi :: s.scan[j] == Bit(x, j))
    && match th.phase
      case First(i) =>
        && lo <= i <= hi && th.acc == Count(x, i) - Count(x, lo)
        && forall j | lo <= j < i :: s.scan[j] == Bit(x, j)
      case AtBarrier => true
      case Gathering(ip) => ip <= t && th.acc == Count(x, b[ip])
      case Second(i) => lo <= i <= hi && th.acc == Count(x, i) && Listed(x, s.list, lo, i)
      case Finished => Listed(x, s.list, lo, hi) && (t == |s.threads| - 1 ==> s.count == Count(x, |x|))
  }

  ghost predicate Inv(x: seq<real>, b: seq<nat>, s: State) {
    && Shape(x, b, s)
    && (forall t | 0 <= t < |s.threads| :: ThreadOk(x, b[t], b[t + 1], b, s, t))
    && (forall t, u | 0 <= t < |s.threads| && 0 <= u < |s.threads| && s.threads[t].phase.First? ::
          BeforeBarrier(s.threads[u].phase))
  }

  lemma WriteInRange(x: seq<real>, b: seq<nat>, s: State, t: nat)
    requires Inv(x, b, s) && t < |s.threads|
    ensures var th := s.threads[t];
            th.phase.Second? && th.phase.i < b[t + 1] && s.scan[th.phase.i] != 0 ==>
              Bit(x, th.phase.i) == 1 && th.acc == Count(x, th.phase.i) < Count(x, |x|) <= |s.list|
  {
    assert ThreadOk(x, b[t], b[t + 1], b, s, t);
    var th := s.threads[t];
    if th.phase.Second? && th.phase.i < b[t + 1] {
      CountMonotone(x, th.phase.i + 1, |x|);
      CountMonotone(x, 0, |x|);
    }
  }

  lemma StepOwnWrites(x: seq<real>, b: seq<nat>, s: State, t: nat)
    requires Inv(x, b, s) && t < |s.threads| && s.threads[t].phase.Second?
    ensures (WriteInRange(x, b, s, t); ThreadOk(x, b[t], b[t + 1], b, Step(x, b, s, t), t))
  {
    WriteInRange(x, b, s, t);
    assert ThreadOk(x, b[t], b[t + 1], b, s, t);
    var i := s.threads[t].phase.i;
    if i < b[t + 1] {
      StepPlaces(x, b, s, t);
      ListedAfterWrite(x, s.list, b[t], i, i);
    }
  }

  /** A writing step is the write of its index. */
  lemma StepPlaces(x: seq<real>, b: seq<nat>, s: State, t: nat)
    requires Inv(x, b, s) && t < |s.threads| && s.threads[t].phase.Second? && s.threads[t].phase.i < b[t + 1]
    ensures (WriteInRange(x, b, s, t); Step(x, b, s, t).list == Place(x, s.list, s.threads[t].phase.i))
  {
    WriteInRange(x, b, s, t);
    assert ThreadOk(x, b[t], b[t + 1], b, s, t);
  }

  lemma StepOwn(x: seq<real>, b: seq<nat>, s: State, t: nat)
    requires Inv(x, b, s) && t < |s.threads| && CanStep(s.threads, t)
    ensures (WriteInRange(x, b, s, t); ThreadOk(x, b[t], b[t + 1], b, Step(x, b, s, t), t))
  {
    var th := s.threads[t];
    if th.phase.Second? {
      StepOwnWrites(x, b, s, t);
    } else {
      assert ThreadOk(x, b[t], b[t + 1], b, s, t);
      if th.phase.Gathering? && th.phase.ip < t {
        assert ThreadOk(x, b[th.phase.ip], b[th.phase.ip + 1], b, s, th.phase.ip);
        assert !s.threads[th.phase.ip].phase.First?;
      }
    }
  }

  /** Second one slot leaves the entries of other indices alone. */
  lemma ListedAfterWrite(x: seq<real>, list: seq<int>, lo: nat, hi: nat, i: nat)
    requires i < |x| <= |list| && hi <= |x| && Listed(x, list, lo, hi)
    ensures Listed(x, Place(x, list, i), lo, hi) && (hi == i ==> Listed(x, Place(x, list, i), lo, i + 1))
  {
    forall j | lo <= j < hi || j == i ensures Placed(x, Place(x, list, i), j) { PlaceKeeps(x, list, i, j); }
  }

  lemma StepOther(x: seq<real>, b: seq<nat>, s: State, t: nat, u: nat)
    requires Inv(x, b, s) && t < |s.threads| && CanStep(s.threads, t) && u < |s.threads| && u != t
    ensures (WriteInRange(x, b, s, t); ThreadOk(x, b[u], b[u + 1], b, Step(x, b, s, t), u))
  {
    WriteInRange(x, b, s, t);
    var th := s.threads[t];
    assert ThreadOk(x, b[u], b[u + 1], b, s, u) && ThreadOk(x, b[t], b[t + 1], b, s, t);
    assert if t < u then b[t + 1] <= b[u] else b[u + 1] <= b[t];
    if th.phase.Second? && th.phase.i < b[t + 1] {
      StepPlaces(x, b, s, t);
      match s.threads[u].phase
      case Second(i) => ListedAfterWrite(x, s.list, b[u], i, th.phase.i);
      case Finished => ListedAfterWrite(x, s.list, b[u], b[u + 1], th.phase.i);
      case _ =>
    }
  }

  lemma StepInv(x: seq<real>, b: seq<nat>, s: State, t: nat)
    requires Inv(x, b, s) && t < |s.threads| && CanStep(s.threads, t)
    ensures (WriteInRange(x, b, s, t); Inv(x, b, Step(x, b, s, t)))
  {
    WriteInRange(x, b, s, t);
    StepOwn(x, b, s, t);
    forall u | 0 <= u < |s.threads| && u != t ensures ThreadOk(x, b[u], b[u + 1], b, Step(x, b, s, t), u) {
      StepOther(x, b, s, t, u);
    }
  }

  lemma FinishedList(x: seq<real>, b: seq<nat>, s: State)
    requires Inv(x, b, s) && forall t | 0 <= t < |s.threads| :: s.threads[t].phase == Finished
    ensures s.count == Count(x, |x|) <= |s.list| && s.list[..s.count] == Selected(x, |x|)
  {
    var last := |s.threads| - 1;
    assert ThreadOk(x, b[last], b[last + 1], b, s, last);
    forall i | 0 <= i < |x| ensures Placed(x, s.list, i) {
      var t := ChunkOf(b, |x|, i);
      assert ThreadOk(x, b[t], b[t + 1], b, s, t);
    }
    FilledList(x, s.list);
  }

  /** No step touches the list array beyond the list. */
  lemma StepAbove(x: seq<real>, b: seq<nat>, s: State, t: nat, k: nat)
    requires Inv(x, b, s) && t < |s.threads| && CanStep(s.threads, t) && Count(x, |x|) <= k < |s.list|
    ensures (WriteInRange(x, b, s, t); var after := Step(x, b, s, t).list; |after| == |s.list| && after[k] == s.list[k])
  {
    WriteInRange(x, b, s, t);
    var th := s.threads[t];
    if th.phase.Second? && th.phase.i < b[t + 1] {
      StepPlaces(x, b, s, t);
      PlaceAbove(x, s.list, th.phase.i, k);
    }
  }

  // ---- the team, run to the end ------------------------------------------------

  lemma StepWork(x: seq<real>, b: seq<nat>, s: State, t: nat)
    requires Inv(x, b, s) && t < |s.threads| && CanStep(s.threads, t)
    ensures (WriteInRange(x, b, s, t); Work(b, Step(x, b, s, t).threads) < Work(b, s.threads))
  {
    WriteInRange(x, b, s, t);
    assert ThreadOk(x, b[t], b[t + 1], b, s, t);
    WorkDrops(b, s.threads, Step(x, b, s, t).threads, t);
  }

  /** The shared variables of the parallel region. */
  class Region {
    const x: array<real>
    const list: array<int>
    const scan: array<int>
    const sums: array<int>
    const bounds: seq<nat>
    var threads: seq<Thread<int>>
    var count: int

    ghost function View(): State
      reads this, list, scan, sums
    {
      State(scan[..], sums[..], list[..], count, threads)
    }

    ghost predicate Valid()
      reads this, x, list, scan, sums
    {
      scan != sums && scan != list && sums != list && Inv(x[..], bounds, View())
    }

    constructor (x: array<real>, list: array<int>, p: nat)
      requires p >= 1 && list.Length >= x.Length
      ensures Valid() && this.x == x && this.list == list && fresh(scan) && fresh(sums)
    {
      this.x := x;
      this.list := list;
      var b := Bounds(x.Length, p);
      bounds := b;
      scan := new int[x.Length];
      sums := new int[p];
      threads := seq(p, t requires 0 <= t < p => Thread(First(b[t]), 0));
      count := 0;
    }

    /** Some thread that may step, chosen freely, makes its next step. */
    method AnyThreadSteps()
      requires Valid() && exists t | 0 <= t < |threads| :: threads[t].phase != Finished
      modifies this, list, scan, sums
      ensures Valid() && Work(bounds, threads) < old(Work(bounds, threads))
      ensures forall k | Count(x[..], x.Length) <= k < list.Length :: list[k] == old(list[k])
    {
      ghost var u :| 0 <= u < |threads| && threads[u].phase != Finished;
      SomeoneCanStep(threads, u);
      var t: nat :| t < |threads| && CanStep(threads, t);
      ghost var s, v := View(), x[..];
      WriteInRange(v, bounds, s, t);
      assert ThreadOk(v, bounds[t], bounds[t + 1], bounds, s, t);
      StepInv(v, bounds, s, t);
      StepWork(v, bounds, s, t);
      forall k | Count(v, |v|) <= k < list.Length ensures Step(v, bounds, s, t).list[k] == s.list[k] {
        StepAbove(v, bounds, s, t, k);
      }
      StepInPlace(t);
    }

    method StepInPlace(t: nat)
      requires Valid() && t < |threads|
      modifies this, list, scan, sums
      ensures x[..] == old(x[..])
      ensures (WriteInRange(x[..], bounds, old(View()), t); View() == Step(x[..], bounds, old(View()), t))
    {
      ghost var s := View();
      WriteInRange(x[..], bounds, s, t);
      assert ThreadOk(x[..], bounds[t], bounds[t + 1], bounds, s, t);
      var th := threads[t];
      match th.phase {
        case First(i) =>
          if i < bounds[t + 1] {
            var inc := if x[i] < 0.0 then 1 else 0;
            scan[i] := inc;
            th := Thread(First(i + 1), th.acc + inc);
          } else {
            sums[t] := th.acc;
            th := th.(phase := AtBarrier);
          }
        case AtBarrier =>
          th := Thread(Gathering(0), 0);
        case Gathering(ip) =>
          th := if ip < t then Thread(Gathering(ip + 1), th.acc + sums[ip]) else th.(phase := Second(bounds[t]));
        case Second(i) =>
          if i < bounds[t + 1] {
            var inc := scan[i];
            if inc != 0 {
              list[th.acc] := i;
            }
            th := Thread(Second(i + 1), th.acc + inc);
          } else {
            if t == |threads| - 1 {
              count := th.acc;
            }
            th := th.(phase := Finished);
          }
        case Finished =>
      }
      threads := threads[t := th];
    }
  }

  /** Whatever the team size and the interleaving, the list is the sequential one. */
  method ByTeam(x: array<real>, list: array<int>, p: nat) returns (len: int)
    requires list.Length >= x.Length && p >= 1
    modifies list
    ensures len == Count(x[..], x.Length) <= list.Length
    ensures list[..len] == Selected(x[..], x.Length)
    ensures forall k | len <= k < list.Length :: list[k] == old(list[k])
  {
    var region := new Region(x, list, p);
    while exists t | 0 <= t < |region.threads| :: region.threads[t].phase != Finished
      invariant region.Valid() && region.x == x && region.list == list
      invariant fresh(region) && fresh(region.scan) && fresh(region.sums)
      invariant x[..] == old(x[..])
      invariant forall k | Count(x[..], x.Length) <= k < list.Length :: list[k] == old(list[k])
      decreases Work(region.bounds, region.threads)
    {
      region.AnyThreadSteps();
    }
    FinishedList(x[..], region.bounds, region.View());
    len := region.count;
  }
}
