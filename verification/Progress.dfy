/** The work a set of threads still has to do, which every step of one of them shrinks. */
module Progress {

  function Total(work: seq<int>): int {
    if work == [] then 0 else work[0] + Total(work[1..])
  }

  lemma {:induction false} TotalPositive(work: seq<int>)
    requires forall t | 0 <= t < |work| :: work[t] >= 0
    ensures Total(work) >= 0
  {
    if work != [] { TotalPositive(work[1..]); }
  }

  /** When one thread steps, the total changes as its own work does. */
  lemma {:induction false} TotalUpdate(work: seq<int>, t: nat, w: int)
    requires t < |work|
    ensures Total(work[t := w]) == Total(work) - work[t] + w
  {
    if t > 0 {
      TotalUpdate(work[1..], t - 1, w);
      assert work[t := w][1..] == work[1..][t - 1 := w];
    } else {
      assert work[t := w][1..] == work[1..];
    }
  }

  lemma TotalDrops(work: seq<int>, after: seq<int>, t: nat)
    requires |work| == |after| && t < |work| && after[t] < work[t]
    requires forall u | 0 <= u < |work| && u != t :: after[u] == work[u]
    ensures Total(after) < Total(work)
  {
    TotalUpdate(work, t, after[t]);
    assert work[t := after[t]] == after;
  }
}
