/** INDEXLIST: the list of the indices i with x[i] < 0, in increasing order. */
module IndexList {

  function Bit(x: seq<real>, i: nat): nat {
    if i < |x| && x[i] < 0.0 then 1 else 0
  }

  /** Selected items among the first n; beyond the end nothing is selected. */
  function Count(x: seq<real>, n: nat): nat {
    if n == 0 then 0 else Count(x, n - 1) + Bit(x, n - 1)
  }

  function Selected(x: seq<real>, n: nat): (list: seq<int>)
    ensures |list| == Count(x, n)
  {
    if n == 0 then []
    else if Bit(x, n - 1) == 1 then Selected(x, n - 1) + [n - 1]
    else Selected(x, n - 1)
  }

  lemma {:induction false} CountMonotone(x: seq<real>, m: nat, n: nat)
    requires m <= n
    ensures Count(x, m) <= Count(x, n) <= Count(x, m) + (n - m)
  {
    if m < n { CountMonotone(x, m, n - 1); }
  }

  /** A selected index stands at the position given by the number selected before it. */
  lemma {:induction false} SelectedAt(x: seq<real>, n: nat, i: nat)
    requires i < n && Bit(x, i) == 1
    ensures Count(x, i) < Count(x, n) && Selected(x, n)[Count(x, i)] == i
  {
    if i < n - 1 { SelectedAt(x, n - 1, i); }
  }

  /** Every entry is a selected index, and it stands at its own count. */
  lemma {:induction false} SelectedEntry(x: seq<real>, n: nat, k: nat)
    requires k < Count(x, n)
    ensures var i := Selected(x, n)[k]; 0 <= i < n && Bit(x, i) == 1 && Count(x, i) == k
  {
    if Bit(x, n - 1) == 1 && k == Count(x, n - 1) {
    } else {
      SelectedEntry(x, n - 1, k);
    }
  }

  /** The list is exactly the selected indices, strictly increasing. */
  lemma SelectedIsTheList(x: seq<real>)
    ensures forall j, k | 0 <= j < k < |Selected(x, |x|)| :: Selected(x, |x|)[j] < Selected(x, |x|)[k]
    ensures forall i | 0 <= i < |x| :: x[i] < 0.0 <==> i in Selected(x, |x|)
  {
    var list := Selected(x, |x|);
    forall j, k | 0 <= j < k < |list| ensures list[j] < list[k] {
      SelectedEntry(x, |x|, j);
      SelectedEntry(x, |x|, k);
      if list[k] <= list[j] { CountMonotone(x, list[k], list[j]); }
    }
    forall i | 0 <= i < |x| ensures x[i] < 0.0 <==> i in list {
      if x[i] < 0.0 {
        SelectedAt(x, |x|, i);
      } else if i in list {
        var k :| 0 <= k < |list| && list[k] == i;
        SelectedEntry(x, |x|, k);
      }
    }
  }

  /** Different selected indices go to different slots. */
  lemma SlotsDistinct(x: seq<real>, i: nat, j: nat)
    requires i < j < |x| && Bit(x, i) == 1
    ensures Count(x, i) < Count(x, j)
  {
    CountMonotone(x, i + 1, j);
  }

  /** Index i, if selected, stands in its slot. */
  ghost predicate Placed(x: seq<real>, list: seq<int>, i: nat) {
    Bit(x, i) == 1 ==> Count(x, i) < |list| && list[Count(x, i)] == i
  }

  lemma SlotInList(x: seq<real>, i: nat)
    requires i < |x|
    ensures Count(x, i) < |x| && (Bit(x, i) == 1 ==> Count(x, i) < Count(x, |x|))
  {
    CountMonotone(x, 0, i);
    CountMonotone(x, i + 1, |x|);
  }

  /** The list after the write of index i. */
  function Place(x: seq<real>, list: seq<int>, i: nat): (after: seq<int>)
    requires i < |x| <= |list|
    ensures |after| == |list|
  {
    SlotInList(x, i);
    if Bit(x, i) == 1 then list[Count(x, i) := i] else list
  }

  /** A write puts its own index in place and disturbs no other, nor what is beyond the list. */
  lemma PlaceKeeps(x: seq<real>, list: seq<int>, i: nat, j: nat)
    requires i < |x| <= |list| && j < |x| && (j == i || Placed(x, list, j))
    ensures Placed(x, Place(x, list, i), j)
  {
    SlotInList(x, i);
    if Bit(x, i) == 1 && Bit(x, j) == 1 && i != j {
      if i < j { SlotsDistinct(x, i, j); } else { SlotsDistinct(x, j, i); }
    }
  }

  lemma PlaceAbove(x: seq<real>, list: seq<int>, i: nat, k: nat)
    requires i < |x| <= |list| && Count(x, |x|) <= k < |list|
    ensures Place(x, list, i)[k] == list[k]
  {
    SlotInList(x, i);
  }

  /** Slots filled as the counts say, in any order, hold the list. */
  lemma FilledList(x: seq<real>, list: seq<int>)
    requires |x| <= |list| && forall i | 0 <= i < |x| :: Placed(x, list, i)
    ensures Count(x, |x|) <= |list| && list[..Count(x, |x|)] == Selected(x, |x|)
  {
    CountMonotone(x, 0, |x|);
    forall k | 0 <= k < Count(x, |x|) ensures list[k] == Selected(x, |x|)[k] {
      SelectedEntry(x, |x|, k);
      assert Placed(x, list, Selected(x, |x|)[k]);
    }
  }

  /** The sequential loop. */
  method Sequential(x: array<real>, list: array<int>) returns (len: nat)
    requires list.Length >= x.Length
    modifies list
    ensures len == Count(x[..], x.Length) <= list.Length
    ensures list[..len] == Selected(x[..], x.Length)
    ensures forall k | len <= k < list.Length :: list[k] == old(list[k])
  {
    var count: nat := 0;
    for i := 0 to x.Length
      invariant count == Count(x[..], i) <= i
      invariant list[..count] == Selected(x[..], i)
      invariant forall k | count <= k < list.Length :: list[k] == old(list[k])
    {
      if x[i] < 0.0 {
        list[count] := i;
        count := count + 1;
      }
    }
    len := count;
  }
}
