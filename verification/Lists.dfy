/** Sequences without repetition, and nested loops as lists. */
module Lists {

  ghost predicate Distinct<T(!new)>(s: seq<T>) {
    forall i, j | 0 <= i < j < |s| :: s[i] != s[j]
  }

  lemma JoinDistinct<T(!new)>(s: seq<T>, t: seq<T>)
    requires Distinct(s) && Distinct(t) && forall x | x in s :: x !in t
    ensures Distinct(s + t)
  {
    forall i, j | 0 <= i < j < |s + t| ensures (s + t)[i] != (s + t)[j] {
      if i < |s| <= j { assert s[i] in s && t[j - |s|] in t; }
    }
  }

  /** What the first k turns of a loop over s append when the turn for x appends f(x). */
  function Joined<A, B>(f: A -> seq<B>, s: seq<A>, k: nat): seq<B>
    requires k <= |s|
  {
    if k == 0 then [] else Joined(f, s, k - 1) + f(s[k - 1])
  }

  lemma NextTurn<A, B>(first: seq<B>, f: A -> seq<B>, s: seq<A>, k: nat)
    requires k < |s|
    ensures first + Joined(f, s, k + 1) == (first + Joined(f, s, k)) + f(s[k])
  {
  }

  lemma {:induction false} JoinedMembers<A, B>(f: A -> seq<B>, s: seq<A>, k: nat, y: B)
    requires k <= |s|
    ensures y in Joined(f, s, k) <==> exists i :: 0 <= i < k && y in f(s[i])
  {
    if k > 0 { JoinedMembers(f, s, k - 1, y); }
  }

  lemma {:induction false} JoinedDistinct<A(!new), B(!new)>(f: A -> seq<B>, s: seq<A>, k: nat)
    requires k <= |s| && Distinct(s) && forall x | x in s :: Distinct(f(x))
    requires forall x, y, r | x in s && y in s && r in f(x) && r in f(y) :: x == y
    ensures Distinct(Joined(f, s, k))
  {
    if k > 0 {
      var before, next := Joined(f, s, k - 1), f(s[k - 1]);
      JoinedDistinct(f, s, k - 1);
      forall r | r in before ensures r !in next { JoinedMembers(f, s, k - 1, r); }
      JoinDistinct(before, next);
    }
  }
}
