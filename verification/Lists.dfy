/** Python-list operations used by several of the modelled tools, and what they do to multisets. */
module Lists {

  datatype Option<+T> = None | Some(value: T)

  /** `list.remove(x)`: drops the first occurrence; a list without one is unchanged here. */
  function Remove<T(==)>(s: seq<T>, x: T): (r: seq<T>) {
    if s == [] then [] else if s[0] == x then s[1..] else [s[0]] + Remove(s[1..], x)
  }

  lemma {:induction false} RemoveCounts<T>(s: seq<T>, x: T)
    ensures x in s ==> multiset(Remove(s, x)) == multiset(s) - multiset{x} && |Remove(s, x)| == |s| - 1
    ensures x !in s ==> Remove(s, x) == s
  {
    if s != [] {
      assert s == [s[0]] + s[1..];
      RemoveCounts(s[1..], x);
    }
  }

  /** `list(range(n))`. */
  function Range(n: nat): (r: seq<nat>)
    ensures |r| == n
    ensures forall i :: 0 <= i < n ==> r[i] == i
  {
    seq(n, i requires 0 <= i < n => i)
  }

  lemma RangeMembers(n: nat)
    ensures forall i: nat :: i in Range(n) <==> i < n
  {
    forall i: nat | i < n
      ensures i in Range(n)
    {
      assert Range(n)[i] == i;
    }
  }

  ghost predicate Distinct<T>(s: seq<T>) {
    forall i, j :: 0 <= i < j < |s| ==> s[i] != s[j]
  }

  lemma {:induction false} DistinctCounts<T>(s: seq<T>)
    ensures Distinct(s) <==> forall x :: multiset(s)[x] <= 1
  {
    if s == [] {
    } else {
      var h, t := s[0], s[1..];
      assert s == [h] + t;
      DistinctCounts(t);
      if Distinct(s) {
        assert h !in t;
      }
      if forall x :: multiset(s)[x] <= 1 {
        assert forall x :: multiset(t)[x] <= multiset(s)[x];
        assert multiset(s)[h] == 1 + multiset(t)[h];
        assert h !in t;
      }
    }
  }

  lemma RangeCounts(n: nat)
    ensures forall i: nat :: multiset(Range(n))[i] == if i < n then 1 else 0
  {
    DistinctCounts(Range(n));
    forall i: nat
      ensures multiset(Range(n))[i] == if i < n then 1 else 0
    {
      if i < n {
        assert Range(n)[i] in multiset(Range(n));
      } else {
        assert i !in Range(n);
      }
    }
  }

  lemma TakeOneMore<T>(s: seq<T>, k: nat)
    requires k < |s|
    ensures s[k] in s && s[..k + 1] == s[..k] + [s[k]]
  {
  }

  /** `[x for x in s if p(x)]`. */
  function Filter<T(!new)>(s: seq<T>, p: T -> bool): (r: seq<T>)
    ensures forall x :: x in r <==> x in s && p(x)
    ensures forall i :: 0 <= i < |r| ==> p(r[i])
  {
    if s == [] then []
    else if p(s[0]) then [s[0]] + Filter(s[1..], p)
    else Filter(s[1..], p)
  }

  /** Keeping and dropping by one test splits the list: nothing is lost, nothing is doubled. */
  lemma {:induction false} FilterSplits<T(!new)>(s: seq<T>, p: T -> bool, q: T -> bool)
    requires forall x :: x in s ==> p(x) == !q(x)
    ensures multiset(Filter(s, p)) + multiset(Filter(s, q)) == multiset(s)
  {
    if s != [] {
      assert s == [s[0]] + s[1..];
      FilterSplits(s[1..], p, q);
    }
  }

  /** Filtering a list with distinct elements keeps exactly the chosen ones, once each. */
  lemma {:induction false} FilterCounts<T(!new)>(s: seq<T>, p: T -> bool)
    ensures forall x :: multiset(Filter(s, p))[x] == if p(x) then multiset(s)[x] else 0
  {
    if s != [] {
      assert s == [s[0]] + s[1..];
      FilterCounts(s[1..], p);
    }
  }
}
