/**
  Sums and multiset unions over sequences, and what one element's change does to them.

  `Total(s, f)` adds up what every member of s counts for: the invariants of the concurrent programs tie
  semaphores and counters to such sums over the threads.

  `Gather(s, f)` unites what every member of s holds: connections, sockets, ids. Its lemmas say what a
  member that gains, loses or keeps its holding does to the union.
 */
module Sums {

  function Total<T>(s: seq<T>, f: T -> int): int {
    if s == [] then 0 else Total(s[..|s| - 1], f) + f(s[|s| - 1])
  }

  lemma {:induction false} TotalUpdate<T>(s: seq<T>, i: nat, v: T, f: T -> int)
    requires i < |s|
    ensures Total(s[i := v], f) == Total(s, f) - f(s[i]) + f(v)
  {
    var n := |s| - 1;
    if i == n {
      assert s[i := v][..n] == s[..n];
    } else {
      assert s[i := v][..n] == s[..n][i := v];
      TotalUpdate(s[..n], i, v, f);
    }
  }

  lemma TotalAppend<T>(s: seq<T>, v: T, f: T -> int)
    ensures Total(s + [v], f) == Total(s, f) + f(v)
  {
    assert (s + [v])[..|s|] == s;
  }

  lemma {:induction false} TotalTail<T>(s: seq<T>, f: T -> int)
    requires s != []
    ensures Total(s, f) == f(s[0]) + Total(s[1..], f)
  {
    var n := |s| - 1;
    if n > 0 {
      TotalTail(s[..n], f);
      assert s[..n][1..] == s[1..][..n - 1];
    }
  }

  /** A member's share never exceeds the total of non-negative shares. */
  lemma {:induction false} TotalAtLeast<T>(s: seq<T>, i: nat, f: T -> int)
    requires i < |s| && forall v :: v in s ==> f(v) >= 0
    ensures f(s[i]) <= Total(s, f)
  {
    var n := |s| - 1;
    TotalNonNegative(s[..n], f);
    if i < n { TotalAtLeast(s[..n], i, f); }
  }

  lemma {:induction false} TotalNonNegative<T>(s: seq<T>, f: T -> int)
    requires forall v :: v in s ==> f(v) >= 0
    ensures Total(s, f) >= 0
  {
    if s != [] { TotalNonNegative(s[..|s| - 1], f); }
  }

  /** Two members' shares together never exceed the total. */
  lemma {:induction false} TotalAtLeastTwo<T>(s: seq<T>, i: nat, j: nat, f: T -> int)
    requires i < j < |s| && forall v :: v in s ==> f(v) >= 0
    ensures f(s[i]) + f(s[j]) <= Total(s, f)
  {
    var n := |s| - 1;
    if j == n {
      TotalAtLeast(s[..n], i, f);
    } else {
      TotalAtLeastTwo(s[..n], i, j, f);
    }
  }

  lemma {:induction false} TotalMonotone<T>(s: seq<T>, f: T -> int, g: T -> int)
    requires forall v :: v in s ==> f(v) <= g(v)
    ensures Total(s, f) <= Total(s, g)
  {
    if s != [] { TotalMonotone(s[..|s| - 1], f, g); }
  }

  /** Bounds on every share bound the total. */
  lemma {:induction false} TotalWithin<T>(s: seq<T>, f: T -> int, lo: int, hi: int)
    requires forall v :: v in s ==> lo <= f(v) <= hi
    ensures lo * |s| <= Total(s, f) <= hi * |s|
  {
    if s != [] {
      var n := |s| - 1;
      TotalWithin(s[..n], f, lo, hi);
      assert lo * |s| == lo * n + lo && hi * |s| == hi * n + hi;
    }
  }

  /** If the shares add up member by member, so do the totals. */
  lemma {:induction false} TotalSplit<T>(s: seq<T>, f: T -> int, g: T -> int, h: T -> int)
    requires forall v :: v in s ==> f(v) + g(v) == h(v)
    ensures Total(s, f) + Total(s, g) == Total(s, h)
  {
    if s != [] { TotalSplit(s[..|s| - 1], f, g, h); }
  }

  /** If every share is at most 1 and the total is the number of members, every share is 1. */
  lemma {:induction false} TotalFull<T>(s: seq<T>, f: T -> int, i: nat)
    requires i < |s| && Total(s, f) == |s| && forall v :: v in s ==> f(v) <= 1
    ensures f(s[i]) == 1
  {
    var n := |s| - 1;
    TotalAtMostOnes(s[..n], f);
    if i < n { TotalFull(s[..n], f, i); }
  }

  lemma {:induction false} TotalAtMostOnes<T>(s: seq<T>, f: T -> int)
    requires forall v :: v in s ==> f(v) <= 1
    ensures Total(s, f) <= |s|
  {
    if s != [] { TotalAtMostOnes(s[..|s| - 1], f); }
  }

  /** If some non-negative shares add up to something, one of them is positive. */
  lemma {:induction false} TotalWitness<T>(s: seq<T>, f: T -> int) returns (i: nat)
    requires Total(s, f) > 0
    ensures i < |s| && f(s[i]) > 0
  {
    var n := |s| - 1;
    if f(s[n]) > 0 { i := n; } else { i := TotalWitness(s[..n], f); }
  }

  /** The union of what every member holds. */
  function Gather<T, V>(s: seq<T>, f: T -> multiset<V>): multiset<V> {
    if s == [] then multiset{} else Gather(s[..|s| - 1], f) + f(s[|s| - 1])
  }

  lemma {:induction false} GatherUpdate<T, V>(s: seq<T>, i: nat, v: T, f: T -> multiset<V>)
    requires i < |s|
    ensures f(s[i]) <= Gather(s, f)
    ensures Gather(s[i := v], f) == Gather(s, f) - f(s[i]) + f(v)
  {
    var n := |s| - 1;
    if i == n {
      assert s[i := v][..n] == s[..n];
    } else {
      assert s[i := v][..n] == s[..n][i := v];
      GatherUpdate(s[..n], i, v, f);
    }
  }

  lemma GatherSame<T, V>(s: seq<T>, i: nat, v: T, f: T -> multiset<V>)
    requires i < |s| && f(v) == f(s[i])
    ensures Gather(s[i := v], f) == Gather(s, f)
  {
    GatherUpdate(s, i, v, f);
  }

  lemma GatherGain<T, V>(s: seq<T>, i: nat, v: T, f: T -> multiset<V>)
    requires i < |s| && f(s[i]) == multiset{}
    ensures Gather(s[i := v], f) == Gather(s, f) + f(v)
  {
    GatherUpdate(s, i, v, f);
  }

  lemma GatherLose<T, V>(s: seq<T>, i: nat, v: T, f: T -> multiset<V>)
    requires i < |s| && f(v) == multiset{}
    ensures Gather(s, f) == Gather(s[i := v], f) + f(s[i])
  {
    GatherUpdate(s, i, v, f);
  }

  lemma GatherAppend<T, V>(s: seq<T>, v: T, f: T -> multiset<V>)
    ensures Gather(s + [v], f) == Gather(s, f) + f(v)
  {
    assert (s + [v])[..|s|] == s;
  }

  lemma {:induction false} GatherTail<T, V>(s: seq<T>, f: T -> multiset<V>)
    requires s != []
    ensures Gather(s, f) == f(s[0]) + Gather(s[1..], f)
  {
    var n := |s| - 1;
    if n > 0 {
      GatherTail(s[..n], f);
      assert s[..n][1..] == s[1..][..n - 1];
      assert Gather(s[1..], f) == Gather(s[1..][..n - 1], f) + f(s[n]);
    }
  }

  /** Two members' holdings are both part of the union. */
  lemma {:induction false} GatherTwo<T, V>(s: seq<T>, i: nat, j: nat, f: T -> multiset<V>)
    requires i < j < |s|
    ensures f(s[i]) + f(s[j]) <= Gather(s, f)
  {
    var n := |s| - 1;
    if j == n {
      GatherUpdate(s[..n], i, s[i], f);
    } else {
      GatherTwo(s[..n], i, j, f);
    }
  }

  predicate Distinct<T(==)>(s: seq<T>) { forall i, j :: 0 <= i < j < |s| ==> s[i] != s[j] }

  lemma {:induction false} DistinctMultiset<T>(s: seq<T>)
    requires Distinct(s)
    ensures forall x :: multiset(s)[x] <= 1
  {
    if s != [] {
      var n := |s| - 1;
      DistinctMultiset(s[..n]);
      assert s == s[..n] + [s[n]];
      assert s[n] !in s[..n];
    }
  }

  lemma TwicePresent<T>(s: seq<T>, i: nat, j: nat)
    requires i < j < |s| && s[i] == s[j]
    ensures multiset(s)[s[i]] >= 2
  {
    assert s == s[..j] + [s[j]] + s[j + 1..];
    assert s[i] in s[..j];
  }

  lemma ThreeParts<T>(a: seq<T>, b: seq<T>, c: seq<T>)
    ensures a + b + c == a + (b + c)
  {
  }
}
