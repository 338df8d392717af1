/** Subsequences: a keeps some elements of b, in order. */
module Subsequences {

  ghost predicate Subseq<T>(a: seq<T>, b: seq<T>) {
    || a == []
    || (b != [] && (|| (a[|a| - 1] == b[|b| - 1] && Subseq(a[..|a| - 1], b[..|b| - 1]))
                    || Subseq(a, b[..|b| - 1])))
  }

  lemma SubseqSkip<T>(a: seq<T>, b: seq<T>, x: T)
    requires Subseq(a, b)
    ensures Subseq(a, b + [x])
  {
    assert (b + [x])[..|b|] == b;
  }

  lemma SubseqKeep<T>(a: seq<T>, b: seq<T>, x: T)
    requires Subseq(a, b)
    ensures Subseq(a + [x], b + [x])
  {
    assert (a + [x])[..|a|] == a && (b + [x])[..|b|] == b;
  }

  lemma {:induction false} SubseqWhole<T>(a: seq<T>)
    ensures Subseq(a, a)
  {
    if a != [] { SubseqWhole(a[..|a| - 1]); }
  }

  /** A prefix is a subsequence. */
  lemma {:induction false} SubseqPrefix<T>(a: seq<T>, b: seq<T>)
    ensures Subseq(a, a + b)
    decreases |b|
  {
    if b == [] {
      SubseqWhole(a);
      assert a + b == a;
    } else {
      var n := |b| - 1;
      SubseqPrefix(a, b[..n]);
      SubseqSkip(a, a + b[..n], b[n]);
      assert a + b[..n] + [b[n]] == a + b;
    }
  }

  /** Dropping elements of a subsequence leaves a subsequence. */
  lemma {:induction false} SubseqTrans<T>(a: seq<T>, b: seq<T>, c: seq<T>)
    requires Subseq(a, b) && Subseq(b, c)
    ensures Subseq(a, c)
    decreases |b| + |c|
  {
    if a != [] {
      var c' := c[..|c| - 1];
      if Subseq(b, c') {
        SubseqTrans(a, b, c');
      } else {
        var b' := b[..|b| - 1];
        if Subseq(a, b') {
          SubseqTrans(a, b', c');
        } else {
          SubseqTrans(a[..|a| - 1], b', c');
        }
      }
    }
  }

  /** The elements of a subsequence stand at increasing positions of the whole. */
  lemma {:induction false} Positions<T>(a: seq<T>, b: seq<T>) returns (pos: seq<nat>)
    requires Subseq(a, b)
    ensures |pos| == |a|
    ensures forall i :: 0 <= i < |a| ==> pos[i] < |b| && b[pos[i]] == a[i]
    ensures forall i, j :: 0 <= i < j < |a| ==> pos[i] < pos[j]
    decreases |b|
  {
    if a == [] {
      pos := [];
    } else {
      var b' := b[..|b| - 1];
      if Subseq(a, b') {
        pos := Positions(a, b');
      } else {
        pos := Positions(a[..|a| - 1], b');
        pos := pos + [|b| - 1];
      }
    }
  }
}
