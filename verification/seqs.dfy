/** Sequence helpers: `Array.prototype.filter` as a function, and the facts
    about it that the device selection and the route selection rely on. */
module Seqs {

  /** The elements of `s` that satisfy `p`, in their original order. */
  function Filter<T>(s: seq<T>, p: T -> bool): (r: seq<T>)
    ensures |r| <= |s|
  {
    if s == [] then []
    else Filter(s[..|s| - 1], p) + (if p(s[|s| - 1]) then [s[|s| - 1]] else [])
  }

  /** An element is kept exactly when it is in `s` and satisfies `p`. */
  lemma {:induction false} FilterMembers<T>(s: seq<T>, p: T -> bool)
    ensures forall x :: x in Filter(s, p) <==> x in s && p(x)
  {
    if s != [] {
      FilterMembers(s[..|s| - 1], p);
      assert s == s[..|s| - 1] + [s[|s| - 1]];
    }
  }

  /** Filtering a concatenation filters each part and keeps them in order:
      no element is moved ahead of one that preceded it. */
  lemma {:induction false} FilterConcat<T>(a: seq<T>, b: seq<T>, p: T -> bool)
    ensures Filter(a + b, p) == Filter(a, p) + Filter(b, p)
  {
    if b == [] {
      assert a + b == a;
    } else {
      var last := b[|b| - 1];
      assert (a + b)[..|a + b| - 1] == a + b[..|b| - 1];
      FilterConcat(a, b[..|b| - 1], p);
    }
  }

  /** Strictly increasing; in particular free of duplicates. */
  ghost predicate Increasing(s: seq<nat>)
  {
    forall i, j :: 0 <= i < j < |s| ==> s[i] < s[j]
  }

  /** The positions 0, 1, ..., n - 1 of a list of length n. */
  function Positions(n: nat): (r: seq<nat>)
    ensures |r| == n && Increasing(r)
    ensures forall i :: i in r <==> 0 <= i < n
  {
    var r := seq(n, i requires 0 <= i < n => i);
    assert forall i :: 0 <= i < n ==> r[i] == i;
    assert forall i :: 0 <= i < n ==> i in r by {
      forall i | 0 <= i < n ensures i in r { assert r[i] == i; }
    }
    r
  }

  /** Filtering keeps a strictly increasing sequence strictly increasing. */
  lemma {:induction false} FilterIncreasing(s: seq<nat>, p: nat -> bool)
    requires Increasing(s)
    ensures Increasing(Filter(s, p))
  {
    if s != [] {
      var init := s[..|s| - 1];
      FilterIncreasing(init, p);
      FilterMembers(init, p);
      var f := Filter(init, p);
      forall x | x in f ensures x < s[|s| - 1] {
        var k :| 0 <= k < |init| && init[k] == x;
      }
      var r := Filter(s, p);
      forall i, j | 0 <= i < j < |r| ensures r[i] < r[j] {
        if j < |f| {
          assert r[i] == f[i] && r[j] == f[j];
        } else {
          assert r[i] == f[i] && f[i] in f;
        }
      }
    }
  }
}
