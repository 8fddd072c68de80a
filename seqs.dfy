/** Sequence facts shared by the services: lists without repeats, and the
    stable sort that LINQ's OrderBy / OrderByDescending perform. */
module Seqs {

  predicate Distinct<T(==)>(s: seq<T>) {
    forall i, j :: 0 <= i < j < |s| ==> s[i] != s[j]
  }

  /** Without its last element a list of distinct elements stays
      distinct and no longer holds that element. */
  lemma DistinctInit<T>(s: seq<T>)
    requires s != [] && Distinct(s)
    ensures Distinct(s[..|s| - 1]) && s[|s| - 1] !in s[..|s| - 1]
  {
  }

  /** Largest key first: no entry has a smaller key than one after it. */
  ghost predicate SortedDesc<T>(s: seq<T>, key: T -> real) {
    forall i, j :: 0 <= i < j < |s| ==> key(s[i]) >= key(s[j])
  }

  /** Inserts `x` after every entry whose key is at least its own, so
      entries with equal keys keep their original order. */
  function InsertDesc<T>(x: T, t: seq<T>, key: T -> real): (r: seq<T>)
    requires SortedDesc(t, key)
    ensures multiset(r) == multiset(t) + multiset{x}
    ensures SortedDesc(r, key)
    decreases |t|
  {
    if t == [] then [x]
    else if key(t[|t| - 1]) >= key(x) then
      SortedAppend(t, x, key);
      t + [x]
    else
      var init, last := t[..|t| - 1], t[|t| - 1];
      assert t == init + [last];
      var r0 := InsertDesc(x, init, key);
      LastAtLeast(x, init, last, r0, key);
      SortedAppend(r0, last, key);
      r0 + [last]
  }

  lemma SortedAppend<T>(s: seq<T>, y: T, key: T -> real)
    requires SortedDesc(s, key)
    requires s != [] ==> key(s[|s| - 1]) >= key(y)
    ensures SortedDesc(s + [y], key)
  {
    var r := s + [y];
    forall i, j | 0 <= i < j < |r| ensures key(r[i]) >= key(r[j]) {
      if j == |s| {
        assert key(s[i]) >= key(s[|s| - 1]);
      }
    }
  }

  /** After inserting `x` (whose key beats `last`'s) into the prefix, the
      prefix still ends with a key at least `last`'s. */
  lemma LastAtLeast<T>(x: T, init: seq<T>, last: T, r0: seq<T>, key: T -> real)
    requires key(x) > key(last)
    requires SortedDesc(init + [last], key)
    requires multiset(r0) == multiset(init) + multiset{x}
    ensures r0 != [] ==> key(r0[|r0| - 1]) >= key(last)
  {
    if r0 != [] {
      var y := r0[|r0| - 1];
      assert y in multiset(r0);
      if y != x {
        assert y in multiset(init);
        var i :| 0 <= i < |init| && init[i] == y;
        assert (init + [last])[i] == y && (init + [last])[|init|] == last;
      }
    }
  }

  /** OrderByDescending: a stable insertion sort, largest key first. */
  function SortDesc<T>(s: seq<T>, key: T -> real): (r: seq<T>)
    ensures multiset(r) == multiset(s)
    ensures |r| == |s|
    ensures SortedDesc(r, key)
    decreases |s|
  {
    if s == [] then []
    else
      assert s == s[..|s| - 1] + [s[|s| - 1]];
      var r := InsertDesc(s[|s| - 1], SortDesc(s[..|s| - 1], key), key);
      assert |r| == |multiset(r)|;
      r
  }

  /** A list without repeats holds each value at most once. */
  lemma {:induction false} DistinctMultiplicity<T>(s: seq<T>, x: T)
    requires Distinct(s)
    ensures multiset(s)[x] <= 1
    decreases |s|
  {
    if s != [] {
      var init := s[..|s| - 1];
      assert s == init + [s[|s| - 1]];
      DistinctMultiplicity(init, x);
      if x == s[|s| - 1] {
        assert x !in init;
      }
    }
  }

  /** A value at two positions occurs at least twice. */
  lemma RepeatMultiplicity<T>(s: seq<T>, i: nat, j: nat)
    requires i < j < |s| && s[i] == s[j]
    ensures multiset(s)[s[i]] >= 2
  {
    assert s == s[..j] + [s[j]] + s[j + 1..];
    assert s[i] in s[..j];
  }

  /** A rearrangement of a list without repeats has none either. */
  lemma DistinctPermutation<T>(a: seq<T>, b: seq<T>)
    requires Distinct(a) && multiset(a) == multiset(b)
    ensures Distinct(b)
  {
    forall i, j | 0 <= i < j < |b| ensures b[i] != b[j] {
      if b[i] == b[j] {
        RepeatMultiplicity(b, i, j);
        DistinctMultiplicity(a, b[i]);
      }
    }
  }

  /** A rearrangement holds the same members. */
  lemma PermutationMembers<T>(a: seq<T>, b: seq<T>)
    requires multiset(a) == multiset(b)
    ensures forall x :: x in b <==> x in a
  {
    forall x ensures x in b <==> x in a {
      assert x in b <==> x in multiset(b);
      assert x in a <==> x in multiset(a);
    }
  }

  /** List.Remove: the list without the first occurrence of `x`, in the
      same order; a list without `x` is returned as it is. */
  function RemoveFirst<T(==)>(s: seq<T>, x: T): (r: seq<T>)
    ensures x !in s ==> r == s
    ensures x in s ==> |r| == |s| - 1 && multiset(r) == multiset(s) - multiset{x}
  {
    if s == [] then []
    else
      assert s == [s[0]] + s[1..];
      if s[0] == x then s[1..] else [s[0]] + RemoveFirst(s[1..], x)
  }

  /** Removing a value from a list without repeats leaves a list without
      repeats that no longer holds that value. */
  lemma {:induction false} RemoveFirstDistinct<T>(s: seq<T>, x: T)
    requires Distinct(s)
    ensures Distinct(RemoveFirst(s, x)) && x !in RemoveFirst(s, x)
  {
    var r := RemoveFirst(s, x);
    if x in s {
      DistinctMultiplicity(s, x);
      assert multiset(r)[x] == 0;
      assert x !in multiset(r);
      forall i, j | 0 <= i < j < |r| ensures r[i] != r[j] {
        if r[i] == r[j] {
          RepeatMultiplicity(r, i, j);
          DistinctMultiplicity(s, r[i]);
        }
      }
    }
  }

  /** The indices 0 .. n-1 in order. */
  function Range(n: nat): (r: seq<nat>)
    ensures |r| == n && Distinct(r)
    ensures forall i :: 0 <= i < n ==> r[i] == i
  {
    seq(n, i requires 0 <= i < n => i)
  }
}
