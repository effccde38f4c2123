/** Sequence operations behind `arr.filter(pred)` and `[...new Set(arr)]`,
    with the facts the entitlement pipeline relies on. */
module Sequences {

  /** No value occurs twice in `s`. */
  predicate NoDuplicates<T(==)>(s: seq<T>) {
    forall i, j :: 0 <= i < j < |s| ==> s[i] != s[j]
  }

  /** The position of the first occurrence of `x` in `s`. */
  function FirstIndex<T(==)>(s: seq<T>, x: T): (k: nat)
    requires x in s
    ensures k < |s| && s[k] == x
    ensures forall j :: 0 <= j < k ==> s[j] != x
  {
    if s[0] == x then 0 else 1 + FirstIndex(s[1..], x)
  }

  /** `s.filter(f)`: the elements of `s` that satisfy `f`, in their order. */
  function Filter<T(!new)>(f: T -> bool, s: seq<T>): (r: seq<T>)
    ensures |r| <= |s|
    ensures forall x :: x in r <==> x in s && f(x)
  {
    if s == [] then [] else (if f(s[0]) then [s[0]] else []) + Filter(f, s[1..])
  }

  /** `[...new Set(s)]`: each value of `s` once, added in the order in which
      `s` yields it, so a later repeat does not move it. */
  function Dedup<T(==,!new)>(s: seq<T>): (r: seq<T>)
    ensures |r| <= |s|
    ensures forall x :: x in r <==> x in s
    ensures NoDuplicates(r)
  {
    if s == [] then []
    else
      var d := Dedup(s[..|s| - 1]);
      var x := s[|s| - 1];
      if x in d then d else d + [x]
  }

  /** Appending a value does not move the first occurrence of a value that
      was already there. */
  lemma {:induction false} FirstIndexAppend<T>(s: seq<T>, x: T, y: T)
    requires y in s
    ensures FirstIndex(s + [x], y) == FirstIndex(s, y)
  {
    if s[0] != y {
      assert (s + [x])[1..] == s[1..] + [x];
      FirstIndexAppend(s[1..], x, y);
    }
  }

  /** `Dedup` lists its values by first occurrence in the input. */
  lemma {:induction false} DedupOrder<T(!new)>(s: seq<T>)
    ensures forall i, j :: 0 <= i < j < |Dedup(s)| ==>
      FirstIndex(s, Dedup(s)[i]) < FirstIndex(s, Dedup(s)[j])
  {
    if s != [] {
      var p, x := s[..|s| - 1], s[|s| - 1];
      var d := Dedup(p);
      assert s == p + [x];
      DedupOrder(p);
      forall y | y in d ensures FirstIndex(s, y) == FirstIndex(p, y) {
        FirstIndexAppend(p, x, y);
      }
      if x !in d {
        assert FirstIndex(s, x) == |p|;
        assert Dedup(s) == d + [x];
        forall i, j | 0 <= i < j < |Dedup(s)|
          ensures FirstIndex(s, Dedup(s)[i]) < FirstIndex(s, Dedup(s)[j])
        {
          assert d[i] in d;
          if j < |d| { assert d[j] in d; }
        }
      } else {
        forall i, j | 0 <= i < j < |d|
          ensures FirstIndex(s, d[i]) < FirstIndex(s, d[j])
        {
          assert d[i] in d && d[j] in d;
        }
      }
    }
  }

  /** Filtering keeps the relative order of first occurrences of the values
      it keeps. */
  lemma {:induction false} FilterOrder<T(!new)>(f: T -> bool, s: seq<T>, x: T, y: T)
    requires x in s && y in s && f(x) && f(y)
    ensures FirstIndex(Filter(f, s), x) < FirstIndex(Filter(f, s), y)
        <==> FirstIndex(s, x) < FirstIndex(s, y)
  {
    var r, t := Filter(f, s), Filter(f, s[1..]);
    if s[0] == x || s[0] == y {
      assert r[0] == s[0];
    } else {
      assert x in s[1..] && y in s[1..];
      FilterOrder(f, s[1..], x, y);
      assert FirstIndex(s, x) == 1 + FirstIndex(s[1..], x);
      assert FirstIndex(s, y) == 1 + FirstIndex(s[1..], y);
      if f(s[0]) {
        assert r == [s[0]] + t;
        assert r[1..] == t;
        assert FirstIndex(r, x) == 1 + FirstIndex(t, x);
        assert FirstIndex(r, y) == 1 + FirstIndex(t, y);
      } else {
        assert r == t;
      }
    }
  }
}
