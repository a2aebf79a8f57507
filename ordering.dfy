/**
 * A stable sort by a numeric key, largest key first.
 *
 * JavaScript's `Array.prototype.sort` is stable, so sorting with the comparator
 * `(a, b) => key(b) - key(a)` yields the one permutation that is ordered by non-increasing
 * key and keeps elements with equal keys in their original order.  Insertion sort below
 * computes that permutation; an ascending sort is the same sort on the negated key.
 */
module Ordering {

  predicate NonIncreasing<T>(s: seq<T>, key: T -> real) {
    forall i, j :: 0 <= i < j < |s| ==> key(s[i]) >= key(s[j])
  }

  /** The elements of `s` whose key is `v`, in their order in `s`. */
  function WithKey<T>(s: seq<T>, key: T -> real, v: real): seq<T> {
    if s == [] then []
    else (if key(s[0]) == v then [s[0]] else []) + WithKey(s[1..], key, v)
  }

  /** Inserts `x` after every element whose key is at least its own. */
  function Insert<T>(x: T, s: seq<T>, key: T -> real): seq<T> {
    if s == [] then [x]
    else if key(s[0]) >= key(x) then [s[0]] + Insert(x, s[1..], key)
    else [x] + s
  }

  /** Sorts by non-increasing key, keeping equal keys in input order. */
  function SortDesc<T>(s: seq<T>, key: T -> real): seq<T> {
    if s == [] then []
    else Insert(s[|s| - 1], SortDesc(s[..|s| - 1], key), key)
  }

  predicate AllAtMost<T>(s: seq<T>, key: T -> real, b: real) {
    forall i :: 0 <= i < |s| ==> key(s[i]) <= b
  }

  lemma {:induction false} InsertAtMost<T>(x: T, s: seq<T>, key: T -> real, b: real)
    requires AllAtMost(s, key, b) && key(x) <= b
    ensures AllAtMost(Insert(x, s, key), key, b)
  {
    if s != [] && key(s[0]) >= key(x) {
      InsertAtMost(x, s[1..], key, b);
    }
  }

  lemma {:induction false} InsertSorted<T>(x: T, s: seq<T>, key: T -> real)
    requires NonIncreasing(s, key)
    ensures NonIncreasing(Insert(x, s, key), key)
  {
    if s != [] && key(s[0]) >= key(x) {
      var tail := Insert(x, s[1..], key);
      InsertSorted(x, s[1..], key);
      InsertAtMost(x, s[1..], key, key(s[0]));
      assert Insert(x, s, key) == [s[0]] + tail;
    }
  }

  lemma {:induction false} InsertPermutes<T>(x: T, s: seq<T>, key: T -> real)
    ensures multiset(Insert(x, s, key)) == multiset(s) + multiset{x}
  {
    if s != [] {
      assert s == [s[0]] + s[1..];
      if key(s[0]) >= key(x) {
        InsertPermutes(x, s[1..], key);
      }
    }
  }

  lemma {:induction false} InsertStable<T>(x: T, s: seq<T>, key: T -> real, v: real)
    requires NonIncreasing(s, key)
    ensures WithKey(Insert(x, s, key), key, v) == WithKey(s, key, v) + (if key(x) == v then [x] else [])
  {
    var r := Insert(x, s, key);
    var extra := if key(x) == v then [x] else [];
    if s == [] {
      assert r[1..] == [];
    } else if key(s[0]) >= key(x) {
      var head := if key(s[0]) == v then [s[0]] else [];
      InsertStable(x, s[1..], key, v);
      assert r[0] == s[0] && r[1..] == Insert(x, s[1..], key);
      assert WithKey(r, key, v) == head + (WithKey(s[1..], key, v) + extra);
      assert WithKey(s, key, v) == head + WithKey(s[1..], key, v);
    } else {
      assert r[0] == x && r[1..] == s;
      assert WithKey(r, key, v) == extra + WithKey(s, key, v);
      if key(x) == v {
        NoneAbove(s, key, v);
      }
    }
  }

  /** In a list ordered by non-increasing key whose first key is below `v`, no element has key `v`. */
  lemma {:induction false} NoneAbove<T>(s: seq<T>, key: T -> real, v: real)
    requires NonIncreasing(s, key)
    requires s != [] ==> key(s[0]) < v
    ensures WithKey(s, key, v) == []
  {
    if s != [] {
      assert s[1..] != [] ==> key(s[1..][0]) <= key(s[0]);
      NoneAbove(s[1..], key, v);
    }
  }

  lemma {:induction false} WithKeyAppend<T>(s: seq<T>, x: T, key: T -> real, v: real)
    ensures WithKey(s + [x], key, v) == WithKey(s, key, v) + (if key(x) == v then [x] else [])
  {
    if s == [] {
      assert (s + [x])[1..] == [];
    } else {
      var t := s + [x];
      assert t[0] == s[0] && t[1..] == s[1..] + [x];
      WithKeyAppend(s[1..], x, key, v);
      var head := if key(s[0]) == v then [s[0]] else [];
      assert WithKey(t, key, v) == head + WithKey(s[1..] + [x], key, v);
    }
  }

  /**
   * The sorted list is a permutation of the input, ordered by non-increasing key, and the
   * elements of any one key keep their relative order (the sort is stable).
   */
  lemma {:induction false} SortDescFacts<T>(s: seq<T>, key: T -> real)
    ensures NonIncreasing(SortDesc(s, key), key)
    ensures multiset(SortDesc(s, key)) == multiset(s)
    ensures |SortDesc(s, key)| == |s|
    ensures forall v :: WithKey(SortDesc(s, key), key, v) == WithKey(s, key, v)
  {
    SortDescSorted(s, key);
    SortDescPermutes(s, key);
    assert |multiset(SortDesc(s, key))| == |multiset(s)|;
    forall v ensures WithKey(SortDesc(s, key), key, v) == WithKey(s, key, v) {
      SortDescStable(s, key, v);
    }
  }

  lemma {:induction false} SortDescSorted<T>(s: seq<T>, key: T -> real)
    ensures NonIncreasing(SortDesc(s, key), key)
  {
    if s != [] {
      SortDescSorted(s[..|s| - 1], key);
      InsertSorted(s[|s| - 1], SortDesc(s[..|s| - 1], key), key);
    }
  }

  lemma {:induction false} SortDescPermutes<T>(s: seq<T>, key: T -> real)
    ensures multiset(SortDesc(s, key)) == multiset(s)
  {
    if s != [] {
      var init, last := s[..|s| - 1], s[|s| - 1];
      SortDescPermutes(init, key);
      InsertPermutes(last, SortDesc(init, key), key);
      assert s == init + [last];
    }
  }

  lemma {:induction false} SortDescStable<T>(s: seq<T>, key: T -> real, v: real)
    ensures WithKey(SortDesc(s, key), key, v) == WithKey(s, key, v)
  {
    if s != [] {
      var init, last := s[..|s| - 1], s[|s| - 1];
      SortDescStable(init, key, v);
      SortDescSorted(init, key);
      InsertStable(last, SortDesc(init, key), key, v);
      WithKeyAppend(init, last, key, v);
      assert s == init + [last];
    }
  }

  /** With a key that never tells two elements apart (a comparator that always returns 0), the order is kept. */
  lemma {:induction false} SortDescConstantKey<T>(s: seq<T>, key: T -> real)
    requires forall i, j :: 0 <= i < |s| && 0 <= j < |s| ==> key(s[i]) == key(s[j])
    ensures SortDesc(s, key) == s
  {
    if s != [] {
      var init, last := s[..|s| - 1], s[|s| - 1];
      SortDescConstantKey(init, key);
      InsertAtEnd(last, init, key);
      assert s == init + [last];
    }
  }

  lemma {:induction false} InsertAtEnd<T>(x: T, s: seq<T>, key: T -> real)
    requires forall i :: 0 <= i < |s| ==> key(s[i]) >= key(x)
    ensures Insert(x, s, key) == s + [x]
  {
    if s != [] {
      InsertAtEnd(x, s[1..], key);
      assert s == [s[0]] + s[1..];
    }
  }
}
