/** Python's stable `sorted(..., key=...)` and `list.sort(key=...)`, by a real-valued
    key, ascending (a descending sort, `reverse=True`, is the ascending sort by the
    negated key), and the duplicate removal `list(set(...))`. */
module Sorting {

  ghost predicate SortedBy<T>(s: seq<T>, key: T -> real) {
    forall i, j :: 0 <= i < j < |s| ==> key(s[i]) <= key(s[j])
  }

  /** The elements of `s` whose key is `k`, in their order in `s`. A sort is stable
      when it keeps this subsequence for every key. */
  function WithKey<T>(s: seq<T>, key: T -> real, k: real): seq<T> {
    if s == [] then []
    else (if key(s[0]) == k then [s[0]] else []) + WithKey(s[1..], key, k)
  }

  /** Places `x` in front of the first element whose key is not smaller, so that of two
      equal keys the one inserted later stays first; `SortBy` inserts from the back, which
      makes the whole sort stable. */
  function InsertBy<T(==)>(x: T, s: seq<T>, key: T -> real): (r: seq<T>)
    requires SortedBy(s, key)
    ensures SortedBy(r, key)
    ensures multiset(r) == multiset(s) + multiset{x}
    ensures |r| == |s| + 1 && (r[0] == x || (s != [] && r[0] == s[0]))
  {
    if s == [] || key(x) <= key(s[0]) then [x] + s
    else
      var rest := InsertBy(x, s[1..], key);
      assert key(s[0]) <= key(rest[0]);
      assert s == [s[0]] + s[1..];
      [s[0]] + rest
  }

  /** Inserting `x` puts it in front of every element with its key: those all come
      after the insertion point. */
  lemma {:induction false} InsertByStable<T>(x: T, s: seq<T>, key: T -> real, k: real)
    requires SortedBy(s, key)
    ensures WithKey(InsertBy(x, s, key), key, k) == (if key(x) == k then [x] else []) + WithKey(s, key, k)
  {
    var r := InsertBy(x, s, key);
    var mine := if key(x) == k then [x] else [];
    if s == [] || key(x) <= key(s[0]) {
      assert r == [x] + s;
      assert r[1..] == s;
      assert WithKey(r, key, k) == mine + WithKey(s, key, k);
    } else {
      var rest := InsertBy(x, s[1..], key);
      var first := if key(s[0]) == k then [s[0]] else [];
      assert r == [s[0]] + rest;
      assert r[1..] == rest;
      assert WithKey(r, key, k) == first + WithKey(rest, key, k);
      InsertByStable(x, s[1..], key, k);
      var tail := WithKey(s[1..], key, k);
      assert WithKey(s, key, k) == first + tail;
      if key(x) == k {
        assert first == [] && WithKey(s, key, k) == tail;
        assert WithKey(rest, key, k) == mine + tail;
        assert WithKey(r, key, k) == mine + tail;
      } else {
        assert mine == [] && mine + WithKey(s, key, k) == first + tail;
        assert WithKey(rest, key, k) == tail;
        assert WithKey(r, key, k) == first + tail;
      }
    }
  }

  function SortBy<T(==)>(s: seq<T>, key: T -> real): (r: seq<T>)
    ensures SortedBy(r, key)
    ensures multiset(r) == multiset(s)
    ensures |r| == |s|
    ensures forall k :: WithKey(r, key, k) == WithKey(s, key, k)
  {
    if s == [] then []
    else
      assert s == [s[0]] + s[1..];
      var rest := SortBy(s[1..], key);
      forall k ensures WithKey(InsertBy(s[0], rest, key), key, k) == WithKey(s, key, k) {
        InsertByStable(s[0], rest, key, k);
      }
      InsertBy(s[0], rest, key)
  }

  // ---- duplicate removal ----

  predicate Distinct<T(==)>(s: seq<T>) {
    forall i, j :: 0 <= i < j < |s| ==> s[i] != s[j]
  }

  /** `list(set(s))`. Python leaves the order of a set's elements to its hash table;
      this model keeps the first occurrence of each element, in order. */
  function Dedup<T(==,!new)>(s: seq<T>): (r: seq<T>)
    ensures Distinct(r)
    ensures forall x :: x in r <==> x in s
    ensures |r| <= |s|
  {
    if s == [] then []
    else
      var d := Dedup(s[..|s| - 1]);
      var x := s[|s| - 1];
      assert s == s[..|s| - 1] + [x];
      if x in d then d else d + [x]
  }

  lemma {:induction false} DistinctCount<T>(s: seq<T>, x: T)
    requires Distinct(s)
    ensures multiset(s)[x] <= 1
  {
    if s != [] {
      var init := s[..|s| - 1];
      assert s == init + [s[|s| - 1]];
      assert Distinct(init);
      DistinctCount(init, x);
      if x == s[|s| - 1] {
        assert x !in init;
      }
    }
  }

  /** Reordering a list without duplicates leaves it without duplicates. */
  lemma PermutationKeepsDistinct<T>(s: seq<T>, r: seq<T>)
    requires Distinct(s) && multiset(r) == multiset(s)
    ensures Distinct(r)
  {
    forall i, j | 0 <= i < j < |r|
      ensures r[i] != r[j]
    {
      if r[i] == r[j] {
        assert r == r[..j] + r[j..];
        assert r[i] in multiset(r[..j]) && r[j] in multiset(r[j..]);
        assert multiset(r)[r[i]] >= 2;
        DistinctCount(s, r[i]);
        assert false;
      }
    }
  }
}
