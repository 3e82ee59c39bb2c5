/**
 * Generic list operations behind the JavaScript `filter`, `map`, sort and
 * "drop the old entry, append the new one" idioms used throughout the
 * client and the routes.
 */
module Seqs {
  import opened Wrappers

  /** `r` is made of elements of `s`, taken in their original order. */
  ghost predicate SubsequenceOf<T>(r: seq<T>, s: seq<T>)
    decreases |s|
  {
    if r == [] then true
    else if s == [] then false
    else (r[0] == s[0] && SubsequenceOf(r[1..], s[1..])) || SubsequenceOf(r, s[1..])
  }

  /** Every element of a subsequence occurs in the sequence. */
  lemma {:induction false} SubsequenceMember<T>(w: seq<T>, s: seq<T>, i: nat)
    requires SubsequenceOf(w, s) && i < |w|
    ensures w[i] in s
    decreases |s|
  {
    if w[0] == s[0] && SubsequenceOf(w[1..], s[1..]) {
      if i > 0 {
        SubsequenceMember(w[1..], s[1..], i - 1);
      }
    } else {
      SubsequenceMember(w, s[1..], i);
    }
  }

  /** `s.find(p)`: the first element satisfying `p`, if any. */
  function FindFirst<T(==)>(s: seq<T>, p: T -> bool): (r: Option<T>)
    ensures r.None? <==> forall i :: 0 <= i < |s| ==> !p(s[i])
    ensures r.Some? ==> exists i :: 0 <= i < |s| && s[i] == r.value && p(s[i]) &&
                                    forall j :: 0 <= j < i ==> !p(s[j])
  {
    if s == [] then None
    else if p(s[0]) then Some(s[0])
    else
      var r := FindFirst(s[1..], p);
      if r.None? then r
      else
        var i :| 0 <= i < |s[1..]| && s[1..][i] == r.value && p(s[1..][i]) && forall j :: 0 <= j < i ==> !p(s[1..][j]);
        assert s[i + 1] == r.value && forall j :: 0 <= j < i + 1 ==> !p(s[j]);
        r
  }

  /** `s.filter(keep)`. */
  function Filter<T(!new)>(s: seq<T>, keep: T -> bool): (r: seq<T>)
    ensures SubsequenceOf(r, s)
    ensures forall x :: x in r <==> x in s && keep(x)
  {
    if s == [] then []
    else
      var rest := Filter(s[1..], keep);
      assert s == [s[0]] + s[1..];
      if keep(s[0]) then [s[0]] + rest else rest
  }

  /** Filtering keeps every copy of a kept element and no copy of the others. */
  lemma {:induction false} FilterCount<T(!new)>(s: seq<T>, keep: T -> bool)
    ensures forall x :: multiset(Filter(s, keep))[x] == if keep(x) then multiset(s)[x] else 0
  {
    if s != [] {
      FilterCount(s[1..], keep);
      assert s == [s[0]] + s[1..];
    }
  }

  /** Filtering a concatenation filters each part. */
  lemma {:induction false} FilterAppend<T(!new)>(a: seq<T>, b: seq<T>, keep: T -> bool)
    ensures Filter(a + b, keep) == Filter(a, keep) + Filter(b, keep)
  {
    if a != [] {
      var ab := a + b;
      assert ab[0] == a[0] && ab[1..] == a[1..] + b;
      FilterAppend(a[1..], b, keep);
    } else {
      assert a + b == b;
    }
  }

  /** A `map` that rewrites the selected elements and keeps the others. */
  function MapWhere<T>(s: seq<T>, sel: T -> bool, f: T -> T): (r: seq<T>)
    ensures |r| == |s|
    ensures forall i :: 0 <= i < |s| ==> r[i] == if sel(s[i]) then f(s[i]) else s[i]
  {
    seq(|s|, i requires 0 <= i < |s| => if sel(s[i]) then f(s[i]) else s[i])
  }

  /** A `filter` keeping every element whose key is not `k`. */
  function WithoutKey<T(!new), K(==)>(s: seq<T>, k: K, key: T -> K): (r: seq<T>)
    ensures SubsequenceOf(r, s)
    ensures forall i :: 0 <= i < |r| ==> key(r[i]) != k
  {
    if s == [] then []
    else
      var rest := WithoutKey(s[1..], k, key);
      if key(s[0]) != k then [s[0]] + rest else rest
  }

  /** Dropping a key removes every copy of the elements with that key and keeps every copy of the others. */
  lemma {:induction false} WithoutKeyCount<T(!new), K>(s: seq<T>, k: K, key: T -> K)
    ensures forall x :: multiset(WithoutKey(s, k, key))[x] == if key(x) == k then 0 else multiset(s)[x]
  {
    if s != [] {
      WithoutKeyCount(s[1..], k, key);
      assert s == [s[0]] + s[1..];
    }
  }

  /** Drop every element sharing `x`'s key, then append `x` (last write wins). */
  function ReplaceByKey<T(!new), K(==)>(s: seq<T>, x: T, key: T -> K): (r: seq<T>)
    ensures |r| > 0 && r[|r| - 1] == x
    ensures forall i :: 0 <= i < |r| && key(r[i]) == key(x) ==> i == |r| - 1
    ensures SubsequenceOf(r[..|r| - 1], s)
    ensures forall y :: key(y) != key(x) ==> multiset(r)[y] == multiset(s)[y]
  {
    var r := WithoutKey(s, key(x), key) + [x];
    assert r[..|r| - 1] == WithoutKey(s, key(x), key);
    WithoutKeyCount(s, key(x), key);
    r
  }

  lemma {:induction false} WithoutKeyIdempotent<T(!new), K>(s: seq<T>, k: K, key: T -> K)
    ensures WithoutKey(WithoutKey(s, k, key), k, key) == WithoutKey(s, k, key)
  {
    if s != [] {
      WithoutKeyIdempotent(s[1..], k, key);
    }
  }

  lemma {:induction false} WithoutKeyAppend<T(!new), K>(a: seq<T>, b: seq<T>, k: K, key: T -> K)
    ensures WithoutKey(a + b, k, key) == WithoutKey(a, k, key) + WithoutKey(b, k, key)
  {
    if a != [] {
      var ab := a + b;
      assert ab[0] == a[0] && ab[1..] == a[1..] + b;
      WithoutKeyAppend(a[1..], b, k, key);
    } else {
      assert a + b == b;
    }
  }

  /** Two replacements with the same key leave only the second element's effect. */
  lemma ReplaceTwice<T(!new), K>(s: seq<T>, x: T, y: T, key: T -> K)
    requires key(x) == key(y)
    ensures ReplaceByKey(ReplaceByKey(s, x, key), y, key) == ReplaceByKey(s, y, key)
  {
    var k := key(x);
    WithoutKeyAppend(WithoutKey(s, k, key), [x], k, key);
    WithoutKeyIdempotent(s, k, key);
    assert WithoutKey([x], k, key) == [];
  }

  /** Ascending order of `key`. */
  ghost predicate SortedBy<T>(s: seq<T>, key: T -> int) {
    forall i, j :: 0 <= i < j < |s| ==> key(s[i]) <= key(s[j])
  }

  function InsertBy<T>(x: T, s: seq<T>, key: T -> int): (r: seq<T>)
    requires SortedBy(s, key)
    ensures SortedBy(r, key)
    ensures multiset(r) == multiset(s) + multiset{x}
    ensures forall i :: 0 <= i < |r| ==> r[i] == x || r[i] in s
  {
    if s == [] || key(x) <= key(s[0]) then [x] + s
    else
      var tail := s[1..];
      assert s == [s[0]] + tail;
      var rest := InsertBy(x, tail, key);
      ConsSorted(s[0], tail, x, rest, key);
      [s[0]] + rest
  }

  /** A sorted list behind a head no larger than any of its elements, nor than the inserted one, stays sorted. */
  lemma ConsSorted<T>(h: T, tail: seq<T>, x: T, rest: seq<T>, key: T -> int)
    requires SortedBy([h] + tail, key) && SortedBy(rest, key) && key(h) <= key(x)
    requires forall i :: 0 <= i < |rest| ==> rest[i] == x || rest[i] in tail
    ensures SortedBy([h] + rest, key)
  {
    var s := [h] + tail;
    var r := [h] + rest;
    forall i | 0 <= i < |rest| ensures key(h) <= key(rest[i]) {
      if rest[i] != x {
        var j :| 0 <= j < |tail| && tail[j] == rest[i];
        assert s[0] == h && s[j + 1] == tail[j];
      }
    }
    forall i, j | 0 <= i < j < |r| ensures key(r[i]) <= key(r[j]) {
      assert r[j] == rest[j - 1];
      if i > 0 {
        assert r[i] == rest[i - 1];
      }
    }
  }

  /** An ascending sort: a permutation of `s` in ascending `key` order. */
  function SortBy<T>(s: seq<T>, key: T -> int): (r: seq<T>)
    ensures SortedBy(r, key)
    ensures multiset(r) == multiset(s)
  {
    if s == [] then []
    else
      assert s == [s[0]] + s[1..];
      InsertBy(s[0], SortBy(s[1..], key), key)
  }
}
