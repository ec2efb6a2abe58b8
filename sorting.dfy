/** Sorting a sequence by an integer key, for the store's `order("data")`
    and for `Array.prototype.sort` with a numeric comparator. The sort is an
    insertion sort; all that is promised of it is the order and that it
    permutes its input. */
module Sorting {

  ghost predicate Ascending<T>(s: seq<T>, key: T -> int) {
    forall i, j :: 0 <= i < j < |s| ==> key(s[i]) <= key(s[j])
  }

  ghost predicate StrictlyAscending<T>(s: seq<T>, key: T -> int) {
    forall i, j :: 0 <= i < j < |s| ==> key(s[i]) < key(s[j])
  }

  /** No two positions of `s` share a key. */
  ghost predicate DistinctKeys<T>(s: seq<T>, key: T -> int) {
    forall i, j :: 0 <= i < j < |s| ==> key(s[i]) != key(s[j])
  }

  function Insert<T>(x: T, s: seq<T>, key: T -> int): (r: seq<T>)
    requires Ascending(s, key)
    ensures Ascending(r, key)
    ensures multiset(r) == multiset(s) + multiset{x}
    ensures StrictlyAscending(s, key) && (forall y :: y in s ==> key(y) != key(x)) ==> StrictlyAscending(r, key)
  {
    if s == [] || key(x) <= key(s[0]) then
      InsertFront(x, s, key);
      [x] + s
    else
      var tail := Insert(x, s[1..], key);
      InsertBehind(x, s, tail, key);
      [s[0]] + tail
  }

  lemma InsertFront<T>(x: T, s: seq<T>, key: T -> int)
    requires Ascending(s, key)
    requires s == [] || key(x) <= key(s[0])
    ensures Ascending([x] + s, key)
    ensures StrictlyAscending(s, key) && (forall y :: y in s ==> key(y) != key(x)) ==> StrictlyAscending([x] + s, key)
  {
    var r := [x] + s;
    forall j | 0 < j < |r| ensures r[j] == s[j - 1] && key(x) <= key(r[j]) {
      assert key(s[0]) <= key(s[j - 1]) || j == 1;
    }
    if StrictlyAscending(s, key) && (forall y :: y in s ==> key(y) != key(x)) {
      forall j | 0 < j < |r| ensures key(x) < key(r[j]) {
        assert r[j] in s;
      }
    }
  }

  /** The step where `x` goes behind the head of `s`: `tail` is the rest of
      `s` with `x` inserted. */
  lemma InsertBehind<T>(x: T, s: seq<T>, tail: seq<T>, key: T -> int)
    requires s != [] && key(s[0]) < key(x)
    requires Ascending(s, key) && Ascending(tail, key)
    requires multiset(tail) == multiset(s[1..]) + multiset{x}
    requires StrictlyAscending(s, key) && (forall y :: y in s ==> key(y) != key(x)) ==> StrictlyAscending(tail, key)
    ensures Ascending([s[0]] + tail, key)
    ensures multiset([s[0]] + tail) == multiset(s) + multiset{x}
    ensures StrictlyAscending(s, key) && (forall y :: y in s ==> key(y) != key(x)) ==> StrictlyAscending([s[0]] + tail, key)
  {
    assert s == [s[0]] + s[1..];
    var r := [s[0]] + tail;
    forall j | 0 < j < |r| ensures r[j] == tail[j - 1] && key(s[0]) <= key(r[j]) {
      assert tail[j - 1] in multiset(tail);
      if tail[j - 1] != x {
        var k :| 0 <= k < |s[1..]| && s[1..][k] == tail[j - 1];
        assert s[k + 1] == tail[j - 1];
      }
    }
    if StrictlyAscending(s, key) {
      forall j | 0 < j < |r| ensures key(s[0]) < key(r[j]) {
        assert tail[j - 1] in multiset(tail);
        if tail[j - 1] != x {
          var k :| 0 <= k < |s[1..]| && s[1..][k] == tail[j - 1];
          assert s[k + 1] == tail[j - 1];
        }
      }
    }
  }

  function SortBy<T>(s: seq<T>, key: T -> int): (r: seq<T>)
    ensures Ascending(r, key)
    ensures multiset(r) == multiset(s)
    ensures DistinctKeys(s, key) ==> StrictlyAscending(r, key)
  {
    if s == [] then
      []
    else
      var sorted := SortBy(s[1..], key);
      DistinctTail(s, sorted, key);
      Insert(s[0], sorted, key)
  }

  /** When `s` has distinct keys, so has its tail, and no element of the
      tail (in whatever order `sorted` holds it) shares the head's key. */
  lemma DistinctTail<T>(s: seq<T>, sorted: seq<T>, key: T -> int)
    requires s != [] && multiset(sorted) == multiset(s[1..])
    ensures multiset(s) == multiset(sorted) + multiset{s[0]}
    ensures DistinctKeys(s, key) ==> DistinctKeys(s[1..], key)
    ensures DistinctKeys(s, key) ==> forall y :: y in sorted ==> key(y) != key(s[0])
  {
    assert s == [s[0]] + s[1..];
    if DistinctKeys(s, key) {
      forall y | y in sorted ensures key(y) != key(s[0]) {
        assert y in multiset(sorted);
        assert y in s[1..];
        var j :| 0 <= j < |s[1..]| && s[1..][j] == y;
        assert s[j + 1] == y;
      }
    }
  }
}
