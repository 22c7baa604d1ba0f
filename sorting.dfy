/** `sorted { key($0) < key($1) }` over Swift arrays, as a stable insertion
    sort keyed by a string, with the facts the presenter needs about it. */
module Sorting {
  import opened Base

  /** No element is strictly smaller (by `key`) than one before it. */
  ghost predicate SortedBy<T>(s: seq<T>, key: T -> string) {
    forall i, j :: 0 <= i < j < |s| ==> !StrLess(key(s[j]), key(s[i]))
  }

  /** Distinct `f`-images at distinct positions. */
  ghost predicate DistinctBy<T, K>(s: seq<T>, f: T -> K) {
    forall i, j :: 0 <= i < j < |s| ==> f(s[i]) != f(s[j])
  }

  /** Inserts `x` before the first element whose key is strictly greater,
      that is after every element with an equal key. */
  function InsertBy<T>(x: T, s: seq<T>, key: T -> string): (r: seq<T>)
    ensures multiset(r) == multiset(s) + multiset{x}
    ensures |r| == |s| + 1
  {
    if s == [] then [x]
    else if StrLess(key(x), key(s[0])) then [x] + s
    else
      assert s == [s[0]] + s[1..];
      [s[0]] + InsertBy(x, s[1..], key)
  }

  lemma {:induction false} InsertBySorted<T>(x: T, s: seq<T>, key: T -> string)
    requires SortedBy(s, key)
    ensures SortedBy(InsertBy(x, s, key), key)
  {
    if s == [] {
    } else if StrLess(key(x), key(s[0])) {
      var r := [x] + s;
      forall i, j | 0 <= i < j < |r| ensures !StrLess(key(r[j]), key(r[i])) {
        if i == 0 {
          if StrLess(key(r[j]), key(x)) {
            StrLessTransitive(key(r[j]), key(x), key(s[0]));
            if j == 1 {
              StrLessIrreflexive(key(s[0]));
            }
          }
        } else {
          assert r[i] == s[i - 1] && r[j] == s[j - 1];
        }
      }
    } else {
      InsertBySorted(x, s[1..], key);
      var tail := InsertBy(x, s[1..], key);
      var r := [s[0]] + tail;
      forall i, j | 0 <= i < j < |r| ensures !StrLess(key(r[j]), key(r[i])) {
        if i == 0 {
          assert r[j] in multiset(tail);
          assert r[j] == x || r[j] in s[1..];
        } else {
          assert r[i] == tail[i - 1] && r[j] == tail[j - 1];
        }
      }
    }
  }

  /** A stable sort: later elements are inserted after equal keys. */
  function SortBy<T>(s: seq<T>, key: T -> string): (r: seq<T>)
    ensures multiset(r) == multiset(s)
    ensures SortedBy(r, key)
  {
    if s == [] then []
    else
      var prefix := s[..|s| - 1];
      assert s == prefix + [s[|s| - 1]];
      var sortedPrefix := SortBy(prefix, key);
      InsertBySorted(s[|s| - 1], sortedPrefix, key);
      InsertBy(s[|s| - 1], sortedPrefix, key)
  }

  lemma SortByLength<T>(s: seq<T>, key: T -> string)
    ensures |SortBy(s, key)| == |s|
  {
    assert |multiset(SortBy(s, key))| == |multiset(s)|;
  }

  lemma {:induction false} InsertByDistinct<T, K>(x: T, s: seq<T>, key: T -> string, f: T -> K)
    requires DistinctBy(s, f)
    requires forall y :: y in s ==> f(y) != f(x)
    ensures DistinctBy(InsertBy(x, s, key), f)
  {
    if s != [] && !StrLess(key(x), key(s[0])) {
      InsertByDistinct(x, s[1..], key, f);
      var tail := InsertBy(x, s[1..], key);
      var r := [s[0]] + tail;
      forall i, j | 0 <= i < j < |r| ensures f(r[i]) != f(r[j]) {
        if i == 0 {
          assert r[j] in multiset(tail);
          assert r[j] == x || r[j] in s[1..];
          if r[j] != x {
            var k :| 0 <= k < |s[1..]| && s[1..][k] == r[j];
            assert s[k + 1] == r[j];
          }
        } else {
          assert r[i] == tail[i - 1] && r[j] == tail[j - 1];
        }
      }
    }
  }

  lemma {:induction false} SortByDistinct<T, K>(s: seq<T>, key: T -> string, f: T -> K)
    requires DistinctBy(s, f)
    ensures DistinctBy(SortBy(s, key), f)
  {
    if s != [] {
      var prefix := s[..|s| - 1];
      var last := s[|s| - 1];
      SortByDistinct(prefix, key, f);
      var sortedPrefix := SortBy(prefix, key);
      forall y | y in sortedPrefix ensures f(y) != f(last) {
        assert y in multiset(prefix);
        var k :| 0 <= k < |prefix| && prefix[k] == y;
        assert s[k] == y;
      }
      InsertByDistinct(last, sortedPrefix, key, f);
    }
  }
}
