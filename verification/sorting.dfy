/**
 * A stable sort by a numeric key, the behaviour of `Array.prototype.sort`
 * with a comparator `(a, b) => key(a) - key(b)` (stable since ES2019).
 */
module Sorting {

  /** Non-decreasing in `key`. */
  ghost predicate SortedBy<T>(s: seq<T>, key: T -> real) {
    forall i, j :: 0 <= i < j < |s| ==> key(s[i]) <= key(s[j])
  }

  function Identity(x: real): real { x }

  /** Inserts `x` in front of the first element whose key is at least `x`'s. */
  function Insert<T>(x: T, s: seq<T>, key: T -> real): (r: seq<T>)
    ensures |r| == |s| + 1
    ensures multiset(r) == multiset(s) + multiset{x}
  {
    if s == [] || key(x) <= key(s[0]) then
      [x] + s
    else
      assert s == [s[0]] + s[1..];
      [s[0]] + Insert(x, s[1..], key)
  }

  lemma {:induction false} InsertSorted<T>(x: T, s: seq<T>, key: T -> real)
    requires SortedBy(s, key)
    ensures SortedBy(Insert(x, s, key), key)
  {
    if s == [] || key(x) <= key(s[0]) {
    } else {
      var tail := Insert(x, s[1..], key);
      InsertSorted(x, s[1..], key);
      forall k | 0 <= k < |tail| ensures key(s[0]) <= key(tail[k]) {
        assert tail[k] in multiset(tail);
        if tail[k] != x {
          assert tail[k] in multiset(s[1..]);
          var m :| 0 <= m < |s[1..]| && s[1..][m] == tail[k];
          assert s[1..][m] == s[m + 1];
        }
      }
      var r := [s[0]] + tail;
      forall i, j | 0 <= i < j < |r| ensures key(r[i]) <= key(r[j]) {
        if i > 0 {
          assert r[i] == tail[i - 1] && r[j] == tail[j - 1];
        } else {
          assert r[j] == tail[j - 1];
        }
      }
    }
  }

  /** Insertion sort: a sorted permutation of `s`. */
  function SortBy<T>(s: seq<T>, key: T -> real): (r: seq<T>)
    ensures |r| == |s|
    ensures multiset(r) == multiset(s)
    ensures SortedBy(r, key)
  {
    if s == [] then []
    else
      assert s == [s[0]] + s[1..];
      var rest := SortBy(s[1..], key);
      InsertSorted(s[0], rest, key);
      Insert(s[0], rest, key)
  }

  /** The elements of `s` whose key is `k`, in their order in `s`. */
  function WithKey<T>(s: seq<T>, key: T -> real, k: real): seq<T> {
    if s == [] then []
    else (if key(s[0]) == k then [s[0]] else []) + WithKey(s[1..], key, k)
  }

  /** `WithKey` of a sequence with a known first element. */
  lemma WithKeyCons<T>(y: T, t: seq<T>, key: T -> real, k: real)
    ensures WithKey([y] + t, key, k) == (if key(y) == k then [y] else []) + WithKey(t, key, k)
  {
    assert ([y] + t)[1..] == t;
  }

  lemma {:induction false} InsertKeepsKeyClasses<T>(x: T, s: seq<T>, key: T -> real, k: real)
    ensures WithKey(Insert(x, s, key), key, k) == WithKey([x] + s, key, k)
  {
    if s == [] || key(x) <= key(s[0]) {
      assert Insert(x, s, key) == [x] + s;
    } else {
      var y, tail := s[0], Insert(x, s[1..], key);
      var rest := WithKey(s[1..], key, k);
      var xPart := if key(x) == k then [x] else [];
      var yPart := if key(y) == k then [y] else [];
      assert xPart == [] || yPart == [];
      assert WithKey(Insert(x, s, key), key, k) == yPart + (xPart + rest) by {
        assert Insert(x, s, key) == [y] + tail;
        WithKeyCons(y, tail, key, k);
        InsertKeepsKeyClasses(x, s[1..], key, k);
        WithKeyCons(x, s[1..], key, k);
      }
      assert WithKey([x] + s, key, k) == xPart + (yPart + rest) by {
        WithKeyCons(x, s, key, k);
        assert s == [y] + s[1..];
        WithKeyCons(y, s[1..], key, k);
      }
      assert yPart + (xPart + rest) == xPart + (yPart + rest);
    }
  }

  /** Stability: elements with equal keys keep their relative order. */
  lemma {:induction false} SortByIsStable<T>(s: seq<T>, key: T -> real, k: real)
    ensures WithKey(SortBy(s, key), key, k) == WithKey(s, key, k)
  {
    if s != [] {
      var rest := SortBy(s[1..], key);
      SortByIsStable(s[1..], key, k);
      InsertKeepsKeyClasses(s[0], rest, key, k);
      assert ([s[0]] + rest)[1..] == rest;
    }
  }

  /** The tail of a sorted sequence is sorted. */
  lemma SortedTail<T>(a: seq<T>, key: T -> real)
    requires |a| > 0 && SortedBy(a, key)
    ensures SortedBy(a[1..], key)
  {
    forall i, j | 0 <= i < j < |a[1..]| ensures key(a[1..][i]) <= key(a[1..][j]) {
      assert a[1..][i] == a[i + 1] && a[1..][j] == a[j + 1];
    }
  }

  /** Numerically sorted sequences with the same elements start with the same, smallest, element. */
  lemma SortedHeadsEqual(a: seq<real>, b: seq<real>)
    requires |a| > 0 && |b| > 0
    requires SortedBy(a, Identity) && SortedBy(b, Identity)
    requires multiset(a) == multiset(b)
    ensures a[0] == b[0]
  {
    assert a[0] in multiset(b);
    var j :| 0 <= j < |b| && b[j] == a[0];
    assert b[0] in multiset(a);
    var i :| 0 <= i < |a| && a[i] == b[0];
    assert Identity(a[0]) <= Identity(a[i]);
    assert Identity(b[0]) <= Identity(b[j]);
  }

  /** Removing equal heads from sequences with the same elements leaves tails with the same elements. */
  lemma TailMultisetsEqual(a: seq<real>, b: seq<real>)
    requires |a| > 0 && |b| > 0 && a[0] == b[0]
    requires multiset(a) == multiset(b)
    ensures multiset(a[1..]) == multiset(b[1..])
  {
    assert a == [a[0]] + a[1..];
    assert b == [b[0]] + b[1..];
    assert multiset(a[1..]) == multiset(a) - multiset{a[0]};
    assert multiset(b[1..]) == multiset(b) - multiset{b[0]};
  }

  /** Two numerically sorted sequences with the same elements are equal. */
  lemma {:induction false} SortedIsUnique(a: seq<real>, b: seq<real>)
    requires SortedBy(a, Identity) && SortedBy(b, Identity)
    requires multiset(a) == multiset(b)
    ensures a == b
  {
    assert |a| == |multiset(a)| == |multiset(b)| == |b|;
    if a != [] {
      SortedHeadsEqual(a, b);
      TailMultisetsEqual(a, b);
      SortedTail(a, Identity);
      SortedTail(b, Identity);
      SortedIsUnique(a[1..], b[1..]);
      assert a == [a[0]] + a[1..] && b == [b[0]] + b[1..];
    }
  }

  /** Sorting numbers numerically depends only on which numbers there are. */
  lemma SortIgnoresInputOrder(a: seq<real>, b: seq<real>)
    requires multiset(a) == multiset(b)
    ensures SortBy(a, Identity) == SortBy(b, Identity)
  {
    SortedIsUnique(SortBy(a, Identity), SortBy(b, Identity));
  }
}
