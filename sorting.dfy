/** Python's `list.sort(key=...)`: a stable sort by a numeric key. A sort with
    `reverse=True` is the stable sort by the negated key (Python keeps equal
    elements in their original order in both directions). */
module Sorting {

  /** Keys never decrease along `s`. */
  ghost predicate SortedBy<T>(s: seq<T>, key: T -> real) {
    forall i, j :: 0 <= i < j < |s| ==> key(s[i]) <= key(s[j])
  }

  /** The elements of `s` whose key is `k`, in their order in `s`. */
  function WithKey<T>(s: seq<T>, key: T -> real, k: real): (r: seq<T>)
    ensures |r| <= |s|
  {
    if s == [] then []
    else (if key(s[0]) == k then [s[0]] else []) + WithKey(s[1..], key, k)
  }

  /** Places `x` in front of the first element of `s` whose key is not smaller than its own. */
  function Insert<T(==)>(x: T, s: seq<T>, key: T -> real): (r: seq<T>)
    ensures |r| == |s| + 1
    ensures multiset(r) == multiset(s) + multiset{x}
  {
    if s == [] || key(x) <= key(s[0]) then [x] + s
    else
      assert s == [s[0]] + s[1..];
      [s[0]] + Insert(x, s[1..], key)
  }

  /** Stable insertion sort: the model of `list.sort(key=key)`. */
  function SortBy<T(==)>(s: seq<T>, key: T -> real): (r: seq<T>)
    ensures |r| == |s|
    ensures multiset(r) == multiset(s)
  {
    if s == [] then []
    else
      assert s == [s[0]] + s[1..];
      Insert(s[0], SortBy(s[1..], key), key)
  }

  lemma {:induction false} InsertSorted<T>(x: T, s: seq<T>, key: T -> real)
    requires SortedBy(s, key)
    ensures SortedBy(Insert(x, s, key), key)
  {
    if s == [] || key(x) <= key(s[0]) {
    } else {
      InsertSorted(x, s[1..], key);
      var r := Insert(x, s, key);
      var t := Insert(x, s[1..], key);
      assert r == [s[0]] + t;
      assert multiset(t) == multiset(s[1..]) + multiset{x};
      forall j | 0 < j < |r| ensures key(r[0]) <= key(r[j]) {
        assert r[j] in multiset(t);
        if r[j] == x {
        } else {
          assert r[j] in multiset(s[1..]);
          var m :| 0 <= m < |s[1..]| && s[1..][m] == r[j];
          assert s[m + 1] == r[j];
        }
      }
    }
  }

  /** The sorted list is ordered by the key. */
  lemma {:induction false} SortBySorted<T>(s: seq<T>, key: T -> real)
    ensures SortedBy(SortBy(s, key), key)
  {
    if s != [] {
      SortBySorted(s[1..], key);
      InsertSorted(s[0], SortBy(s[1..], key), key);
    }
  }

  lemma SortedByTail<T>(s: seq<T>, key: T -> real)
    requires s != [] && SortedBy(s, key)
    ensures SortedBy(s[1..], key)
  {
    forall i, j | 0 <= i < j < |s[1..]| ensures key(s[1..][i]) <= key(s[1..][j]) {
      assert s[1..][i] == s[i + 1] && s[1..][j] == s[j + 1];
    }
  }

  /** The elements `s[0]` contributes to `WithKey(s, key, k)`. */
  function HeadWithKey<T>(s: seq<T>, key: T -> real, k: real): seq<T>
    requires s != []
  {
    if key(s[0]) == k then [s[0]] else []
  }

  lemma WithKeyUnfold<T>(s: seq<T>, key: T -> real, k: real)
    requires s != []
    ensures WithKey(s, key, k) == HeadWithKey(s, key, k) + WithKey(s[1..], key, k)
  {
  }

  /** Two prefixes of which at most one is non-empty commute. */
  lemma SwapHeads<T>(a: seq<T>, b: seq<T>, w: seq<T>)
    requires a == [] || b == []
    ensures a + (b + w) == b + (a + w)
  {
    if a == [] {
      assert a + (b + w) == b + w == b + (a + w);
    } else {
      assert a + (b + w) == a + w == b + (a + w);
    }
  }

  /** `x` placed behind `s[0]`: the filtered list gains `x` where `s[0]` did not match. */
  lemma WithKeyInsertBehind<T>(x: T, s: seq<T>, key: T -> real, k: real, hx: seq<T>)
    requires s != [] && key(s[0]) < key(x)
    requires hx == if key(x) == k then [x] else []
    requires WithKey(Insert(x, s[1..], key), key, k) == hx + WithKey(s[1..], key, k)
    ensures WithKey(Insert(x, s, key), key, k) == hx + WithKey(s, key, k)
  {
    var t := Insert(x, s[1..], key);
    var r := Insert(x, s, key);
    assert r == [s[0]] + t;
    assert r[0] == s[0] && r[1..] == t;
    WithKeyUnfold(r, key, k);
    WithKeyUnfold(s, key, k);
    var hs := HeadWithKey(s, key, k);
    assert HeadWithKey(r, key, k) == hs;
    SwapHeads(hs, hx, WithKey(s[1..], key, k));
  }

  lemma {:induction false} WithKeyInsert<T>(x: T, s: seq<T>, key: T -> real, k: real)
    requires SortedBy(s, key)
    ensures WithKey(Insert(x, s, key), key, k)
         == (if key(x) == k then [x] else []) + WithKey(s, key, k)
  {
    var hx := if key(x) == k then [x] else [];
    if s == [] || key(x) <= key(s[0]) {
      var r := [x] + s;
      assert r[0] == x && r[1..] == s;
      WithKeyUnfold(r, key, k);
      assert HeadWithKey(r, key, k) == hx;
    } else {
      SortedByTail(s, key);
      WithKeyInsert(x, s[1..], key, k);
      WithKeyInsertBehind(x, s, key, k, hx);
    }
  }

  /** Stability: for every key value, the elements with that key keep their relative order. */
  lemma {:induction false} SortByStable<T>(s: seq<T>, key: T -> real, k: real)
    ensures WithKey(SortBy(s, key), key, k) == WithKey(s, key, k)
  {
    if s != [] {
      SortByStable(s[1..], key, k);
      SortBySorted(s[1..], key);
      WithKeyInsert(s[0], SortBy(s[1..], key), key, k);
    }
  }

  /** A list of at most one element is already sorted. */
  lemma SortByShort<T>(s: seq<T>, key: T -> real)
    requires |s| <= 1
    ensures SortBy(s, key) == s
  {
    if |s| == 1 {
      assert s[1..] == [];
    }
  }

  /** Two elements swap exactly when the second has the strictly smaller key. */
  lemma SortByPair<T>(x: T, y: T, key: T -> real)
    ensures SortBy([x, y], key) == if key(x) <= key(y) then [x, y] else [y, x]
  {
    var s := [x, y];
    assert s[0] == x && s[1..] == [y];
    SortByShort([y], key);
    var t := [y];
    assert t[0] == y && t[1..] == [];
    if key(x) > key(y) {
      assert Insert(x, t, key) == [y] + Insert(x, [], key);
    }
  }

  /** Sorting keeps exactly the elements of the list. */
  lemma SortByKeepsMembers<T>(s: seq<T>, key: T -> real)
    ensures forall x :: x in SortBy(s, key) <==> x in s
  {
    var r := SortBy(s, key);
    forall x ensures x in r <==> x in s {
      assert x in r <==> x in multiset(r);
      assert x in s <==> x in multiset(s);
    }
  }

  /** Stability for every key value at once. */
  lemma SortByStableAll<T>(s: seq<T>, key: T -> real)
    ensures forall k :: WithKey(SortBy(s, key), key, k) == WithKey(s, key, k)
  {
    forall k ensures WithKey(SortBy(s, key), key, k) == WithKey(s, key, k) {
      SortByStable(s, key, k);
    }
  }
}
