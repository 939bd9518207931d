/**
 A stable sort by a numeric key, as an insertion sort on sequences.
 It stands for the two sorts of the scripts: ordering a player's games by
 date, and ordering MVP candidates by total score.
 */
module Sorting {

  /** `s` is non-decreasing in `key`. */
  predicate SortedBy<T>(s: seq<T>, key: T -> real) {
    forall i, j :: 0 <= i < j < |s| ==> key(s[i]) <= key(s[j])
  }

  /** Inserts `x` after every element whose key is at most `key(x)`. */
  function Insert<T>(t: seq<T>, x: T, key: T -> real): (r: seq<T>)
    ensures |r| == |t| + 1
    ensures multiset(r) == multiset(t) + multiset{x}
    decreases |t|
  {
    if |t| == 0 || key(t[|t| - 1]) <= key(x) then t + [x]
    else
      var front, last := t[..|t| - 1], t[|t| - 1];
      assert t == front + [last];
      Insert(front, x, key) + [last]
  }

  lemma {:induction false} InsertElements<T>(t: seq<T>, x: T, key: T -> real)
    ensures forall i :: 0 <= i < |Insert(t, x, key)| ==> Insert(t, x, key)[i] == x || Insert(t, x, key)[i] in t
  {
    var r := Insert(t, x, key);
    forall i | 0 <= i < |r|
      ensures r[i] == x || r[i] in t
    {
      assert r[i] in multiset(r);
    }
  }

  lemma {:induction false} InsertSorted<T>(t: seq<T>, x: T, key: T -> real)
    requires SortedBy(t, key)
    ensures SortedBy(Insert(t, x, key), key)
    decreases |t|
  {
    if |t| == 0 || key(t[|t| - 1]) <= key(x) {
    } else {
      var front, last := t[..|t| - 1], t[|t| - 1];
      var r' := Insert(front, x, key);
      InsertSorted(front, x, key);
      InsertElements(front, x, key);
      forall i | 0 <= i < |r'|
        ensures key(r'[i]) <= key(last)
      {
        if r'[i] != x {
          var j :| 0 <= j < |front| && front[j] == r'[i];
          assert t[j] == front[j];
        }
      }
      assert Insert(t, x, key) == r' + [last];
    }
  }

  /** Insertion sort: a permutation of `s`, sorted by `key`. */
  function SortBy<T>(s: seq<T>, key: T -> real): (r: seq<T>)
    ensures multiset(r) == multiset(s)
    ensures |r| == |s|
    ensures SortedBy(r, key)
    decreases |s|
  {
    if |s| == 0 then []
    else
      assert s == s[..|s| - 1] + [s[|s| - 1]];
      var sorted := SortBy(s[..|s| - 1], key);
      InsertSorted(sorted, s[|s| - 1], key);
      Insert(sorted, s[|s| - 1], key)
  }

  /** The elements of `s` whose key is `k`, in their order in `s`. */
  function WithKey<T>(s: seq<T>, key: T -> real, k: real): seq<T>
    decreases |s|
  {
    if |s| == 0 then []
    else WithKey(s[..|s| - 1], key, k) + (if key(s[|s| - 1]) == k then [s[|s| - 1]] else [])
  }

  lemma WithKeySnoc<T>(a: seq<T>, y: T, key: T -> real, k: real)
    ensures WithKey(a + [y], key, k) == WithKey(a, key, k) + (if key(y) == k then [y] else [])
  {
    assert (a + [y])[..|a|] == a;
  }

  lemma {:induction false} InsertStable<T>(t: seq<T>, x: T, key: T -> real, k: real)
    ensures WithKey(Insert(t, x, key), key, k) == WithKey(t, key, k) + (if key(x) == k then [x] else [])
    decreases |t|
  {
    if |t| == 0 || key(t[|t| - 1]) <= key(x) {
      assert Insert(t, x, key) == t + [x];
      WithKeySnoc(t, x, key, k);
    } else {
      var front, last := t[..|t| - 1], t[|t| - 1];
      assert t == front + [last];
      var r' := Insert(front, x, key);
      assert Insert(t, x, key) == r' + [last];
      InsertStable(front, x, key, k);
      WithKeySnoc(r', last, key, k);
      WithKeySnoc(front, last, key, k);
      if key(x) == k {
        // `last` sorts after `x`, so its key differs from `k`.
        assert WithKey(t, key, k) == WithKey(front, key, k);
      } else {
        assert WithKey(r', key, k) == WithKey(front, key, k);
      }
    }
  }

  /**
   Stability: for every key value, the elements carrying that key keep their
   relative order from the input.
   */
  lemma {:induction false} SortByStable<T>(s: seq<T>, key: T -> real, k: real)
    ensures WithKey(SortBy(s, key), key, k) == WithKey(s, key, k)
    decreases |s|
  {
    if |s| > 0 {
      var front := s[..|s| - 1];
      SortByStable(front, key, k);
      InsertStable(SortBy(front, key), s[|s| - 1], key, k);
    }
  }
}
