/** Generic sequence and map helpers: order-preserving filtering (the shape of every row selection in the scripts), splitting lemmas, and maps built from a key set. */
module Seqs {

  /** The elements of `s` satisfying `p`, in their order in `s`. */
  function Filter<T(!new)>(s: seq<T>, p: T -> bool): (r: seq<T>)
    ensures forall x :: x in r <==> x in s && p(x)
    ensures |r| <= |s|
    decreases |s|
  {
    if |s| == 0 then []
    else
      var front := Filter(s[..|s| - 1], p);
      var last := s[|s| - 1];
      assert s == s[..|s| - 1] + [last];
      if p(last) then front + [last] else front
  }

  /** Dropping the last element of `a + b`, for a non-empty `b`, drops it from `b`. */
  lemma DropLastOfAppend<T>(a: seq<T>, b: seq<T>)
    requires |b| > 0
    ensures (a + b)[..|a + b| - 1] == a + b[..|b| - 1]
    ensures (a + b)[|a + b| - 1] == b[|b| - 1]
  {
  }

  /** A sequence is what comes before position `k`, the element at `k`, and what comes after. */
  lemma SplitAround<T>(s: seq<T>, k: int)
    requires 0 <= k < |s|
    ensures s == s[..k] + [s[k]] + s[k + 1..]
  {
  }

  /** The map sending every key of `ks` to `f` of it. */
  function MapOver<K, V>(ks: set<K>, f: K -> V): (m: map<K, V>)
    ensures m.Keys == ks
    ensures forall k :: k in m ==> m[k] == f(k)
  {
    map k | k in ks :: f(k)
  }
}
