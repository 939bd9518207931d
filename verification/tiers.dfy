/**
 The tier labels of the league and the three numeric views of them that the
 scripts use: the preprocessing rank map (lower is better, unknown labels are 99),
 the configured best-first tier order, and its list index.
 */
module Tiers {
  import opened Options

  /** A tier label as it appears in the game log. */
  type Tier = string

  const Tier1: Tier := "1티어"
  const Tier2: Tier := "2티어"
  const Tier3: Tier := "3티어"
  const Tier4: Tier := "4티어"
  const Tier5: Tier := "5티어"
  const Tier6: Tier := "6티어"
  const Tier7: Tier := "7티어"
  const Tier8: Tier := "8티어"
  const Baby: Tier := "베이비"

  /** The configured tier order, best tier first. */
  const TierOrder: seq<Tier> := [Tier1, Tier2, Tier3, Tier4, Tier5, Tier6, Tier7, Tier8, Baby]

  /** The rank used when a label is not in the preprocessing map. */
  const UnrankedNum: int := 99

  /**
   The preprocessing rank map: `2티어`..`8티어` rank 2..8, `베이비` ranks 9 and
   every other label, `1티어` included, falls back to 99.
   */
  function TierNum(t: Tier): int
  {
    if t == Tier2 then 2
    else if t == Tier3 then 3
    else if t == Tier4 then 4
    else if t == Tier5 then 5
    else if t == Tier6 then 6
    else if t == Tier7 then 7
    else if t == Tier8 then 8
    else if t == Baby then 9
    else UnrankedNum
  }

  /** Python truthiness of an optional label: `None` and the empty label are false. */
  predicate Truthy(t: Option<Tier>) {
    t.Some? && t.value != ""
  }

  /** The position of `t` in the tier order, or -1 (the `ValueError` branch of `list.index`). */
  function IndexOf(t: Tier): (i: int)
    ensures -1 <= i < |TierOrder|
    ensures i >= 0 ==> TierOrder[i] == t
    ensures i == -1 <==> t !in TierOrder
    ensures i >= 0 ==> forall j :: 0 <= j < i ==> TierOrder[j] != t
  {
    IndexFrom(TierOrder, t)
  }

  function IndexFrom(s: seq<Tier>, t: Tier): (i: int)
    ensures -1 <= i < |s|
    ensures i >= 0 ==> s[i] == t && forall j :: 0 <= j < i ==> s[j] != t
    ensures i == -1 <==> t !in s
  {
    if |s| == 0 then -1
    else if s[0] == t then 0
    else
      var k := IndexFrom(s[1..], t);
      if k == -1 then -1 else k + 1
  }

  /** The labels of the configured order are pairwise distinct. */
  lemma TierOrderDistinct()
    ensures forall i, j :: 0 <= i < j < |TierOrder| ==> TierOrder[i] != TierOrder[j]
  {
  }

  /** Every configured tier sits at its own list position. */
  lemma IndexOfOrder(i: int)
    requires 0 <= i < |TierOrder|
    ensures IndexOf(TierOrder[i]) == i
  {
    TierOrderDistinct();
  }

  /**
   The preprocessing rank agrees with the configured order for every tier
   except the best one: position `i >= 1` ranks `i + 1`, while `1티어` is
   ranked 99, worse than `베이비`.
   */
  lemma TierNumAgainstOrder()
    ensures forall i :: 1 <= i < |TierOrder| ==> TierNum(TierOrder[i]) == i + 1
    ensures TierNum(Tier1) == UnrankedNum
    ensures TierNum(Tier1) > TierNum(Baby)
  {
  }
}
