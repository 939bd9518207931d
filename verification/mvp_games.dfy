/**
 The game selections of the MVP analysis: the tier-level scale (higher is
 better), the upward, downward and tier-gap game sets measured against a
 member's main tier, and the longest-win-streak loop.
 */
module MvpGames {
  import opened Tiers
  import opened Timeline
  import Seqs

  // ---------------------------------------------------------------------------
  // `tier_levels`
  // ---------------------------------------------------------------------------

  /**
   `tier_levels.get(t, 0)`: position `i` of the configured order gets level
   `len(TIER_ORDER) - i`; a label outside the order gets 0.
   */
  function TierLevel(t: Tier): (lv: nat)
    ensures lv == 0 <==> t !in TierOrder
    ensures lv <= |TierOrder|
  {
    var i := IndexOf(t);
    if i < 0 then 0 else |TierOrder| - i
  }

  /**
   The level strictly decreases along the configured order: `1티어` is level 9,
   `베이비` level 1, and a tier sitting earlier is always at a higher level.
   */
  lemma TierLevelAlongOrder()
    ensures forall i, j :: 0 <= i < j < |TierOrder| ==> TierLevel(TierOrder[i]) > TierLevel(TierOrder[j])
    ensures TierLevel(Tier1) == 9
    ensures TierLevel(Baby) == 1
  {
    forall i, j | 0 <= i < j < |TierOrder|
      ensures TierLevel(TierOrder[i]) > TierLevel(TierOrder[j])
    {
      IndexOfOrder(i);
      IndexOfOrder(j);
    }
    IndexOfOrder(0);
    IndexOfOrder(8);
  }

  /**
   The level scale and the preprocessing rank map point the same way except at
   `1티어`: for every other configured tier the level is 10 minus the rank.
   */
  lemma TierLevelAgainstRank(i: int)
    requires 1 <= i < |TierOrder|
    ensures TierLevel(TierOrder[i]) == 10 - TierNum(TierOrder[i])
  {
    IndexOfOrder(i);
    TierNumAgainstOrder();
  }

  // ---------------------------------------------------------------------------
  // The upward, downward and tier-gap selections
  // ---------------------------------------------------------------------------

  /**
   Which games a selection keeps, against the main tier's level: `Upward`
   opponents sit at a higher level, `Downward` at a lower one, `Even` at the
   same, and `Gap(n)` at most `n` levels above.
   */
  datatype Selection = Upward | Downward | Even | Gap(n: nat)

  predicate Selects(sel: Selection, mainLevel: nat, g: Game) {
    var lv := TierLevel(g.opponentTier);
    match sel
    case Upward => lv > mainLevel
    case Downward => lv < mainLevel
    case Even => lv == mainLevel
    case Gap(n) => mainLevel < lv <= mainLevel + n
  }

  /** The games a selection keeps, in their original order. */
  function Select(rows: seq<Game>, sel: Selection, mainLevel: nat): (r: seq<Game>)
    ensures forall g :: g in r <==> g in rows && Selects(sel, mainLevel, g)
    ensures |r| <= |rows|
  {
    Seqs.Filter(rows, g => Selects(sel, mainLevel, g))
  }

  /**
   Upward, downward and even games split the member's games: no game is in two
   of them and their sizes add up to the number of games.
   */
  lemma {:induction false} SelectionsPartition(rows: seq<Game>, mainLevel: nat)
    ensures |Select(rows, Upward, mainLevel)| + |Select(rows, Downward, mainLevel)| + |Select(rows, Even, mainLevel)| == |rows|
    ensures forall g :: g in Select(rows, Upward, mainLevel) ==> g !in Select(rows, Downward, mainLevel)
    decreases |rows|
  {
    if |rows| > 0 {
      SelectionsPartition(rows[..|rows| - 1], mainLevel);
    }
  }

  /**
   Against a main tier of the configured order, an opponent label outside the
   order has level 0: such a game is never upward and always downward.
   */
  lemma UnmappedOpponentIsDownward(rows: seq<Game>, mainTier: Tier, g: Game)
    requires mainTier in TierOrder
    requires g in rows && g.opponentTier !in TierOrder
    ensures g !in Select(rows, Upward, TierLevel(mainTier))
    ensures g in Select(rows, Downward, TierLevel(mainTier))
  {
  }

  /**
   The tier-gap sets are read off the upward games and are cumulative: the
   gap-1 set lies in the gap-2 set, that in the gap-3 set, and that in the
   upward set.
   */
  lemma GapSetsCumulative(rows: seq<Game>, mainLevel: nat, g: Game)
    ensures var up := Select(rows, Upward, mainLevel);
      && (g in Select(up, Gap(1), mainLevel) ==> g in Select(up, Gap(2), mainLevel))
      && (g in Select(up, Gap(2), mainLevel) ==> g in Select(up, Gap(3), mainLevel))
      && (g in Select(up, Gap(3), mainLevel) ==> g in up)
  {
  }

  /** A gap set read off the upward games is the gap set of all the games. */
  lemma {:induction false} GapOfUpwardIsGap(rows: seq<Game>, mainLevel: nat, n: nat)
    ensures Select(Select(rows, Upward, mainLevel), Gap(n), mainLevel) == Select(rows, Gap(n), mainLevel)
    decreases |rows|
  {
    if |rows| > 0 {
      var p := rows[..|rows| - 1];
      var last := rows[|rows| - 1];
      GapOfUpwardIsGap(p, mainLevel, n);
      var up := Select(rows, Upward, mainLevel);
      if Selects(Upward, mainLevel, last) {
        assert up == Select(p, Upward, mainLevel) + [last];
        assert up[..|up| - 1] == Select(p, Upward, mainLevel);
      }
    }
  }

  // ---------------------------------------------------------------------------
  // The longest-win-streak loop
  // ---------------------------------------------------------------------------

  /** `s[a..b]` is a run of wins. */
  predicate WinRun(s: seq<bool>, a: int, b: int) {
    0 <= a <= b <= |s| && forall k :: a <= k < b ==> s[k]
  }

  /** `len` wins in a row from `a`. */
  predicate WinRunFrom(s: seq<bool>, a: int, len: nat) {
    WinRun(s, a, a + len)
  }

  /** A run of wins ending at `i` cannot start before the current streak does. */
  lemma RunEndingAt(s: seq<bool>, i: int, cur: int, a: int)
    requires 0 <= cur <= i <= |s|
    requires i - cur == 0 || !s[i - cur - 1]
    requires WinRun(s, a, i)
    ensures i - a <= cur
  {
  }

  /**
   The streak loop of the same-tier and downward scores: count consecutive
   wins, reset to 0 on any other result, remember the best count. The result
   is the length of a longest run of wins.
   */
  method MaxStreak(results: seq<bool>) returns (best: nat)
    ensures best <= |results|
    ensures exists a :: WinRunFrom(results, a, best)
    ensures forall a, b :: WinRun(results, a, b) ==> b - a <= best
  {
    best := 0;
    var cur := 0;
    var i := 0;
    ghost var start := 0;
    while i < |results|
      invariant 0 <= cur <= best <= i <= |results|
      invariant WinRun(results, i - cur, i)
      invariant i - cur == 0 || !results[i - cur - 1]
      invariant 0 <= start && start + best <= i && WinRun(results, start, start + best)
      invariant forall a, b :: b <= i && WinRun(results, a, b) ==> b - a <= best
    {
      if results[i] {
        cur := cur + 1;
        if cur > best {
          best := cur;
          start := i + 1 - best;
        }
      } else {
        cur := 0;
      }
      forall a, b | b <= i + 1 && WinRun(results, a, b)
        ensures b - a <= best
      {
        if b == i + 1 && a <= i {
          assert WinRun(results, a, i);
          RunEndingAt(results, i, if results[i] then cur - 1 else cur, a);
        }
      }
      i := i + 1;
    }
    assert WinRunFrom(results, start, best);
  }
}
