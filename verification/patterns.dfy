/**
 The decision rules of the pattern-discovery step that consume the tier
 timeline: its own copy of the as-of lookup, the opponent lookup read straight
 off the game log, the win-rate bands, the tier-growth story, the half-season
 trend and the same-tier filter.
 */
module Patterns {
  import opened Options
  import opened Tiers
  import opened Timeline
  import opened AsOf
  import opened Matchup
  import Sorting
  import Seqs

  // ---------------------------------------------------------------------------
  // `_get_tier_at_date`
  // ---------------------------------------------------------------------------

  /**
   `_get_tier_at_date`: the same loop as the preprocessing lookup, written as
   a loop with an early exit. It computes the preprocessing `get_tier_at_date`
   on every store, and on a date-sorted change list it is the reference as-of
   tier.
   */
  method MemberTierAtDate(member: string, d: int, store: map<string, History>) returns (r: Option<Tier>)
    ensures r == GetTierAtDate(store, member, d)
    ensures member !in store ==> r == None
    ensures member in store && ChangesSorted(store[member].changes) ==> r == TierAsOf(store[member].changes, d)
  {
    if member !in store {
      return None;
    }
    var cs := store[member].changes;
    r := None;
    var i := 0;
    while i < |cs|
      invariant 0 <= i <= |cs|
      invariant Scan(cs[i..], d, r) == Scan(cs, d, None)
    {
      if cs[i].date <= d {
        assert cs[i..][1..] == cs[i + 1..];
        r := Some(cs[i].tier);
      } else {
        break;
      }
      i := i + 1;
    }
  }

  // ---------------------------------------------------------------------------
  // `_get_tier_at_date_opponent`
  // ---------------------------------------------------------------------------

  /** The rows dated on or before `d`, in their original order. */
  function RowsOnOrBefore(rows: seq<Game>, d: int): (r: seq<Game>)
    ensures forall g :: g in r <==> g in rows && g.date <= d
    ensures |r| <= |rows|
  {
    Seqs.Filter(rows, (g: Game) => g.date <= d)
  }

  /**
   `_get_tier_at_date_opponent`: the opponent tier of the last game, in date
   order, that the opponent played on or before `d`, read straight from the
   game log; `None` when the opponent never appears or has no such game.
   */
  function OpponentTierAtDate(games: seq<Game>, opponent: string, d: int): (r: Option<Tier>)
    ensures r.Some? ==> opponent in Names(games, AsOpponent)
  {
    var rows := SortedRowsOf(games, AsOpponent, opponent);
    if |rows| == 0 then None
    else
      var before := RowsOnOrBefore(rows, d);
      if |before| > 0 then Some(before[|before| - 1].opponentTier) else None
  }

  /** The last row on or before `d` carries the last sighting on or before `d`. */
  lemma {:induction false} LastRowIsLastSighting(rows: seq<Game>, d: int)
    ensures var before := RowsOnOrBefore(rows, d);
      LastSightingAtOrBefore(SightingsOf(rows, AsOpponent), d)
        == if |before| > 0 then Some(before[|before| - 1].opponentTier) else None
    decreases |rows|
  {
    if |rows| > 0 {
      var p := rows[..|rows| - 1];
      var last := rows[|rows| - 1];
      var s := SightingsOf(rows, AsOpponent);
      assert s[..|s| - 1] == SightingsOf(p, AsOpponent);
      assert s[|s| - 1] == Sighting(last.date, last.opponentTier);
      LastRowIsLastSighting(p, d);
      if last.date <= d {
        assert RowsOnOrBefore(rows, d) == RowsOnOrBefore(p, d) + [last];
      } else {
        assert RowsOnOrBefore(rows, d) == RowsOnOrBefore(p, d);
      }
    }
  }

  /**
   The two opponent lookups of the scripts agree: reading the last game of
   the log on or before `d` gives the same tier as the as-of lookup in the
   opponent store built by the preprocessing step.
   */
  lemma OpponentLookupsAgree(games: seq<Game>, opponent: string, d: int)
    ensures OpponentTierAtDate(games, opponent, d) == GetTierAtDate(BuildOpponentTierHistory(games), opponent, d)
  {
    var rows := SortedRowsOf(games, AsOpponent, opponent);
    assert BuildOpponentTierHistory(games) == BuildHistories(games, AsOpponent);
    GetTierAtDateIsLastSighting(games, AsOpponent, opponent, d);
    LastRowIsLastSighting(rows, d);
  }

  /**
   The cases of the opponent lookup: `None` exactly when the opponent has no
   game on or before `d`; otherwise the opponent tier of such a game, and no
   game of that opponent on or before `d` is dated later.
   */
  lemma OpponentTierAtDateCases(games: seq<Game>, opponent: string, d: int)
    ensures OpponentTierAtDate(games, opponent, d).None?
      <==> forall g :: g in games && g.opponent == opponent ==> g.date > d
    ensures OpponentTierAtDate(games, opponent, d).Some? ==> exists g :: (g in games && g.opponent == opponent
      && g.date <= d && g.opponentTier == OpponentTierAtDate(games, opponent, d).value
      && forall g' :: g' in games && g'.opponent == opponent && g'.date <= d ==> g'.date <= g.date)
  {
    OpponentLookupsAgree(games, opponent, d);
    StoredOpponentCases(games, opponent, d);
  }

  /** The same cases, read off the opponent store. */
  lemma StoredOpponentCases(games: seq<Game>, opponent: string, d: int)
    ensures var r := GetTierAtDate(BuildOpponentTierHistory(games), opponent, d);
      && (r.None? <==> forall g :: g in games && g.opponent == opponent ==> g.date > d)
      && (r.Some? ==> exists g :: (g in games && g.opponent == opponent && g.date <= d && g.opponentTier == r.value
            && forall g' :: g' in games && g'.opponent == opponent && g'.date <= d ==> g'.date <= g.date))
  {
    var r := GetTierAtDate(BuildHistories(games, AsOpponent), opponent, d);
    if r.Some? {
      var g := ResolvedRow(games, AsOpponent, opponent, d);
      forall g' | g' in games && g'.opponent == opponent && g'.date <= d
        ensures g'.date <= g.date
      {
        assert NameIn(g', AsOpponent) == opponent;
      }
    } else {
      UnresolvedHasNoRowBefore(games, AsOpponent, opponent, d);
      forall g | g in games && g.opponent == opponent
        ensures g.date > d
      {
        assert NameIn(g, AsOpponent) == opponent;
      }
    }
  }

  // ---------------------------------------------------------------------------
  // `_evaluate_win_rate`
  // ---------------------------------------------------------------------------

  /** The five win-rate bands, best first. */
  datatype Band = Exceptional | Good | Stable | NeedsImprovement | UrgentImprovement

  /** The rank of a band: 4 for the best band down to 0 for the worst. */
  function BandRank(b: Band): nat {
    match b
    case Exceptional => 4
    case Good => 3
    case Stable => 2
    case NeedsImprovement => 1
    case UrgentImprovement => 0
  }

  /** `_evaluate_win_rate`: thresholds 65, 55, 50 and 45, each inclusive. */
  function EvaluateWinRate(winRate: real): (b: Band)
    ensures b == Exceptional <==> 65.0 <= winRate
    ensures b == Good <==> 55.0 <= winRate < 65.0
    ensures b == Stable <==> 50.0 <= winRate < 55.0
    ensures b == NeedsImprovement <==> 45.0 <= winRate < 50.0
    ensures b == UrgentImprovement <==> winRate < 45.0
  {
    if winRate >= 65.0 then Exceptional
    else if winRate >= 55.0 then Good
    else if winRate >= 50.0 then Stable
    else if winRate >= 45.0 then NeedsImprovement
    else UrgentImprovement
  }

  /** A higher win rate never lands in a worse band. */
  lemma EvaluateWinRateMonotone(a: real, b: real)
    requires a <= b
    ensures BandRank(EvaluateWinRate(a)) <= BandRank(EvaluateWinRate(b))
  {
  }

  // ---------------------------------------------------------------------------
  // The tier-growth story of `_extract_stories`
  // ---------------------------------------------------------------------------

  /**
   The rank dictionary of the story rule: `2티어`..`8티어` rank 2..8 and
   `베이비` ranks 9; any other label, `1티어` included, is missing and the
   lookup raises `KeyError`.
   */
  function StoryTierNum(t: Tier): (r: Option<int>)
    ensures r.Some? <==> t in TierOrder[1..]
    ensures r.Some? ==> r.value == TierNum(t)
  {
    if TierNum(t) == UnrankedNum then None else Some(TierNum(t))
  }

  /** The outcome of the tier-growth story rule; `MissingTier` is the `KeyError`. */
  datatype Story = NoStory | Promotion | ExplosiveGrowth(growth: int) | MissingTier

  /**
   The tier-growth story: only a history with more than one change is looked
   at; growth is the rank of the first tier minus the rank of the last, two or
   more steps is explosive growth and exactly one is a promotion.
   */
  function TierGrowthStory(h: History): (r: Story)
    ensures h.tierCount <= 1 ==> r == NoStory
    ensures r.ExplosiveGrowth? ==> r.growth >= 2
    ensures r == MissingTier ==> h.tierCount > 1
  {
    if h.tierCount <= 1 then NoStory
    else if h.firstTier.None? || h.lastTier.None? then MissingTier
    else
      match (StoryTierNum(h.firstTier.value), StoryTierNum(h.lastTier.value))
      case (Some(f), Some(l)) => StoryOfGrowth(f - l)
      case _ => MissingTier
  }

  /** The story rule once both end tiers have a rank, by the growth. */
  function StoryOfGrowth(growth: int): Story {
    if growth >= 2 then ExplosiveGrowth(growth)
    else if growth == 1 then Promotion
    else NoStory
  }

  /**
   For a history with more than one change whose end tiers sit at positions
   `i` and `j` of the configured order, both past `1티어` (so both have a story
   rank), a story is told exactly when the last tier stands higher than the
   first, it is explosive exactly from two places up, and the growth is the
   number of places climbed, `i - j`.
   */
  lemma StoryIffClimbed(h: History, i: int, j: int)
    requires h.tierCount > 1
    requires 1 <= i < |TierOrder| && h.firstTier == Some(TierOrder[i])
    requires 1 <= j < |TierOrder| && h.lastTier == Some(TierOrder[j])
    ensures TierGrowthStory(h) != NoStory <==> i - j >= 1
    ensures TierGrowthStory(h) == Promotion <==> i - j == 1
    ensures TierGrowthStory(h).ExplosiveGrowth? <==> i - j >= 2
    ensures TierGrowthStory(h).ExplosiveGrowth? ==> TierGrowthStory(h).growth == i - j
  {
    assert TierNum(TierOrder[i]) == i + 1 && TierNum(TierOrder[j]) == j + 1 by {
      TierNumAgainstOrder();
    }
    assert TierGrowthStory(h) == StoryOfGrowth(i - j);
  }


  /**
   A stored member whose season starts or ends in `1티어` after at least one
   change has no rank in the story dictionary: the rule raises instead of
   telling a story.
   */
  lemma StoryTier1Raises(h: History)
    requires h.tierCount > 1 && h.firstTier.Some? && h.lastTier.Some?
    requires h.firstTier.value == Tier1 || h.lastTier.value == Tier1
    ensures TierGrowthStory(h) == MissingTier
  {
  }

  // ---------------------------------------------------------------------------
  // The half-season trend of `_identify_strengths_weaknesses`
  // ---------------------------------------------------------------------------

  /** The two halves of the month list. */
  datatype Halves = Halves(first: seq<int>, second: seq<int>)

  function MonthKey(m: int): real {
    m as real
  }

  /**
   The month split: with at least six months, the sorted month keys are cut
   at half their number; the halves put back together are the sorted months,
   a permutation of the input, and no month of the first half is later than
   one of the second.
   */
  function SplitMonths(months: seq<int>): (r: Option<Halves>)
    ensures r.None? <==> |months| < 6
    ensures r.Some? ==> |r.value.first| == |months| / 2
    ensures r.Some? ==> multiset(r.value.first + r.value.second) == multiset(months)
    ensures r.Some? ==> Sorting.SortedBy(r.value.first + r.value.second, MonthKey)
    ensures r.Some? ==> forall a, b :: (0 <= a < |r.value.first| && 0 <= b < |r.value.second|
      ==> r.value.first[a] <= r.value.second[b])
  {
    if |months| < 6 then None
    else
      var sorted := Sorting.SortBy(months, MonthKey);
      var k := |sorted| / 2;
      assert sorted[..k] + sorted[k..] == sorted;
      Some(Halves(sorted[..k], sorted[k..]))
  }

  /** The trend judged from the two halves' win rates. */
  datatype Trend = Improving | Declining | Steady

  /** A swing of at least 8 points in either direction is a trend. */
  function TrendOf(firstRate: real, secondRate: real): (t: Trend)
    ensures t == Improving <==> secondRate - firstRate >= 8.0
    ensures t == Declining <==> secondRate - firstRate <= -8.0
  {
    var growth := secondRate - firstRate;
    if growth >= 8.0 || growth <= -8.0 then
      if growth > 0.0 then Improving else Declining
    else Steady
  }

  /** Reading the season backwards turns an improving trend into a declining one. */
  lemma TrendReversed(a: real, b: real)
    ensures TrendOf(b, a) == (match TrendOf(a, b)
      case Improving => Declining
      case Declining => Improving
      case Steady => Steady)
  {
  }

  // ---------------------------------------------------------------------------
  // The same-tier filter of `_generate_tier_comment`
  // ---------------------------------------------------------------------------

  /**
   A game is kept when the member's as-of tier equals the opponent's as-of
   tier, two `None`s included.
   */
  predicate SameTierAt(member: string, g: Game, log: seq<Game>, store: map<string, History>) {
    GetTierAtDate(store, member, g.date) == OpponentTierAtDate(log, g.opponent, g.date)
  }

  /** The member's games whose two as-of tiers are equal, in their original order. */
  function SameTierGames(member: string, rows: seq<Game>, log: seq<Game>, store: map<string, History>): (r: seq<Game>)
    ensures forall g :: g in r <==> g in rows && SameTierAt(member, g, log, store)
    ensures |r| <= |rows|
  {
    Seqs.Filter(rows, g => SameTierAt(member, g, log, store))
  }

  /** A game where neither side's tier is known is kept as "same tier". */
  lemma SameTierKeepsBothUnknown(member: string, rows: seq<Game>, log: seq<Game>, store: map<string, History>, g: Game)
    requires g in rows
    requires GetTierAtDate(store, member, g.date) == None
    requires OpponentTierAtDate(log, g.opponent, g.date) == None
    ensures g in SameTierGames(member, rows, log, store)
  {
  }

  /**
   String equality of two known tiers implies the classifier's `same`; for
   two labels with a story rank the converse holds too.
   */
  lemma SameLabelIffSameRank(m: Option<Tier>, o: Option<Tier>)
    requires Truthy(m) && Truthy(o)
    ensures m == o ==> Classify(m, o) == Same
    ensures Classify(m, o) == Same && m.value in TierOrder[1..] && o.value in TierOrder[1..] ==> m == o
  {
    if m.value in TierOrder[1..] && o.value in TierOrder[1..] {
      var i :| 1 <= i < |TierOrder| && TierOrder[i] == m.value;
      var j :| 1 <= j < |TierOrder| && TierOrder[j] == o.value;
      TierNumAgainstOrder();
    }
  }

  /** For a game of a log without empty labels, the member side resolves to a known tier. */
  lemma LogGameMemberKnown(log: seq<Game>, g: Game)
    requires NoEmptyLabels(log)
    requires g in log
    ensures Truthy(GetTierAtDate(BuildTierHistory(log), g.member, g.date))
  {
    OwnGamesResolveTruthy(log, g, AsMember);
  }

  /** For a game of a log without empty labels, the opponent side read off the log is a known tier. */
  lemma LogGameOpponentKnown(log: seq<Game>, g: Game)
    requires NoEmptyLabels(log)
    requires g in log
    ensures Truthy(OpponentTierAtDate(log, g.opponent, g.date))
  {
    OpponentLookupsAgree(log, g.opponent, g.date);
    OwnGamesResolveTruthy(log, g, AsOpponent);
  }

  /**
   A game's bucket is the classification of the member's stored tier against
   the opponent tier read off the log.
   */
  lemma MatchupAgainstLogLookup(log: seq<Game>, g: Game)
    ensures MatchupOf(g.member, g, BuildTierHistory(log), BuildOpponentTierHistory(log))
      == Classify(GetTierAtDate(BuildTierHistory(log), g.member, g.date), OpponentTierAtDate(log, g.opponent, g.date))
  {
    OpponentLookupsAgree(log, g.opponent, g.date);
  }

  /**
   On the stores built from a log without empty labels, a game of the log
   that the same-tier filter keeps falls into the preprocessing `same` bucket.
   */
  lemma SameTierKeptIsSameBucket(log: seq<Game>, g: Game)
    requires NoEmptyLabels(log)
    requires g in log
    requires SameTierAt(g.member, g, log, BuildTierHistory(log))
    ensures MatchupOf(g.member, g, BuildTierHistory(log), BuildOpponentTierHistory(log)) == Same
  {
    LogGameMemberKnown(log, g);
    MatchupAgainstLogLookup(log, g);
  }

  /**
   Conversely, a game of the `same` bucket whose two tiers both have a story
   rank is kept by the same-tier filter: for those labels equal rank means
   equal label.
   */
  lemma SameBucketRankedIsKept(log: seq<Game>, g: Game, m: Tier, o: Tier)
    requires GetTierAtDate(BuildTierHistory(log), g.member, g.date) == Some(m)
    requires OpponentTierAtDate(log, g.opponent, g.date) == Some(o)
    requires m in TierOrder[1..] && o in TierOrder[1..]
    requires MatchupOf(g.member, g, BuildTierHistory(log), BuildOpponentTierHistory(log)) == Same
    ensures SameTierAt(g.member, g, log, BuildTierHistory(log))
  {
    MatchupAgainstLogLookup(log, g);
    SameLabelIffSameRank(Some(m), Some(o));
  }
}
