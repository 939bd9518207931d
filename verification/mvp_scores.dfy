/**
 The scoring side of the MVP analysis: the clamped linear sub-scores, the
 reliability discount, the seven indicator scores, their weighted total and
 the ranking sort. Scores are exact reals; the floating-point statistics the
 scripts compute with numpy (standard deviations, the fitted trend slope) are
 taken as inputs.
 */
module MvpScores {
  import opened Tiers
  import opened Timeline
  import opened Matchup
  import opened MvpGames
  import Sorting

  function Min(a: real, b: real): real {
    if a <= b then a else b
  }

  function Max(a: real, b: real): real {
    if a >= b then a else b
  }

  // ---------------------------------------------------------------------------
  // Clamps
  // ---------------------------------------------------------------------------

  /** `min(max(x, 0), 100)`. */
  function Clamp100(x: real): (r: real)
    ensures 0.0 <= r <= 100.0
    ensures 0.0 <= x <= 100.0 ==> r == x
    ensures x <= 0.0 ==> r == 0.0
    ensures x >= 100.0 ==> r == 100.0
  {
    Min(Max(x, 0.0), 100.0)
  }

  /** Clamping never reverses an order. */
  lemma Clamp100Monotone(x: real, y: real)
    requires x <= y
    ensures Clamp100(x) <= Clamp100(y)
  {
  }

  /** Dividing by a positive number keeps the order. */
  lemma DivMonotone(a: real, b: real, w: real)
    requires 0.0 < w && a <= b
    ensures a / w <= b / w
  {
    var u, v := a / w, b / w;
    assert u * w == a && v * w == b;
  }

  /**
   `min(max((x - lo) / (hi - lo) * 100, 0), 100)`: the straight line through
   0 points at `lo` and 100 points at `hi`, clamped to [0, 100].
   */
  function Scaled(x: real, lo: real, hi: real): (r: real)
    requires lo < hi
    ensures 0.0 <= r <= 100.0
  {
    Clamp100((x - lo) / (hi - lo) * 100.0)
  }

  /**
   A scaled score is 0 at and below `lo`, 100 at and above `hi`, on the line in
   between, and never lower for a higher input.
   */
  lemma ScaledShape(x: real, y: real, lo: real, hi: real)
    requires lo < hi
    ensures x <= lo ==> Scaled(x, lo, hi) == 0.0
    ensures x >= hi ==> Scaled(x, lo, hi) == 100.0
    ensures lo <= x <= hi ==> Scaled(x, lo, hi) * (hi - lo) == (x - lo) * 100.0
    ensures x <= y ==> Scaled(x, lo, hi) <= Scaled(y, lo, hi)
  {
    ScaledEnds(x, lo, hi);
    ScaledLine(x, lo, hi);
    if x <= y {
      DivMonotone(x - lo, y - lo, hi - lo);
      Clamp100Monotone((x - lo) / (hi - lo) * 100.0, (y - lo) / (hi - lo) * 100.0);
    }
  }

  lemma ScaledEnds(x: real, lo: real, hi: real)
    requires lo < hi
    ensures x <= lo ==> Scaled(x, lo, hi) == 0.0
    ensures x >= hi ==> Scaled(x, lo, hi) == 100.0
  {
    var w := hi - lo;
    if x <= lo {
      DivMonotone(x - lo, 0.0, w);
    }
    if x >= hi {
      DivMonotone(w, x - lo, w);
    }
  }

  lemma ScaledLine(x: real, lo: real, hi: real)
    requires lo < hi
    ensures lo <= x <= hi ==> Scaled(x, lo, hi) * (hi - lo) == (x - lo) * 100.0
  {
    var w := hi - lo;
    var u := (x - lo) / w;
    assert u * w == x - lo;
    if lo <= x <= hi {
      DivMonotone(0.0, x - lo, w);
      DivMonotone(x - lo, w, w);
    }
  }

  /** `min(x / full * 100, 100)` for a count `x`: full marks from `full` on. */
  function CappedScore(x: real, full: real): (r: real)
    requires 0.0 <= x && 0.0 < full
    ensures 0.0 <= r <= 100.0
    ensures x >= full ==> r == 100.0
    ensures x < full ==> r < 100.0
  {
    var ratio := x / full;
    assert ratio * full == x;
    if x >= full then
      DivMonotone(full, x, full);
      100.0
    else
      assert ratio < 1.0;
      ratio * 100.0
  }

  /** `min(n / full, 1.0)`: the share of the game count that earns full trust. */
  function Reliability(n: nat, full: nat): (r: real)
    requires full > 0
    ensures 0.0 <= r <= 1.0
    ensures n >= full <==> r == 1.0
  {
    var ratio := (n as real) / (full as real);
    assert ratio * (full as real) == n as real;
    if n >= full then
      1.0
    else
      assert ratio < 1.0;
      ratio
  }

  /** Discounting by a reliability never raises a non-negative base score. */
  lemma DiscountNeverRaises(base: real, n: nat, full: nat)
    requires full > 0 && 0.0 <= base
    ensures 0.0 <= base * Reliability(n, full) <= base
  {
  }

  // ---------------------------------------------------------------------------
  // 1. Activity and consistency
  // ---------------------------------------------------------------------------

  /** `1 / (1 + cv)` for a non-negative coefficient of variation: a share in (0, 1]. */
  function Consistency(activeMonths: nat, cv: real): (c: real)
    requires cv >= 0.0
    ensures 0.0 < c <= 1.0
  {
    if activeMonths > 1 then
      var c := 1.0 / (1.0 + cv);
      assert c * (1.0 + cv) == 1.0;
      c
    else 1.0
  }

  /**
   `calculate_activity_consistency` as written: games against 800, the
   consistency share, and the active months over a fixed 11, weighted
   40/40/20; a member without games scores 0.
   */
  function ActivityScoreAsWritten(totalGames: nat, activeMonths: nat, cv: real): (r: real)
    requires cv >= 0.0
    ensures 0.0 <= r
    ensures activeMonths <= 11 ==> r <= 100.0
  {
    if totalGames == 0 then 0.0
    else
      var coverage := (activeMonths as real) / 11.0;
      CappedScore(totalGames as real, 800.0) * 0.4 + Consistency(activeMonths, cv) * 100.0 * 0.4 + coverage * 100.0 * 0.2
  }

  /**
   A season with games in all twelve months gives a coverage of 12/11: a
   member with 67 games in every month (804 games, so the monthly counts have
   standard deviation 0 and `cv` is 0) scores above 100.
   */
  lemma ActivityScoreAsWrittenExceeds100()
    ensures ActivityScoreAsWritten(12 * 67, 12, 0.0) > 100.0
  {
  }

  /**
   The activity score with the coverage capped at 1, as the 0-100 scale of
   the indicator intends. It always lies in [0, 100] and differs from the
   written formula only for more than 11 active months.
   */
  function ActivityScore(totalGames: nat, activeMonths: nat, cv: real): (r: real)
    requires cv >= 0.0
    ensures 0.0 <= r <= 100.0
    ensures activeMonths <= 11 ==> r == ActivityScoreAsWritten(totalGames, activeMonths, cv)
  {
    if totalGames == 0 then 0.0
    else
      var coverage := Min((activeMonths as real) / 11.0, 1.0);
      CappedScore(totalGames as real, 800.0) * 0.4 + Consistency(activeMonths, cv) * 100.0 * 0.4 + coverage * 100.0 * 0.2
  }

  // ---------------------------------------------------------------------------
  // 2. Growth
  // ---------------------------------------------------------------------------

  /**
   The recent-improvement term: the win rate of months 9 onwards minus that
   of months 1-3 when both have at least 10 games, otherwise 0.
   */
  function RecentImprovement(earlyGames: nat, earlyWins: nat, recentGames: nat, recentWins: nat): (r: real)
    requires earlyWins <= earlyGames && recentWins <= recentGames
    ensures -100.0 <= r <= 100.0
    ensures earlyGames < 10 || recentGames < 10 ==> r == 0.0
  {
    if earlyGames >= 10 && recentGames >= 10 then
      WinRate(recentWins, recentGames) - WinRate(earlyWins, earlyGames)
    else 0.0
  }

  /**
   `calculate_growth_rate`: 0 without growth data or with fewer than 50
   games; otherwise the half-season growth (-20..30), the monthly trend slope
   (-2..3, taken as 0 with fewer than 3 qualifying months) and the recent
   improvement (-20..30) of the early and recent month counts, weighted
   50/30/20.
   */
  function GrowthScore(hasGrowthData: bool, games: nat, overallGrowth: real, fitMonths: nat, fittedSlope: real,
                       earlyGames: nat, earlyWins: nat, recentGames: nat, recentWins: nat): (r: real)
    requires earlyWins <= earlyGames && recentWins <= recentGames
    ensures 0.0 <= r <= 100.0
    ensures !hasGrowthData || games < 50 ==> r == 0.0
  {
    if !hasGrowthData || games < 50 then 0.0
    else
      var slope := if fitMonths >= 3 then fittedSlope else 0.0;
      var recent := RecentImprovement(earlyGames, earlyWins, recentGames, recentWins);
      Scaled(overallGrowth, -20.0, 30.0) * 0.5 + Scaled(slope, -2.0, 3.0) * 0.3 + Scaled(recent, -20.0, 30.0) * 0.2
  }

  /** A scaled term never falls as its input rises. */
  lemma ScaledMonotone(x: real, y: real, lo: real, hi: real)
    requires lo < hi && x <= y
    ensures Scaled(x, lo, hi) <= Scaled(y, lo, hi)
  {
    DivMonotone(x - lo, y - lo, hi - lo);
    Clamp100Monotone((x - lo) / (hi - lo) * 100.0, (y - lo) / (hi - lo) * 100.0);
  }

  /**
   With everything else fixed, more wins in the recent months never lower the
   growth score.
   */
  lemma GrowthRisesWithRecentWins(hasGrowthData: bool, games: nat, overallGrowth: real, fitMonths: nat, fittedSlope: real,
                                  earlyGames: nat, earlyWins: nat, recentGames: nat, fewer: nat, more: nat)
    requires earlyWins <= earlyGames && fewer <= more <= recentGames
    ensures GrowthScore(hasGrowthData, games, overallGrowth, fitMonths, fittedSlope, earlyGames, earlyWins, recentGames, fewer)
         <= GrowthScore(hasGrowthData, games, overallGrowth, fitMonths, fittedSlope, earlyGames, earlyWins, recentGames, more)
  {
    if recentGames > 0 {
      DivMonotone(fewer as real, more as real, recentGames as real);
    }
    var a := RecentImprovement(earlyGames, earlyWins, recentGames, fewer);
    var b := RecentImprovement(earlyGames, earlyWins, recentGames, more);
    assert a <= b;
    ScaledMonotone(a, b, -20.0, 30.0);
  }

  // ---------------------------------------------------------------------------
  // 3. Same-tier dominance
  // ---------------------------------------------------------------------------

  /**
   The same-tier score from the game count, wins and longest streak: 0 under
   10 games; otherwise the win rate (40..70) and the streak (5 for full
   marks) weighted 70/30, discounted by the reliability of 50 games.
   */
  function SameTierScore(games: nat, wins: nat, maxStreak: nat): (r: real)
    requires wins <= games
    ensures 0.0 <= r <= 100.0
    ensures games < 10 ==> r == 0.0
  {
    if games < 10 then 0.0
    else
      var base := Scaled(WinRate(wins, games), 40.0, 70.0) * 0.7 + CappedScore(maxStreak as real, 5.0) * 0.3;
      DiscountNeverRaises(base, games, 50);
      base * Reliability(games, 50)
  }

  /** The number of wins among the results. */
  function CountWins(results: seq<bool>): (n: nat)
    ensures n <= |results|
    ensures n == |results| <==> forall k :: 0 <= k < |results| ==> results[k]
    decreases |results|
  {
    if |results| == 0 then 0
    else CountWins(results[..|results| - 1]) + (if results[|results| - 1] then 1 else 0)
  }

  /**
   `calculate_same_tier_dominance` on the date-ordered results of the
   member's games against the main tier: 0 without a main tier; a perfect
   record of at least 50 games scores full marks.
   */
  method SameTierDominance(hasMainTier: bool, results: seq<bool>) returns (score: real)
    ensures 0.0 <= score <= 100.0
    ensures !hasMainTier || |results| < 10 ==> score == 0.0
    ensures hasMainTier ==> score == SameTierScore(|results|, CountWins(results), LongestRun(results))
    ensures hasMainTier && |results| >= 50 && CountWins(results) == |results| ==> score == 100.0
  {
    if !hasMainTier {
      return 0.0;
    }
    var streak := MaxStreak(results);
    LongestRunIsMax(results, streak);
    score := SameTierScore(|results|, CountWins(results), streak);
    if |results| >= 50 && CountWins(results) == |results| {
      assert WinRun(results, 0, |results|);
      ScaledShape(100.0, 100.0, 40.0, 70.0);
    }
  }

  /** The longest run of wins, as a function: the length of the longest all-win stretch. */
  ghost function LongestRun(results: seq<bool>): (n: nat)
    ensures n <= |results|
    ensures exists a :: WinRunFrom(results, a, n)
    ensures forall a, b :: WinRun(results, a, b) ==> b - a <= n
  {
    LongestRunFrom(results, |results|)
  }

  ghost function LongestRunFrom(results: seq<bool>, len: nat): (n: nat)
    requires len <= |results|
    requires forall a, b :: WinRun(results, a, b) ==> b - a <= len
    ensures n <= len
    ensures exists a :: WinRunFrom(results, a, n)
    ensures forall a, b :: WinRun(results, a, b) ==> b - a <= n
    decreases len
  {
    if len == 0 then
      assert WinRunFrom(results, 0, 0);
      0
    else if HasRunOf(results, len) then len
    else
      forall a, b | WinRun(results, a, b)
        ensures b - a <= len - 1
      {
        assert !WinRunFrom(results, a, len);
      }
      LongestRunFrom(results, len - 1)
  }

  ghost predicate HasRunOf(results: seq<bool>, len: nat) {
    exists a :: WinRunFrom(results, a, len)
  }

  /** The streak loop computes the longest run. */
  lemma LongestRunIsMax(results: seq<bool>, streak: nat)
    requires exists a :: WinRunFrom(results, a, streak)
    requires forall a, b :: WinRun(results, a, b) ==> b - a <= streak
    ensures streak == LongestRun(results)
  {
    var n := LongestRun(results);
    var a :| WinRunFrom(results, a, streak);
    var b :| WinRunFrom(results, b, n);
  }

  // ---------------------------------------------------------------------------
  // 4. Upward challenge, 5. downward defence
  // ---------------------------------------------------------------------------

  /**
   `calculate_upward_challenge`: 0 without upward games; otherwise the upward
   win rate (20..50) and the challenge rate (20% for full marks) weighted
   60/40, discounted by the reliability of 20 games.
   */
  function UpwardScore(allGames: nat, upGames: nat, upWins: nat): (r: real)
    requires upWins <= upGames <= allGames
    ensures 0.0 <= r <= 100.0
    ensures upGames == 0 ==> r == 0.0
  {
    if upGames == 0 then 0.0
    else
      var rate := (upGames as real) / (allGames as real);
      DivMonotone(0.0, upGames as real, allGames as real);
      var winPart, challengePart := Scaled(WinRate(upWins, upGames), 20.0, 50.0), CappedScore(rate, 0.2);
      var base := winPart * 0.6 + challengePart * 0.4;
      DiscountNeverRaises(base, upGames, 20);
      base * Reliability(upGames, 20)
  }

  /**
   `calculate_downward_defense`: 0 under 5 downward games; otherwise the
   downward win rate (60..85) and the longest downward streak (10 for full
   marks) weighted 80/20, with no reliability discount.
   */
  function DownwardScore(downGames: nat, downWins: nat, maxStreak: nat): (r: real)
    requires downWins <= downGames
    ensures 0.0 <= r <= 100.0
    ensures downGames < 5 ==> r == 0.0
  {
    if downGames < 5 then 0.0
    else Scaled(WinRate(downWins, downGames), 60.0, 85.0) * 0.8 + CappedScore(maxStreak as real, 10.0) * 0.2
  }

  /** The results of the rows, in their order: `true` for a won game. */
  function Results(rows: seq<Game>): (rs: seq<bool>)
    ensures |rs| == |rows|
    ensures forall i :: 0 <= i < |rows| ==> rs[i] == rows[i].won
  {
    seq(|rows|, i requires 0 <= i < |rows| => rows[i].won)
  }

  /**
   `calculate_upward_challenge` on a member's rows and main tier (the most
   frequent member-tier label, taken as an input): 0 when the main tier is
   not a key of the level map; otherwise the upward score of the rows whose
   opponent sits at a higher level, against all of the member's rows.
   */
  function UpwardChallenge(rows: seq<Game>, mainTier: Tier): (r: real)
    ensures 0.0 <= r <= 100.0
    ensures mainTier !in TierOrder ==> r == 0.0
    ensures r > 0.0 ==> (mainTier in TierOrder
      && exists g :: g in rows && TierLevel(g.opponentTier) > TierLevel(mainTier))
    ensures mainTier in TierOrder ==> var up := Select(rows, Upward, TierLevel(mainTier));
      r == UpwardScore(|rows|, |up|, CountWins(Results(up)))
  {
    var level := TierLevel(mainTier);
    if level == 0 then 0.0
    else
      var up := Select(rows, Upward, level);
      var r := UpwardScore(|rows|, |up|, CountWins(Results(up)));
      assert r > 0.0 ==> up[0] in up;
      r
  }

  /**
   `calculate_downward_defense` on a member's rows and main tier: 0 when the
   main tier is not a key of the level map; otherwise the downward score of
   the rows whose opponent sits at a lower level, with the longest win run of
   those rows in date order.
   */
  method DownwardDefense(rows: seq<Game>, mainTier: Tier) returns (score: real)
    ensures 0.0 <= score <= 100.0
    ensures mainTier !in TierOrder ==> score == 0.0
    ensures score > 0.0 ==> mainTier in TierOrder && |Select(rows, Downward, TierLevel(mainTier))| >= 5
    ensures mainTier in TierOrder ==> var down := Select(rows, Downward, TierLevel(mainTier));
      score == DownwardScore(|down|, CountWins(Results(down)), LongestRun(Results(Sorting.SortBy(down, DateKey))))
  {
    var level := TierLevel(mainTier);
    if level == 0 {
      return 0.0;
    }
    var down := Select(rows, Downward, level);
    var inOrder := Results(Sorting.SortBy(down, DateKey));
    var streak := MaxStreak(inOrder);
    LongestRunIsMax(inOrder, streak);
    score := DownwardScore(|down|, CountWins(Results(down)), streak);
  }

  // ---------------------------------------------------------------------------
  // 6. Map adaptability, 7. tournament performance
  // ---------------------------------------------------------------------------

  function Sum(xs: seq<real>): real
    decreases |xs|
  {
    if |xs| == 0 then 0.0 else Sum(xs[..|xs| - 1]) + xs[|xs| - 1]
  }

  /**
   `calculate_map_adaptability` from the win rates of the maps with at least 5
   games and their standard deviation: 0 under 30 games or under 3 such maps;
   otherwise diversity (10 maps for full marks), evenness `1 / (1 + std / 20)`
   and the mean map win rate (40..65) weighted 30/40/30.
   */
  function MapScore(games: nat, mapRates: seq<real>, std: real): (r: real)
    requires std >= 0.0
    ensures 0.0 <= r <= 100.0
    ensures games < 30 || |mapRates| < 3 ==> r == 0.0
  {
    if games < 30 || |mapRates| < 3 then 0.0
    else
      var evenness := 1.0 / (1.0 + std / 20.0);
      assert evenness * (1.0 + std / 20.0) == 1.0;
      var mean := Sum(mapRates) / (|mapRates| as real);
      CappedScore(|mapRates| as real, 10.0) * 0.3 + evenness * 100.0 * 0.4 + Scaled(mean, 40.0, 65.0) * 0.3
  }

  /**
   `calculate_tournament_performance`: 0 under 5 tournament games; otherwise
   the tournament win rate (40..70), the clutch margin over the sponsored-game
   win rate (-10..10, the latter 0 without sponsored games) and the share of
   tournament games (10% for full marks) weighted 50/30/20.
   */
  function TournamentScore(allGames: nat, tGames: nat, tWins: nat, sGames: nat, sWins: nat): (r: real)
    requires tWins <= tGames && sWins <= sGames && tGames + sGames <= allGames
    ensures 0.0 <= r <= 100.0
    ensures tGames < 5 ==> r == 0.0
  {
    if tGames < 5 then 0.0
    else
      var tRate := WinRate(tWins, tGames);
      var sRate := if sGames > 0 then WinRate(sWins, sGames) else 0.0;
      var share := (tGames as real) / (allGames as real);
      Scaled(tRate, 40.0, 70.0) * 0.5 + Scaled(tRate - sRate, -10.0, 10.0) * 0.3 + CappedScore(share, 0.1) * 0.2
  }

  // ---------------------------------------------------------------------------
  // The weighted total and the ranking
  // ---------------------------------------------------------------------------

  /** The seven indicator scores of one member. */
  datatype SubScores = SubScores(activity: real, growth: real, sameTier: real, upward: real,
                                 downward: real, mapAdapt: real, tournament: real)

  predicate InRange(s: SubScores) {
    && 0.0 <= s.activity <= 100.0 && 0.0 <= s.growth <= 100.0 && 0.0 <= s.sameTier <= 100.0
    && 0.0 <= s.upward <= 100.0 && 0.0 <= s.downward <= 100.0 && 0.0 <= s.mapAdapt <= 100.0
    && 0.0 <= s.tournament <= 100.0
  }

  /** The indicator weights, in the order activity, growth, same tier, upward, downward, maps, tournament. */
  const Weights: seq<real> := [0.15, 0.20, 0.15, 0.15, 0.10, 0.15, 0.10]

  /** The seven weights sum to 1. */
  lemma WeightsSumToOne()
    ensures Sum(Weights) == 1.0
    ensures forall i :: 0 <= i < |Weights| ==> Weights[i] > 0.0
  {
    var w := Weights;
    assert w[..1][..0] == [];
    assert Sum(w[..1]) == 0.15;
    assert w[..2][..1] == w[..1];
    assert Sum(w[..2]) == 0.35;
    assert w[..3][..2] == w[..2];
    assert Sum(w[..3]) == 0.50;
    assert w[..4][..3] == w[..3];
    assert Sum(w[..4]) == 0.65;
    assert w[..5][..4] == w[..4];
    assert Sum(w[..5]) == 0.75;
    assert w[..6][..5] == w[..5];
    assert Sum(w[..6]) == 0.90;
    assert w[..6] == w[..|w| - 1];
  }

  /** `total_score`: the weighted sum of the seven indicator scores. */
  function TotalScore(s: SubScores): (t: real)
    ensures InRange(s) ==> 0.0 <= t <= 100.0
  {
    Weights[0] * s.activity + Weights[1] * s.growth + Weights[2] * s.sameTier + Weights[3] * s.upward
      + Weights[4] * s.downward + Weights[5] * s.mapAdapt + Weights[6] * s.tournament
  }

  /** Raising any indicator score never lowers the total. */
  lemma TotalScoreMonotone(a: SubScores, b: SubScores)
    requires a.activity <= b.activity && a.growth <= b.growth && a.sameTier <= b.sameTier
    requires a.upward <= b.upward && a.downward <= b.downward && a.mapAdapt <= b.mapAdapt
    requires a.tournament <= b.tournament
    ensures TotalScore(a) <= TotalScore(b)
  {
  }

  /** A candidate of the ranking: a member and its indicator scores. */
  datatype Candidate = Candidate(name: string, scores: SubScores)

  function RankKey(c: Candidate): real {
    -TotalScore(c.scores)
  }

  /**
   `mvp_ranking`: every candidate exactly once, by total score from highest
   to lowest.
   */
  function Ranking(cs: seq<Candidate>): (r: seq<Candidate>)
    ensures multiset(r) == multiset(cs)
    ensures |r| == |cs|
    ensures forall i, j :: 0 <= i < j < |r| ==> TotalScore(r[i].scores) >= TotalScore(r[j].scores)
  {
    var r := Sorting.SortBy(cs, RankKey);
    assert forall i, j :: 0 <= i < j < |r| ==> RankKey(r[i]) <= RankKey(r[j]);
    r
  }

  /** Candidates with equal totals keep the order they were scored in. */
  lemma RankingKeepsTies(cs: seq<Candidate>, total: real)
    ensures Sorting.WithKey(Ranking(cs), RankKey, -total) == Sorting.WithKey(cs, RankKey, -total)
  {
    var key := -total;
    Sorting.SortByStable(cs, RankKey, key);
    assert Ranking(cs) == Sorting.SortBy(cs, RankKey);
  }
}
