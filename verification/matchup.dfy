/**
 The matchup classifier of the preprocessing step and the per-member tally
 that replays a member's games, resolves both sides' tiers as of each game's
 date, and counts every game in exactly one of four buckets.
 */
module Matchup {
  import opened Options
  import opened Tiers
  import opened Timeline
  import opened AsOf

  /** `Upper`: the opponent ranks above the member; `Lower`: below. */
  datatype Matchup = Same | Upper | Lower | Unknown

  /**
   `classify_tier_matchup`: unknown when either tier is missing or empty,
   otherwise a comparison of the preprocessing ranks (lower rank is better).
   */
  function Classify(member: Option<Tier>, opponent: Option<Tier>): (r: Matchup)
    ensures r == Unknown <==> !Truthy(member) || !Truthy(opponent)
    ensures r == Same <==> Truthy(member) && Truthy(opponent) && TierNum(member.value) == TierNum(opponent.value)
    ensures r == Upper <==> Truthy(member) && Truthy(opponent) && TierNum(member.value) > TierNum(opponent.value)
    ensures r == Lower <==> Truthy(member) && Truthy(opponent) && TierNum(member.value) < TierNum(opponent.value)
  {
    if !Truthy(member) || !Truthy(opponent) then Unknown
    else
      var m, o := TierNum(member.value), TierNum(opponent.value);
      if m == o then Same
      else if m > o then Upper
      else Lower
  }

  function Flip(k: Matchup): Matchup {
    match k
    case Upper => Lower
    case Lower => Upper
    case Same => Same
    case Unknown => Unknown
  }

  /** Swapping the two sides swaps `Upper` and `Lower` and fixes the rest. */
  lemma ClassifySwap(member: Option<Tier>, opponent: Option<Tier>)
    ensures Classify(opponent, member) == Flip(Classify(member, opponent))
  {
  }

  /**
   Because the preprocessing rank map has no entry for `1티어`, a `1티어`
   opponent counts as ranked below even a `베이비` member.
   */
  lemma ClassifyTier1AsUnranked()
    ensures Classify(Some(Baby), Some(Tier1)) == Lower
    ensures Classify(Some(Tier1), Some("미정")) == Same
  {
  }

  /** The bucket of one game, from both sides' tiers as of the game's date. */
  function MatchupOf(member: string, g: Game, store: map<string, History>, oppStore: map<string, History>): Matchup {
    Classify(GetTierAtDate(store, member, g.date), GetTierAtDate(oppStore, g.opponent, g.date))
  }

  /** The classification of every game, one per game and in order. */
  function ClassifyGames(member: string, games: seq<Game>, store: map<string, History>, oppStore: map<string, History>): (ks: seq<Matchup>)
    ensures |ks| == |games|
    ensures forall i :: 0 <= i < |games| ==> ks[i] == MatchupOf(member, games[i], store, oppStore)
  {
    seq(|games|, i requires 0 <= i < |games| => MatchupOf(member, games[i], store, oppStore))
  }

  /** How many of `ks` are `k`. */
  function Count(ks: seq<Matchup>, k: Matchup): nat
    decreases |ks|
  {
    if |ks| == 0 then 0
    else Count(ks[..|ks| - 1], k) + (if ks[|ks| - 1] == k then 1 else 0)
  }

  /** How many games classified `k` were won. */
  function Wins(games: seq<Game>, ks: seq<Matchup>, k: Matchup): nat
    requires |ks| == |games|
    decreases |ks|
  {
    if |ks| == 0 then 0
    else Wins(games[..|games| - 1], ks[..|ks| - 1], k) + (if ks[|ks| - 1] == k && games[|games| - 1].won then 1 else 0)
  }

  /** Every classified game lies in exactly one of the four buckets. */
  lemma {:induction false} CountsPartition(ks: seq<Matchup>)
    ensures Count(ks, Same) + Count(ks, Upper) + Count(ks, Lower) + Count(ks, Unknown) == |ks|
    decreases |ks|
  {
    if |ks| > 0 {
      CountsPartition(ks[..|ks| - 1]);
    }
  }

  /** Win percentage without rounding; 0 for no games. */
  function WinRate(wins: nat, games: nat): (r: real)
    ensures games == 0 ==> r == 0.0
    ensures wins <= games ==> 0.0 <= r <= 100.0
    ensures games > 0 ==> r * (games as real) == (wins as real) * 100.0
  {
    if games > 0 then (wins as real) / (games as real) * 100.0 else 0.0
  }

  datatype Bucket = Bucket(total: nat, wins: nat, losses: nat, winRate: real)

  const EmptyBucket := Bucket(0, 0, 0, 0.0)

  datatype Tally = Tally(same: Bucket, upper: Bucket, lower: Bucket, unknown: Bucket) {
    function Get(k: Matchup): Bucket {
      match k
      case Same => same
      case Upper => upper
      case Lower => lower
      case Unknown => unknown
    }

    function Put(k: Matchup, b: Bucket): (t: Tally)
      ensures t.Get(k) == b
      ensures forall k' :: k' != k ==> t.Get(k') == Get(k')
    {
      match k
      case Same => this.(same := b)
      case Upper => this.(upper := b)
      case Lower => this.(lower := b)
      case Unknown => this.(unknown := b)
    }
  }

  /** Counts one game into its bucket. */
  function Record(b: Bucket, won: bool): Bucket {
    if won then b.(total := b.total + 1, wins := b.wins + 1)
    else b.(total := b.total + 1, losses := b.losses + 1)
  }

  /** Fills in the win rate of a non-empty bucket; an empty one keeps rate 0. */
  function Finish(b: Bucket): Bucket {
    if b.total > 0 then b.(winRate := WinRate(b.wins, b.total)) else b.(winRate := 0.0)
  }

  lemma CountStep(ks: seq<Matchup>, i: int)
    requires 0 <= i < |ks|
    ensures forall k :: Count(ks[..i + 1], k) == Count(ks[..i], k) + (if ks[i] == k then 1 else 0)
  {
    assert ks[..i + 1][..i] == ks[..i];
  }

  lemma WinsStep(games: seq<Game>, ks: seq<Matchup>, i: int)
    requires |ks| == |games|
    requires 0 <= i < |ks|
    ensures forall k :: Wins(games[..i + 1], ks[..i + 1], k) == Wins(games[..i], ks[..i], k) + (if ks[i] == k && games[i].won then 1 else 0)
  {
    assert ks[..i + 1][..i] == ks[..i];
    assert games[..i + 1][..i] == games[..i];
  }

  /** The counting loop of `_analyze_tier_matchup`, before win rates are filled in. */
  method CountBuckets(games: seq<Game>, ks: seq<Matchup>) returns (t: Tally)
    requires |ks| == |games|
    ensures forall k :: t.Get(k).total == Count(ks, k) && t.Get(k).wins == Wins(games, ks, k)
    ensures forall k :: t.Get(k).wins + t.Get(k).losses == t.Get(k).total
  {
    t := Tally(EmptyBucket, EmptyBucket, EmptyBucket, EmptyBucket);
    var i := 0;
    while i < |games|
      invariant 0 <= i <= |games|
      invariant forall k :: t.Get(k).total == Count(ks[..i], k)
      invariant forall k :: t.Get(k).wins == Wins(games[..i], ks[..i], k)
      invariant forall k :: t.Get(k).wins + t.Get(k).losses == t.Get(k).total
    {
      var k := ks[i];
      CountStep(ks, i);
      WinsStep(games, ks, i);
      t := t.Put(k, Record(t.Get(k), games[i].won));
      i := i + 1;
    }
    assert ks[..|games|] == ks;
    assert games[..|games|] == games;
  }

  /**
   `_analyze_tier_matchup`: replays the member's games, counts each in the
   bucket of its as-of classification, then fills in the win rates.
   */
  method AnalyzeTierMatchup(member: string, games: seq<Game>, store: map<string, History>, oppStore: map<string, History>)
    returns (t: Tally)
    ensures var ks := ClassifyGames(member, games, store, oppStore);
      forall k :: t.Get(k).total == Count(ks, k) && t.Get(k).wins == Wins(games, ks, k)
    ensures forall k :: t.Get(k).wins + t.Get(k).losses == t.Get(k).total
    ensures forall k :: t.Get(k).total == 0 ==> t.Get(k).winRate == 0.0
    ensures forall k :: t.Get(k).winRate == WinRate(t.Get(k).wins, t.Get(k).total)
    ensures t.same.total + t.upper.total + t.lower.total + t.unknown.total == |games|
  {
    var ks := ClassifyGames(member, games, store, oppStore);
    var counted := CountBuckets(games, ks);
    CountsPartition(ks);
    t := Tally(Finish(counted.same), Finish(counted.upper), Finish(counted.lower), Finish(counted.unknown));
    assert forall k :: t.Get(k) == Finish(counted.Get(k));
  }

  /**
   Every game of the log resolves on both sides: a member's tier is known on
   the date of each of the member's games, and an opponent's on the date of
   each game against that opponent.
   */
  lemma OwnGamesResolve(games: seq<Game>, g: Game, role: Role)
    requires g in games
    ensures GetTierAtDate(BuildHistories(games, role), NameIn(g, role), g.date).Some?
  {
    var name := NameIn(g, role);
    var rows := SortedRowsOf(games, role, name);
    assert g in rows;
    var i :| 0 <= i < |rows| && rows[i] == g;
    var s := PlayerSightings(games, role, name);
    assert s[i].date == g.date;
    GetTierAtDateIsLastSighting(games, role, name, g.date);
  }

  /** On date-sorted rows, the last sighting on or before `d` comes from a latest such row. */
  lemma LastSightingIsLatestRow(rows: seq<Game>, role: Role, d: int) returns (i: int)
    requires forall a, b :: 0 <= a < b < |rows| ==> rows[a].date <= rows[b].date
    requires LastSightingAtOrBefore(SightingsOf(rows, role), d).Some?
    ensures 0 <= i < |rows| && rows[i].date <= d
    ensures TierIn(rows[i], role) == LastSightingAtOrBefore(SightingsOf(rows, role), d).value
    ensures forall j :: 0 <= j < |rows| && rows[j].date <= d ==> rows[j].date <= rows[i].date
  {
    var s := SightingsOf(rows, role);
    var r := LastSightingAtOrBefore(s, d);
    i :| 0 <= i < |s| && s[i].date <= d && s[i].tier == r.value && forall j :: i < j < |s| ==> s[j].date > d;
    forall j | 0 <= j < |rows| && rows[j].date <= d
      ensures rows[j].date <= rows[i].date
    {
      assert s[j].date == rows[j].date;
    }
  }

  /** The row a resolved tier was read from: the player's latest row on or before `d`. */
  lemma ResolvedRow(games: seq<Game>, role: Role, name: string, d: int) returns (g: Game)
    requires GetTierAtDate(BuildHistories(games, role), name, d).Some?
    ensures g in games && NameIn(g, role) == name && g.date <= d
    ensures TierIn(g, role) == GetTierAtDate(BuildHistories(games, role), name, d).value
    ensures forall g' :: g' in games && NameIn(g', role) == name && g'.date <= d ==> g'.date <= g.date
  {
    var rows := SortedRowsOf(games, role, name);
    GetTierAtDateIsLastSighting(games, role, name, d);
    var i := LastSightingIsLatestRow(rows, role, d);
    g := rows[i];
    assert g in rows;
    forall g' | g' in games && NameIn(g', role) == name && g'.date <= d
      ensures g'.date <= g.date
    {
      assert g' in rows;
    }
  }

  /**
   A resolved tier is the tier recorded in one of the player's rows dated on
   or before the query, and no row of that player on or before the query is
   dated later than it.
   */
  lemma ResolvedTierIsLatest(games: seq<Game>, role: Role, name: string, d: int)
    requires GetTierAtDate(BuildHistories(games, role), name, d).Some?
    ensures exists g :: (g in games && NameIn(g, role) == name && g.date <= d
      && TierIn(g, role) == GetTierAtDate(BuildHistories(games, role), name, d).value
      && forall g' :: g' in games && NameIn(g', role) == name && g'.date <= d ==> g'.date <= g.date)
  {
    var g := ResolvedRow(games, role, name, d);
  }

  /** A player whose tier is unknown on `d` has no row dated on or before `d`. */
  lemma UnresolvedHasNoRowBefore(games: seq<Game>, role: Role, name: string, d: int)
    requires GetTierAtDate(BuildHistories(games, role), name, d).None?
    ensures forall g :: g in games && NameIn(g, role) == name ==> g.date > d
  {
    var rows := SortedRowsOf(games, role, name);
    var s := SightingsOf(rows, role);
    assert s == PlayerSightings(games, role, name);
    GetTierAtDateIsLastSighting(games, role, name, d);
    assert LastSightingAtOrBefore(s, d).None?;
    forall g | g in games && NameIn(g, role) == name
      ensures g.date > d
    {
      assert g in rows;
      var i :| 0 <= i < |rows| && rows[i] == g;
      assert s[i] == Sighting(g.date, TierIn(g, role));
    }
  }

  /** No row of the log carries an empty tier label on either side. */
  predicate NoEmptyLabels(games: seq<Game>) {
    forall h :: h in games ==> h.memberTier != "" && h.opponentTier != ""
  }

  /** On a log without empty tier labels, a player's own games resolve to a non-empty tier. */
  lemma OwnGamesResolveTruthy(games: seq<Game>, g: Game, role: Role)
    requires NoEmptyLabels(games)
    requires g in games
    ensures Truthy(GetTierAtDate(BuildHistories(games, role), NameIn(g, role), g.date))
  {
    OwnGamesResolve(games, g, role);
    var src := ResolvedRow(games, role, NameIn(g, role), g.date);
  }

  /**
   On a log without empty tier labels the `unknown` bucket stays empty: every
   game of the log is classified `same`, `upper` or `lower`.
   */
  lemma NoUnknownWithoutEmptyLabels(games: seq<Game>, g: Game)
    requires NoEmptyLabels(games)
    requires g in games
    ensures MatchupOf(g.member, g, BuildTierHistory(games), BuildOpponentTierHistory(games)) != Unknown
  {
    OwnGamesResolveTruthy(games, g, AsMember);
    OwnGamesResolveTruthy(games, g, AsOpponent);
  }
}
