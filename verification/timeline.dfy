/**
 The tier timeline builder of the preprocessing step. Every player's games are
 sorted by date, the `(date, tier)` sightings are run-length collapsed into a
 change list, and the first tier, last tier and number of changes are kept
 beside it. Members (the subject column) and opponents (the opponent column)
 go through the same sort and collapse. The opponent record of the
 preprocessing step keeps no number of changes; the opponent store here
 carries one all the same, and no opponent lookup reads it.
 */
module Timeline {
  import opened Options
  import opened Tiers
  import Sorting
  import Seqs

  /**
   One row of the game log: a member's game against an opponent on `date`,
   with the tier recorded for each side in that row and whether the member won.
   */
  datatype Game = Game(date: int, member: string, memberTier: Tier, opponent: string, opponentTier: Tier, won: bool)

  /** The two columns a player can appear in. */
  datatype Role = AsMember | AsOpponent

  /** One recorded `(date, tier)` observation of a player. */
  datatype Sighting = Sighting(date: int, tier: Tier)

  /** One entry of a change list; `tierNum` is the preprocessing rank of `tier`. */
  datatype Change = Change(date: int, tier: Tier, tierNum: int)

  /** A player's change list with its summary fields. */
  datatype History = History(changes: seq<Change>, firstTier: Option<Tier>, lastTier: Option<Tier>, tierCount: nat)

  function NameIn(g: Game, role: Role): string {
    match role
    case AsMember => g.member
    case AsOpponent => g.opponent
  }

  function TierIn(g: Game, role: Role): Tier {
    match role
    case AsMember => g.memberTier
    case AsOpponent => g.opponentTier
  }

  /** The sort key of the date sort. */
  function DateKey(g: Game): real {
    g.date as real
  }

  predicate SightingsSorted(s: seq<Sighting>) {
    forall i, j :: 0 <= i < j < |s| ==> s[i].date <= s[j].date
  }

  predicate ChangesSorted(cs: seq<Change>) {
    forall i, j :: 0 <= i < j < |cs| ==> cs[i].date <= cs[j].date
  }

  function ToChange(x: Sighting): Change {
    Change(x.date, x.tier, TierNum(x.tier))
  }

  /**
   The change-list loop: a sighting is appended exactly when its tier differs
   from the tier of the last appended entry; the first sighting is always appended.
   */
  function Collapse(s: seq<Sighting>): (cs: seq<Change>)
    ensures |cs| <= |s|
    ensures |cs| == 0 <==> |s| == 0
    ensures |s| > 0 ==> cs[0] == ToChange(s[0]) && cs[|cs| - 1].tier == s[|s| - 1].tier
    ensures forall i :: 0 <= i < |cs| ==> exists j :: 0 <= j < |s| && cs[i] == ToChange(s[j])
    ensures forall i :: 0 <= i < |cs| - 1 ==> cs[i].tier != cs[i + 1].tier
    decreases |s|
  {
    if |s| == 0 then []
    else
      var prev := Collapse(s[..|s| - 1]);
      var x := s[|s| - 1];
      if |prev| == 0 || prev[|prev| - 1].tier != x.tier then prev + [ToChange(x)] else prev
  }

  /** Given date-sorted sightings, the change list is date-sorted too. */
  lemma {:induction false} CollapseSorted(s: seq<Sighting>)
    requires SightingsSorted(s)
    ensures ChangesSorted(Collapse(s))
    decreases |s|
  {
    if |s| > 0 {
      var p := s[..|s| - 1];
      var x := s[|s| - 1];
      assert SightingsSorted(p);
      CollapseSorted(p);
      var prev := Collapse(p);
      forall i | 0 <= i < |prev|
        ensures prev[i].date <= x.date
      {
        var j :| 0 <= j < |p| && prev[i] == ToChange(p[j]);
        assert p[j] == s[j];
      }
    }
  }

  /** The classic removal of adjacent duplicates, defined from the front. */
  function Dedup(ts: seq<Tier>): seq<Tier>
    decreases |ts|
  {
    if |ts| <= 1 then ts
    else if ts[0] == ts[1] then Dedup(ts[1..])
    else [ts[0]] + Dedup(ts[1..])
  }

  function SightingTiers(s: seq<Sighting>): (ts: seq<Tier>)
    ensures |ts| == |s|
    decreases |s|
  {
    if |s| == 0 then [] else SightingTiers(s[..|s| - 1]) + [s[|s| - 1].tier]
  }

  lemma {:induction false} SightingTiersAt(s: seq<Sighting>, i: int)
    requires 0 <= i < |s|
    ensures SightingTiers(s)[i] == s[i].tier
    decreases |s|
  {
    if i < |s| - 1 {
      SightingTiersAt(s[..|s| - 1], i);
    }
  }

  lemma {:induction false} DedupSnoc(ts: seq<Tier>, y: Tier)
    ensures Dedup(ts + [y]) ==
      if |ts| == 0 then [y]
      else if ts[|ts| - 1] == y then Dedup(ts)
      else Dedup(ts) + [y]
    decreases |ts|
  {
    if |ts| == 1 {
      assert ts + [y] == [ts[0], y];
    } else if |ts| > 1 {
      assert (ts + [y])[1..] == ts[1..] + [y];
      DedupSnoc(ts[1..], y);
    }
  }

  lemma TiersOfSnoc(cs: seq<Change>, c: Change)
    ensures var ds := cs + [c];
      seq(|ds|, i requires 0 <= i < |ds| => ds[i].tier) == seq(|cs|, i requires 0 <= i < |cs| => cs[i].tier) + [c.tier]
  {
  }

  /**
   The change list, read as a tier sequence, is exactly the tier sequence of
   the sightings with adjacent repeats removed.
   */
  lemma {:induction false} CollapseIsDedup(s: seq<Sighting>)
    ensures var cs := Collapse(s); seq(|cs|, i requires 0 <= i < |cs| => cs[i].tier) == Dedup(SightingTiers(s))
    decreases |s|
  {
    if |s| > 0 {
      var p := s[..|s| - 1];
      var x := s[|s| - 1];
      var prev := Collapse(p);
      var tp := SightingTiers(p);
      CollapseIsDedup(p);
      DedupSnoc(tp, x.tier);
      if |prev| == 0 || prev[|prev| - 1].tier != x.tier {
        TiersOfSnoc(prev, ToChange(x));
        if |tp| > 0 {
          SightingTiersAt(p, |p| - 1);
        }
      } else {
        SightingTiersAt(p, |p| - 1);
      }
    }
  }

  /** The record stored per player: the change list and its summary fields. */
  function BuildHistory(s: seq<Sighting>): (h: History)
    ensures h.changes == Collapse(s)
    ensures h.tierCount == |h.changes|
    ensures |s| == 0 ==> h.firstTier == None && h.lastTier == None
    ensures |s| > 0 ==> h.firstTier == Some(s[0].tier) && h.lastTier == Some(s[|s| - 1].tier)
    ensures |s| > 0 ==> h.firstTier == Some(h.changes[0].tier) && h.lastTier == Some(h.changes[|h.changes| - 1].tier)
  {
    var cs := Collapse(s);
    History(cs,
            if |cs| > 0 then Some(cs[0].tier) else None,
            if |cs| > 0 then Some(cs[|cs| - 1].tier) else None,
            |cs|)
  }

  /** The rows in which `name` appears in column `role`, in log order. */
  function RowsOf(games: seq<Game>, role: Role, name: string): (r: seq<Game>)
    ensures forall g :: g in r <==> g in games && NameIn(g, role) == name
    ensures |r| == 0 <==> name !in Names(games, role)
    decreases |games|
  {
    if |games| == 0 then []
    else
      var g := games[|games| - 1];
      assert games == games[..|games| - 1] + [g];
      RowsOf(games[..|games| - 1], role, name) + (if NameIn(g, role) == name then [g] else [])
  }

  /** The sightings of a player in the rows given, read from column `role`. */
  function SightingsOf(rows: seq<Game>, role: Role): (s: seq<Sighting>)
    ensures |s| == |rows|
    ensures forall i :: 0 <= i < |rows| ==> s[i] == Sighting(rows[i].date, TierIn(rows[i], role))
  {
    seq(|rows|, i requires 0 <= i < |rows| => Sighting(rows[i].date, TierIn(rows[i], role)))
  }

  /** A player's rows sorted by date; same-day rows keep their log order. */
  function SortedRowsOf(games: seq<Game>, role: Role, name: string): (r: seq<Game>)
    ensures multiset(r) == multiset(RowsOf(games, role, name))
    ensures forall g :: g in r <==> g in games && NameIn(g, role) == name
    ensures forall i, j :: 0 <= i < j < |r| ==> r[i].date <= r[j].date
  {
    var rows := RowsOf(games, role, name);
    var r := Sorting.SortBy(rows, DateKey);
    assert forall g :: g in r <==> g in multiset(rows);
    r
  }

  /** A player's date-sorted sightings in column `role`. */
  function PlayerSightings(games: seq<Game>, role: Role, name: string): (s: seq<Sighting>)
    ensures SightingsSorted(s)
    ensures |s| == |SortedRowsOf(games, role, name)|
  {
    SightingsOf(SortedRowsOf(games, role, name), role)
  }

  /** Each sighting of a player is the tier recorded in one of that player's rows. */
  lemma PlayerSightingRecorded(games: seq<Game>, role: Role, name: string, i: int)
    requires 0 <= i < |PlayerSightings(games, role, name)|
    ensures var x := PlayerSightings(games, role, name)[i];
      exists g :: g in games && NameIn(g, role) == name && x == Sighting(g.date, TierIn(g, role))
  {
    var rows := SortedRowsOf(games, role, name);
    assert rows[i] in rows;
  }

  /** The players that appear in column `role`. */
  function Names(games: seq<Game>, role: Role): set<string> {
    set g | g in games :: NameIn(g, role)
  }

  /** `Names` holds exactly the names seen in column `role`. */
  lemma NamesAreSeen(games: seq<Game>, role: Role, name: string)
    ensures name in Names(games, role) <==> exists g :: g in games && NameIn(g, role) == name
  {
  }

  /** One history per player of column `role`; players never seen there are absent. */
  function BuildHistories(games: seq<Game>, role: Role): (store: map<string, History>)
    ensures store.Keys == Names(games, role)
    ensures forall name :: name in store ==> store[name] == BuildHistory(PlayerSightings(games, role, name))
  {
    Seqs.MapOver(Names(games, role), name => HistoryOf(games, role, name))
  }

  /** The history stored for `name`. */
  function HistoryOf(games: seq<Game>, role: Role, name: string): History {
    BuildHistory(PlayerSightings(games, role, name))
  }

  /** `build_tier_history`: the member store. */
  function BuildTierHistory(games: seq<Game>): (store: map<string, History>)
    ensures store.Keys == Names(games, AsMember)
    ensures forall m :: m in store ==> store[m] == BuildHistory(PlayerSightings(games, AsMember, m))
  {
    BuildHistories(games, AsMember)
  }

  /**
   `_build_opponent_tier_history`: the opponent store. Its `tierCount` field
   has no counterpart in the source's opponent record.
   */
  function BuildOpponentTierHistory(games: seq<Game>): (store: map<string, History>)
    ensures store.Keys == Names(games, AsOpponent)
    ensures forall o :: o in store ==> store[o] == BuildHistory(PlayerSightings(games, AsOpponent, o))
  {
    BuildHistories(games, AsOpponent)
  }

  /**
   Every stored history is well formed: a non-empty, date-sorted change list
   without adjacent repeats, whose summary fields match its ends.
   */
  lemma StoredHistoryWellFormed(games: seq<Game>, role: Role, name: string)
    requires name in BuildHistories(games, role)
    ensures var h := BuildHistories(games, role)[name];
      && |h.changes| > 0
      && ChangesSorted(h.changes)
      && h.tierCount == |h.changes|
      && h.firstTier == Some(h.changes[0].tier)
      && h.lastTier == Some(h.changes[|h.changes| - 1].tier)
      && (forall i :: 0 <= i < |h.changes| - 1 ==> h.changes[i].tier != h.changes[i + 1].tier)
  {
    var s := PlayerSightings(games, role, name);
    NamesAreSeen(games, role, name);
    var g :| g in games && NameIn(g, role) == name;
    var rows := SortedRowsOf(games, role, name);
    assert g in rows;
    CollapseSorted(s);
  }
}
