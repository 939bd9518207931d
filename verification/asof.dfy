/**
 The as-of resolver: the tier a player had on a given date, read from a
 change list. `Scan` is the source's linear scan; `TierAsOf` is the reference
 "last change dated on or before the query"; a binary search computes the same.
 */
module AsOf {
  import opened Options
  import opened Tiers
  import opened Timeline

  /**
   The scan of the change list: remember the tier of each change dated on or
   before `d`, stop at the first change dated after it.
   */
  function Scan(cs: seq<Change>, d: int, current: Option<Tier>): Option<Tier>
    decreases |cs|
  {
    if |cs| == 0 then current
    else if cs[0].date <= d then Scan(cs[1..], d, Some(cs[0].tier))
    else current
  }

  /** The index of the last change dated on or before `d`, or -1 if there is none. */
  function LastIndexAtOrBefore(cs: seq<Change>, d: int): (i: int)
    ensures -1 <= i < |cs|
    ensures i >= 0 ==> cs[i].date <= d
    ensures forall j :: i < j < |cs| ==> cs[j].date > d
    decreases |cs|
  {
    if |cs| == 0 then -1
    else if cs[|cs| - 1].date <= d then |cs| - 1
    else LastIndexAtOrBefore(cs[..|cs| - 1], d)
  }

  /** The reference as-of tier: that of the last change dated on or before `d`. */
  function TierAsOf(cs: seq<Change>, d: int): Option<Tier> {
    var i := LastIndexAtOrBefore(cs, d);
    if i < 0 then None else Some(cs[i].tier)
  }

  /** The two properties of `LastIndexAtOrBefore` pin it down. */
  lemma LastIndexUnique(cs: seq<Change>, d: int, i: int)
    requires -1 <= i < |cs|
    requires i >= 0 ==> cs[i].date <= d
    requires forall j :: i < j < |cs| ==> cs[j].date > d
    ensures i == LastIndexAtOrBefore(cs, d)
  {
  }

  /** On a date-sorted change list the early-exit scan finds the reference tier. */
  lemma {:induction false} ScanFindsLast(cs: seq<Change>, d: int, current: Option<Tier>)
    requires ChangesSorted(cs)
    ensures Scan(cs, d, current) == (if LastIndexAtOrBefore(cs, d) < 0 then current else TierAsOf(cs, d))
    decreases |cs|
  {
    if |cs| > 0 {
      var a := LastIndexAtOrBefore(cs, d);
      if cs[0].date <= d {
        var rest := cs[1..];
        assert ChangesSorted(rest);
        ScanFindsLast(rest, d, Some(cs[0].tier));
        var b := LastIndexAtOrBefore(rest, d);
        if b < 0 {
          LastIndexUnique(cs, d, 0);
        } else {
          assert rest[b] == cs[b + 1];
          forall j | b + 1 < j < |cs|
            ensures cs[j].date > d
          {
            assert cs[j] == rest[j - 1];
          }
          LastIndexUnique(cs, d, b + 1);
        }
      }
    }
  }

  /**
   `get_tier_at_date`: `None` for a player absent from the store, otherwise
   the scan of the player's change list.
   */
  function GetTierAtDate(store: map<string, History>, name: string, d: int): (r: Option<Tier>)
    ensures name !in store ==> r == None
    ensures name in store && ChangesSorted(store[name].changes) ==> r == TierAsOf(store[name].changes, d)
  {
    if name !in store then None
    else
      var cs := store[name].changes;
      ScanIsTierAsOf(cs, d);
      Scan(cs, d, None)
  }

  /** Started with no tier, the scan of a date-sorted change list is the reference. */
  lemma ScanIsTierAsOf(cs: seq<Change>, d: int)
    ensures ChangesSorted(cs) ==> Scan(cs, d, None) == TierAsOf(cs, d)
  {
    if ChangesSorted(cs) {
      ScanFindsLast(cs, d, None);
    }
  }

  /** Binary search over a date-sorted change list. */
  method TierAsOfBinarySearch(cs: seq<Change>, d: int) returns (r: Option<Tier>)
    requires ChangesSorted(cs)
    ensures r == TierAsOf(cs, d)
    ensures r == Scan(cs, d, None)
  {
    var lo, hi := 0, |cs|;
    while lo < hi
      invariant 0 <= lo <= hi <= |cs|
      invariant forall j :: 0 <= j < lo ==> cs[j].date <= d
      invariant forall j :: hi <= j < |cs| ==> cs[j].date > d
      decreases hi - lo
    {
      var mid := (lo + hi) / 2;
      if cs[mid].date <= d {
        lo := mid + 1;
      } else {
        hi := mid;
      }
    }
    LastIndexUnique(cs, d, lo - 1);
    ScanFindsLast(cs, d, None);
    r := if lo == 0 then None else Some(cs[lo - 1].tier);
  }

  /** A query earlier than the first change is unknown: no back-dating. */
  lemma AsOfBeforeFirst(cs: seq<Change>, d: int)
    requires ChangesSorted(cs)
    requires |cs| > 0 && d < cs[0].date
    ensures TierAsOf(cs, d) == None
  {
  }

  /** A query on or after the last change date gets the last change's tier. */
  lemma AsOfAtOrAfterLast(cs: seq<Change>, d: int)
    requires |cs| > 0 && d >= cs[|cs| - 1].date
    ensures TierAsOf(cs, d) == Some(cs[|cs| - 1].tier)
  {
  }

  /**
   The comparison is inclusive: a query dated exactly on a change sees that
   change, provided no later change falls on the same date.
   */
  lemma AsOfInclusive(cs: seq<Change>, i: int)
    requires ChangesSorted(cs)
    requires 0 <= i < |cs|
    requires i == |cs| - 1 || cs[i + 1].date > cs[i].date
    ensures TierAsOf(cs, cs[i].date) == Some(cs[i].tier)
  {
    var d := cs[i].date;
    forall j | i < j < |cs|
      ensures cs[j].date > d
    {
      assert cs[i + 1].date <= cs[j].date;
    }
    LastIndexUnique(cs, d, i);
  }

  lemma TierAsOfSnoc(cs: seq<Change>, c: Change, d: int)
    ensures TierAsOf(cs + [c], d) == if c.date <= d then Some(c.tier) else TierAsOf(cs, d)
  {
    assert (cs + [c])[..|cs|] == cs;
  }

  /** The tier of the last sighting dated on or before `d`. */
  function LastSightingAtOrBefore(s: seq<Sighting>, d: int): (r: Option<Tier>)
    ensures r.None? <==> forall i :: 0 <= i < |s| ==> s[i].date > d
    ensures r.Some? ==> exists i :: (0 <= i < |s| && s[i].date <= d && s[i].tier == r.value
      && forall j :: i < j < |s| ==> s[j].date > d)
    decreases |s|
  {
    if |s| == 0 then None
    else if s[|s| - 1].date <= d then Some(s[|s| - 1].tier)
    else
      var r := LastSightingAtOrBefore(s[..|s| - 1], d);
      assert forall i :: 0 <= i < |s| - 1 ==> s[..|s| - 1][i] == s[i];
      r
  }

  /**
   Collapsing loses nothing an as-of query can see: on date-sorted sightings,
   the as-of tier of the change list is the tier of the last sighting on or
   before the query date.
   */
  lemma {:induction false} AsOfCollapse(s: seq<Sighting>, d: int)
    requires SightingsSorted(s)
    ensures TierAsOf(Collapse(s), d) == LastSightingAtOrBefore(s, d)
    decreases |s|
  {
    if |s| > 0 {
      var p := s[..|s| - 1];
      var x := s[|s| - 1];
      var prev := Collapse(p);
      assert SightingsSorted(p);
      AsOfCollapse(p, d);
      if |prev| == 0 || prev[|prev| - 1].tier != x.tier {
        TierAsOfSnoc(prev, ToChange(x), d);
      } else if x.date <= d {
        var j :| 0 <= j < |p| && prev[|prev| - 1] == ToChange(p[j]);
        assert p[j] == s[j];
        AsOfAtOrAfterLast(prev, d);
      }
    }
  }

  /**
   For a stored player, `get_tier_at_date` is the tier of the player's last
   sighting on or before the query date.
   */
  lemma GetTierAtDateIsLastSighting(games: seq<Game>, role: Role, name: string, d: int)
    ensures GetTierAtDate(BuildHistories(games, role), name, d) == LastSightingAtOrBefore(PlayerSightings(games, role, name), d)
  {
    var store := BuildHistories(games, role);
    var s := PlayerSightings(games, role, name);
    if name in store {
      CollapseSorted(s);
      AsOfCollapse(s, d);
    }
  }

  /**
   The cases of `get_tier_at_date` on a built store: unknown player or a date
   before the first change gives `None`; a date on or after the last change
   gives the stored `last_tier`.
   */
  lemma GetTierAtDateCases(games: seq<Game>, role: Role, name: string, d: int)
    ensures var store := BuildHistories(games, role);
      && (name !in store ==> GetTierAtDate(store, name, d) == None)
      && (name in store && d < store[name].changes[0].date ==> GetTierAtDate(store, name, d) == None)
      && (name in store && d >= store[name].changes[|store[name].changes| - 1].date ==>
            GetTierAtDate(store, name, d) == store[name].lastTier)
  {
    var store := BuildHistories(games, role);
    if name in store {
      StoredHistoryWellFormed(games, role, name);
      var cs := store[name].changes;
      if d < cs[0].date {
        AsOfBeforeFirst(cs, d);
      }
      if d >= cs[|cs| - 1].date {
        AsOfAtOrAfterLast(cs, d);
      }
    }
  }
}
