/**
 The decision rules of the member booklet: race names, the tier relation read
 off list positions and the upper/lower tally over the opponent-tier table,
 the per-tier and per-indicator grade bands, the month-over-month trend marks
 and the half-season split.
 */
module Report {
  import opened Tiers
  import opened Matchup
  import opened MvpGames
  import Sorting
  import Seqs

  // ---------------------------------------------------------------------------
  // `get_race_korean`
  // ---------------------------------------------------------------------------

  const Terran: string := "테란"
  const Protoss: string := "프로토스"
  const Zerg: string := "저그"

  /** `get_race_korean`: the one-letter codes and the Korean names map to the Korean name; anything else is kept. */
  function RaceKorean(race: string): (r: string)
    ensures race == "T" || race == Terran ==> r == Terran
    ensures race == "P" || race == Protoss ==> r == Protoss
    ensures race == "Z" || race == Zerg ==> r == Zerg
    ensures race !in {"T", "P", "Z", Terran, Protoss, Zerg} ==> r == race
  {
    if race == "T" || race == Terran then Terran
    else if race == "P" || race == Protoss then Protoss
    else if race == "Z" || race == Zerg then Zerg
    else race
  }

  /** Translating a translated race changes nothing more. */
  lemma RaceKoreanIdempotent(race: string)
    ensures RaceKorean(RaceKorean(race)) == RaceKorean(race)
  {
  }

  // ---------------------------------------------------------------------------
  // The tier relation and the upper/lower tally of `generate_member_booklet`
  // ---------------------------------------------------------------------------

  /** `상위`, `동티어`, `하위` and `-`. */
  datatype Relation = UpperTier | SameTier | LowerTier | Unclassified

  /**
   The relation from the two list positions (-1 for a label outside the
   order): unclassified when either is missing, otherwise the opponent is
   upper when it sits earlier in the order, lower when later.
   */
  function RelationOf(myIdx: int, oppIdx: int): (r: Relation)
    ensures r == Unclassified <==> myIdx < 0 || oppIdx < 0
    ensures r == UpperTier <==> 0 <= oppIdx < myIdx
    ensures r == SameTier <==> 0 <= myIdx == oppIdx
    ensures r == LowerTier <==> 0 <= myIdx < oppIdx
  {
    if myIdx >= 0 && oppIdx >= 0 then
      if oppIdx < myIdx then UpperTier
      else if oppIdx == myIdx then SameTier
      else LowerTier
    else Unclassified
  }

  function TierRelation(mainTier: Tier, oppTier: Tier): Relation {
    RelationOf(IndexOf(mainTier), IndexOf(oppTier))
  }

  /**
   The booklet's list positions and the MVP step's tier levels agree: for two
   configured tiers the opponent is upper exactly when its level is higher,
   lower exactly when lower, and the same tier exactly when the levels match.
   */
  lemma TierRelationAgreesWithLevels(mainTier: Tier, oppTier: Tier)
    requires mainTier in TierOrder && oppTier in TierOrder
    ensures TierRelation(mainTier, oppTier) == UpperTier <==> TierLevel(oppTier) > TierLevel(mainTier)
    ensures TierRelation(mainTier, oppTier) == LowerTier <==> TierLevel(oppTier) < TierLevel(mainTier)
    ensures TierRelation(mainTier, oppTier) == SameTier <==> TierLevel(oppTier) == TierLevel(mainTier)
  {
  }

  /** One row of the member's opponent-tier table. */
  datatype TierStats = TierStats(games: nat, wins: nat, winRate: real)

  /** The running upper and lower tallies. */
  datatype Tallies = Tallies(upperGames: nat, upperWins: nat, lowerGames: nat, lowerWins: nat)

  /** Adds the row of tier `t`, if the table has one, to the tally its relation selects. */
  function AddRow(acc: Tallies, t: Tier, byTier: map<Tier, TierStats>, mainTier: Tier): Tallies {
    if t !in byTier then acc
    else
      match TierRelation(mainTier, t)
      case UpperTier => acc.(upperGames := acc.upperGames + byTier[t].games, upperWins := acc.upperWins + byTier[t].wins)
      case LowerTier => acc.(lowerGames := acc.lowerGames + byTier[t].games, lowerWins := acc.lowerWins + byTier[t].wins)
      case _ => acc
  }

  /** The tallies over the tiers of `ts`, in order. */
  function TallyOf(ts: seq<Tier>, byTier: map<Tier, TierStats>, mainTier: Tier): Tallies
    decreases |ts|
  {
    if |ts| == 0 then Tallies(0, 0, 0, 0)
    else AddRow(TallyOf(ts[..|ts| - 1], byTier, mainTier), ts[|ts| - 1], byTier, mainTier)
  }

  /** The games and wins of every tier in `ts`. */
  function SumAll(ts: seq<Tier>, byTier: map<Tier, TierStats>): (gw: (nat, nat))
    decreases |ts|
  {
    if |ts| == 0 then (0, 0)
    else
      var (g, w) := SumAll(ts[..|ts| - 1], byTier);
      var t := ts[|ts| - 1];
      if t in byTier then (g + byTier[t].games, w + byTier[t].wins) else (g, w)
  }

  /** The tier-competitiveness summary of the booklet. */
  datatype TierSummary = TierSummary(tally: Tallies, sameTierRate: real, upperRate: real, lowerRate: real)

  /**
   The opponent-tier loop of `generate_member_booklet`: walk the configured
   order, and for each tier present in the table add its games and wins to the
   upper or lower tally, or take its win rate as the same-tier rate; the
   upper and lower win rates are 0 for an empty tally.
   */
  method SummarizeTiers(mainTier: Tier, byTier: map<Tier, TierStats>) returns (s: TierSummary)
    ensures s.tally == TallyOf(TierOrder, byTier, mainTier)
    ensures s.sameTierRate == (if mainTier in TierOrder && mainTier in byTier then byTier[mainTier].winRate else 0.0)
    ensures s.upperRate == WinRate(s.tally.upperWins, s.tally.upperGames)
    ensures s.lowerRate == WinRate(s.tally.lowerWins, s.tally.lowerGames)
    ensures s.tally.upperGames == 0 ==> s.upperRate == 0.0
    ensures s.tally.lowerGames == 0 ==> s.lowerRate == 0.0
  {
    var myIdx := IndexOf(mainTier);
    var tally := Tallies(0, 0, 0, 0);
    var sameRate := 0.0;
    var i := 0;
    while i < |TierOrder|
      invariant 0 <= i <= |TierOrder|
      invariant tally == TallyOf(TierOrder[..i], byTier, mainTier)
      invariant sameRate == (if 0 <= myIdx < i && mainTier in byTier then byTier[mainTier].winRate else 0.0)
    {
      IndexOfOrder(i);
      TallyPrefixStep(TierOrder, i, byTier, mainTier);
      tally, sameRate := TierRowStep(tally, sameRate, TierOrder[i], myIdx, i, mainTier, byTier);
      i := i + 1;
    }
    assert TierOrder[..|TierOrder|] == TierOrder;
    assert 0 <= myIdx <==> mainTier in TierOrder;
    s := TierSummary(tally, sameRate, WinRate(tally.upperWins, tally.upperGames), WinRate(tally.lowerWins, tally.lowerGames));
  }

  /**
   One pass of the opponent-tier loop: a tier with a row adds its games and
   wins to the upper or lower tally, or, when it is the main tier, sets the
   same-tier rate to its win rate.
   */
  method TierRowStep(tally: Tallies, sameRate: real, tier: Tier, myIdx: int, oppIdx: int, mainTier: Tier,
                     byTier: map<Tier, TierStats>)
    returns (tally': Tallies, sameRate': real)
    requires myIdx == IndexOf(mainTier) && oppIdx == IndexOf(tier)
    ensures tally' == AddRow(tally, tier, byTier, mainTier)
    ensures sameRate' == (if tier in byTier && 0 <= myIdx == oppIdx then byTier[tier].winRate else sameRate)
  {
    tally', sameRate' := tally, sameRate;
    if tier in byTier {
      var stats := byTier[tier];
      var relation := RelationOf(myIdx, oppIdx);
      assert relation == TierRelation(mainTier, tier);
      if relation == UpperTier {
        tally' := tally.(upperGames := tally.upperGames + stats.games, upperWins := tally.upperWins + stats.wins);
      } else if relation == SameTier {
        sameRate' := stats.winRate;
      } else if relation == LowerTier {
        tally' := tally.(lowerGames := tally.lowerGames + stats.games, lowerWins := tally.lowerWins + stats.wins);
      }
    }
  }

  /** Tallying one more tier of a prefix adds that tier's row. */
  lemma TallyPrefixStep(ts: seq<Tier>, i: int, byTier: map<Tier, TierStats>, mainTier: Tier)
    requires 0 <= i < |ts|
    ensures TallyOf(ts[..i + 1], byTier, mainTier) == AddRow(TallyOf(ts[..i], byTier, mainTier), ts[i], byTier, mainTier)
  {
    assert ts[..i + 1][..i] == ts[..i];
  }

  /** Without a configured main tier every opponent tier is unclassified: both tallies stay empty. */
  lemma {:induction false} UnknownMainTierTalliesNothing(ts: seq<Tier>, byTier: map<Tier, TierStats>, mainTier: Tier)
    requires mainTier !in TierOrder
    ensures TallyOf(ts, byTier, mainTier) == Tallies(0, 0, 0, 0)
    decreases |ts|
  {
    if |ts| > 0 {
      UnknownMainTierTalliesNothing(ts[..|ts| - 1], byTier, mainTier);
    }
  }

  /** Componentwise sum of two tallies. */
  function AddTallies(a: Tallies, b: Tallies): Tallies {
    Tallies(a.upperGames + b.upperGames, a.upperWins + b.upperWins,
            a.lowerGames + b.lowerGames, a.lowerWins + b.lowerWins)
  }

  /** Tallying two stretches of tiers one after the other adds their tallies. */
  lemma {:induction false} TallyAppend(ts: seq<Tier>, us: seq<Tier>, byTier: map<Tier, TierStats>, mainTier: Tier)
    ensures TallyOf(ts + us, byTier, mainTier) == AddTallies(TallyOf(ts, byTier, mainTier), TallyOf(us, byTier, mainTier))
    decreases |us|
  {
    if |us| == 0 {
      assert ts + us == ts;
    } else {
      var p, u := us[..|us| - 1], us[|us| - 1];
      Seqs.DropLastOfAppend(ts, us);
      TallyAppend(ts, p, byTier, mainTier);
      AddRowShift(TallyOf(ts, byTier, mainTier), TallyOf(p, byTier, mainTier), u, byTier, mainTier);
    }
  }

  /** Adding a row after summing two tallies is adding it to the second one. */
  lemma AddRowShift(a: Tallies, b: Tallies, t: Tier, byTier: map<Tier, TierStats>, mainTier: Tier)
    ensures AddRow(AddTallies(a, b), t, byTier, mainTier) == AddTallies(a, AddRow(b, t, byTier, mainTier))
  {
  }

  /** Over tiers that are all upper, the upper tally is their whole sum and the lower tally is empty. */
  lemma {:induction false} AllUpperTally(ts: seq<Tier>, byTier: map<Tier, TierStats>, mainTier: Tier)
    requires forall i :: 0 <= i < |ts| ==> TierRelation(mainTier, ts[i]) == UpperTier
    ensures TallyOf(ts, byTier, mainTier) == Tallies(SumAll(ts, byTier).0, SumAll(ts, byTier).1, 0, 0)
    decreases |ts|
  {
    if |ts| > 0 {
      AllUpperTally(ts[..|ts| - 1], byTier, mainTier);
    }
  }

  /** Over tiers that are all lower, the lower tally is their whole sum and the upper tally is empty. */
  lemma {:induction false} AllLowerTally(ts: seq<Tier>, byTier: map<Tier, TierStats>, mainTier: Tier)
    requires forall i :: 0 <= i < |ts| ==> TierRelation(mainTier, ts[i]) == LowerTier
    ensures TallyOf(ts, byTier, mainTier) == Tallies(0, 0, SumAll(ts, byTier).0, SumAll(ts, byTier).1)
    decreases |ts|
  {
    if |ts| > 0 {
      AllLowerTally(ts[..|ts| - 1], byTier, mainTier);
    }
  }

  /**
   Over tiers that are upper before position `k`, the main tier at `k` and
   lower after it, the upper tally sums the rows before `k` and the lower
   tally the rows after it.
   */
  lemma SplitTally(ts: seq<Tier>, k: int, byTier: map<Tier, TierStats>, mainTier: Tier)
    requires 0 <= k < |ts|
    requires forall i :: 0 <= i < k ==> TierRelation(mainTier, ts[i]) == UpperTier
    requires TierRelation(mainTier, ts[k]) == SameTier
    requires forall i :: k < i < |ts| ==> TierRelation(mainTier, ts[i]) == LowerTier
    ensures var t := TallyOf(ts, byTier, mainTier);
      && t.upperGames == SumAll(ts[..k], byTier).0 && t.upperWins == SumAll(ts[..k], byTier).1
      && t.lowerGames == SumAll(ts[k + 1..], byTier).0 && t.lowerWins == SumAll(ts[k + 1..], byTier).1
  {
    var above, here, below := ts[..k], [ts[k]], ts[k + 1..];
    var sa, sb := SumAll(above, byTier), SumAll(below, byTier);
    assert TallyOf(above, byTier, mainTier) == Tallies(sa.0, sa.1, 0, 0) by {
      AllUpperTally(above, byTier, mainTier);
    }
    assert TallyOf(below, byTier, mainTier) == Tallies(0, 0, sb.0, sb.1) by {
      assert forall i :: 0 <= i < |below| ==> below[i] == ts[k + 1 + i];
      AllLowerTally(below, byTier, mainTier);
    }
    assert TallyOf(here, byTier, mainTier) == Tallies(0, 0, 0, 0) by {
      assert here[..0] == [];
    }
    assert TallyOf(ts, byTier, mainTier) == AddTallies(AddTallies(TallyOf(above, byTier, mainTier), TallyOf(here, byTier, mainTier)), TallyOf(below, byTier, mainTier)) by {
      Seqs.SplitAround(ts, k);
      TallyAppend(above, here, byTier, mainTier);
      TallyAppend(above + here, below, byTier, mainTier);
    }
  }

  /**
   For the main tier at position `k` of the configured order, the upper tally
   is the sum of the table rows of the tiers before `k`, the lower tally the
   sum of those after `k`; the main tier's own row goes to neither.
   */
  lemma SplitAtMainTier(k: nat, byTier: map<Tier, TierStats>)
    requires k < |TierOrder|
    ensures var t := TallyOf(TierOrder, byTier, TierOrder[k]);
      && t.upperGames == SumAll(TierOrder[..k], byTier).0 && t.upperWins == SumAll(TierOrder[..k], byTier).1
      && t.lowerGames == SumAll(TierOrder[k + 1..], byTier).0 && t.lowerWins == SumAll(TierOrder[k + 1..], byTier).1
  {
    var mainTier := TierOrder[k];
    IndexOfOrder(k);
    forall i | 0 <= i < |TierOrder|
      ensures IndexOf(TierOrder[i]) == i
    {
      IndexOfOrder(i);
    }
    SplitTally(TierOrder, k, byTier, mainTier);
  }

  /**
   The tally the booklet's loop computes, for any main tier: split at the
   main tier's position when it is configured, empty when it is not.
   */
  lemma TallyOfOrder(mainTier: Tier, byTier: map<Tier, TierStats>)
    ensures var t := TallyOf(TierOrder, byTier, mainTier);
      && (mainTier in TierOrder ==> var above := SumAll(TierOrder[..IndexOf(mainTier)], byTier);
            t.upperGames == above.0 && t.upperWins == above.1)
      && (mainTier in TierOrder ==> var below := SumAll(TierOrder[IndexOf(mainTier) + 1..], byTier);
            t.lowerGames == below.0 && t.lowerWins == below.1)
      && (mainTier !in TierOrder ==> t == Tallies(0, 0, 0, 0))
  {
    if mainTier in TierOrder {
      SplitAtMainTier(IndexOf(mainTier), byTier);
    } else {
      UnknownMainTierTalliesNothing(TierOrder, byTier, mainTier);
    }
  }

  // ---------------------------------------------------------------------------
  // The expectation labels of the tier-competitiveness summary
  // ---------------------------------------------------------------------------

  /** How a summary rate compares with what the booklet expects of it, best first. */
  datatype Expectation = AboveExpected | AsExpected | BelowExpected

  function ExpectationRank(e: Expectation): nat {
    match e
    case AboveExpected => 2
    case AsExpected => 1
    case BelowExpected => 0
  }

  /** Two thresholds, each inclusive: the rate at or above `hi`, at or above `lo`, or below. */
  function ExpectationOf(rate: real, hi: real, lo: real): (e: Expectation)
    requires lo <= hi
    ensures e == AboveExpected <==> rate >= hi
    ensures e == AsExpected <==> lo <= rate < hi
    ensures e == BelowExpected <==> rate < lo
  {
    if rate >= hi then AboveExpected
    else if rate >= lo then AsExpected
    else BelowExpected
  }

  /** A higher rate never gets a worse label. */
  lemma ExpectationMonotone(a: real, b: real, hi: real, lo: real)
    requires lo <= hi && a <= b
    ensures ExpectationRank(ExpectationOf(a, hi, lo)) <= ExpectationRank(ExpectationOf(b, hi, lo))
  {
  }

  /**
   The three rows of the summary: the upper-tier rate against 40 and 25, the
   same-tier rate against 55 and 45, the lower-tier rate against 70 and 60.
   */
  function SummaryLabels(s: TierSummary): (labels: (Expectation, Expectation, Expectation))
    ensures labels.0 == AboveExpected <==> s.upperRate >= 40.0
    ensures labels.0 == BelowExpected <==> s.upperRate < 25.0
    ensures labels.1 == AboveExpected <==> s.sameTierRate >= 55.0
    ensures labels.1 == BelowExpected <==> s.sameTierRate < 45.0
    ensures labels.2 == AboveExpected <==> s.lowerRate >= 70.0
    ensures labels.2 == BelowExpected <==> s.lowerRate < 60.0
  {
    (ExpectationOf(s.upperRate, 40.0, 25.0), ExpectationOf(s.sameTierRate, 55.0, 45.0),
     ExpectationOf(s.lowerRate, 70.0, 60.0))
  }

  /**
   With no upper-tier games the upper rate is 0, so the upper row always
   reads below expectation; the same holds for the lower row.
   */
  lemma EmptyTallyReadsBelow(s: TierSummary)
    requires s.upperRate == WinRate(s.tally.upperWins, s.tally.upperGames)
    requires s.lowerRate == WinRate(s.tally.lowerWins, s.tally.lowerGames)
    ensures s.tally.upperGames == 0 ==> SummaryLabels(s).0 == BelowExpected
    ensures s.tally.lowerGames == 0 ==> SummaryLabels(s).2 == BelowExpected
  {
  }

  // ---------------------------------------------------------------------------
  // Grade bands
  // ---------------------------------------------------------------------------

  /** The indicator grades of the booklet's MVP table. */
  datatype Grade = S | A | B | C | D

  function GradeRank(g: Grade): nat {
    match g
    case S => 4
    case A => 3
    case B => 2
    case C => 1
    case D => 0
  }

  /** S from 80, A from 60, B from 40, C from 20, D below. */
  function GradeOf(score: real): (g: Grade)
    ensures g == S <==> score >= 80.0
    ensures g == A <==> 60.0 <= score < 80.0
    ensures g == B <==> 40.0 <= score < 60.0
    ensures g == C <==> 20.0 <= score < 40.0
    ensures g == D <==> score < 20.0
  {
    if score >= 80.0 then S
    else if score >= 60.0 then A
    else if score >= 40.0 then B
    else if score >= 20.0 then C
    else D
  }

  /** A higher score never gets a lower grade. */
  lemma GradeMonotone(a: real, b: real)
    requires a <= b
    ensures GradeRank(GradeOf(a)) <= GradeRank(GradeOf(b))
  {
  }

  /** The evaluation mark of a row of the opponent-tier table. */
  datatype Mark = Excellent | Fine | Fair | NeedsWork

  function MarkRank(m: Mark): nat {
    match m
    case Excellent => 3
    case Fine => 2
    case Fair => 1
    case NeedsWork => 0
  }

  /** `우수` from 60, `양호` from 50, `보통` from 40, `개선필요` below. */
  function EvalMark(winRate: real): (m: Mark)
    ensures m == Excellent <==> winRate >= 60.0
    ensures m == Fine <==> 50.0 <= winRate < 60.0
    ensures m == Fair <==> 40.0 <= winRate < 50.0
    ensures m == NeedsWork <==> winRate < 40.0
  {
    if winRate >= 60.0 then Excellent
    else if winRate >= 50.0 then Fine
    else if winRate >= 40.0 then Fair
    else NeedsWork
  }

  /** A higher win rate never gets a lower mark. */
  lemma EvalMarkMonotone(a: real, b: real)
    requires a <= b
    ensures MarkRank(EvalMark(a)) <= MarkRank(EvalMark(b))
  {
  }

  // ---------------------------------------------------------------------------
  // Monthly trend marks and the half-season split
  // ---------------------------------------------------------------------------

  /** One month of the member's monthly table. */
  datatype MonthStats = MonthStats(month: int, games: nat, wins: nat, winRate: real)

  function MonthKey(m: MonthStats): real {
    m.month as real
  }

  /** `UP`, `DOWN` and `-`. */
  datatype Trend = Up | Down | Level

  /**
   The trend column: the months in month order, the first marked `-`, every
   later one `UP` when its win rate beats the previous month's by more than 5
   points, `DOWN` when it trails by more than 5, `-` otherwise.
   */
  method TrendMarks(monthly: seq<MonthStats>) returns (months: seq<MonthStats>, marks: seq<Trend>)
    ensures multiset(months) == multiset(monthly)
    ensures forall i, j :: 0 <= i < j < |months| ==> months[i].month <= months[j].month
    ensures |marks| == |months|
    ensures |marks| > 0 ==> marks[0] == Level
    ensures forall i :: 0 < i < |marks| ==> (marks[i] == Up <==> months[i].winRate > months[i - 1].winRate + 5.0)
    ensures forall i :: 0 < i < |marks| ==> (marks[i] == Down <==> months[i].winRate < months[i - 1].winRate - 5.0)
  {
    months := Sorting.SortBy(monthly, MonthKey);
    assert forall i, j :: 0 <= i < j < |months| ==> MonthKey(months[i]) <= MonthKey(months[j]);
    marks := MarkMonths(months);
  }

  /**
   The trend loop over months already in order: the first month is `-`, and
   each later one is compared with the month before it.
   */
  method MarkMonths(months: seq<MonthStats>) returns (marks: seq<Trend>)
    ensures |marks| == |months|
    ensures |marks| > 0 ==> marks[0] == Level
    ensures forall i :: 0 < i < |marks| ==> (marks[i] == Up <==> months[i].winRate > months[i - 1].winRate + 5.0)
    ensures forall i :: 0 < i < |marks| ==> (marks[i] == Down <==> months[i].winRate < months[i - 1].winRate - 5.0)
  {
    marks := [];
    var prev: real := 0.0;
    var i := 0;
    while i < |months|
      invariant 0 <= i <= |months|
      invariant |marks| == i
      invariant i > 0 ==> prev == months[i - 1].winRate
      invariant i > 0 ==> marks[0] == Level
      invariant forall k :: 0 < k < i ==> (marks[k] == Up <==> months[k].winRate > months[k - 1].winRate + 5.0)
      invariant forall k :: 0 < k < i ==> (marks[k] == Down <==> months[k].winRate < months[k - 1].winRate - 5.0)
    {
      var rate := months[i].winRate;
      var trend := Level;
      if i > 0 {
        if rate > prev + 5.0 {
          trend := Up;
        } else if rate < prev - 5.0 {
          trend := Down;
        }
      }
      marks := marks + [trend];
      prev := rate;
      i := i + 1;
    }
  }

  /** The games and wins of the months on one side of the June/July cut. */
  function HalfSums(monthly: seq<MonthStats>, firstHalf: bool): (gw: (nat, nat))
    decreases |monthly|
  {
    if |monthly| == 0 then (0, 0)
    else
      var (g, w) := HalfSums(monthly[..|monthly| - 1], firstHalf);
      var m := monthly[|monthly| - 1];
      if (m.month <= 6) == firstHalf then (g + m.games, w + m.wins) else (g, w)
  }

  /** The games and wins of all months. */
  function Totals(monthly: seq<MonthStats>): (gw: (nat, nat))
    decreases |monthly|
  {
    if |monthly| == 0 then (0, 0)
    else
      var (g, w) := Totals(monthly[..|monthly| - 1]);
      (g + monthly[|monthly| - 1].games, w + monthly[|monthly| - 1].wins)
  }

  /** The half-season comparison of the booklet. */
  datatype HalfSeason = HalfSeason(firstGames: nat, firstWins: nat, secondGames: nat, secondWins: nat,
                                   firstRate: real, secondRate: real, growth: real)

  /**
   The half-season loop: months up to June count for the first half, later
   ones for the second; an empty half has win rate 0.
   */
  method SplitSeason(monthly: seq<MonthStats>) returns (h: HalfSeason)
    ensures (h.firstGames, h.firstWins) == HalfSums(monthly, true)
    ensures (h.secondGames, h.secondWins) == HalfSums(monthly, false)
    ensures h.firstGames + h.secondGames == Totals(monthly).0
    ensures h.firstWins + h.secondWins == Totals(monthly).1
    ensures h.firstRate == WinRate(h.firstWins, h.firstGames)
    ensures h.secondRate == WinRate(h.secondWins, h.secondGames)
    ensures h.growth == h.secondRate - h.firstRate
  {
    var fg, fw, sg, sw := 0, 0, 0, 0;
    var i := 0;
    while i < |monthly|
      invariant 0 <= i <= |monthly|
      invariant (fg, fw) == HalfSums(monthly[..i], true)
      invariant (sg, sw) == HalfSums(monthly[..i], false)
    {
      assert monthly[..i + 1][..i] == monthly[..i];
      var m := monthly[i];
      if m.month <= 6 {
        fg, fw := fg + m.games, fw + m.wins;
      } else {
        sg, sw := sg + m.games, sw + m.wins;
      }
      i := i + 1;
    }
    assert monthly[..|monthly|] == monthly;
    HalvesCoverSeason(monthly);
    var fr, sr := WinRate(fw, fg), WinRate(sw, sg);
    h := HalfSeason(fg, fw, sg, sw, fr, sr, sr - fr);
  }

  /** The verdict on the half-season growth. */
  datatype GrowthVerdict = ClearGrowth | Held | Dropped

  /** Clear growth from +5 points, held from 0, dropped below 0. */
  function GrowthVerdictOf(growth: real): (v: GrowthVerdict)
    ensures v == ClearGrowth <==> growth >= 5.0
    ensures v == Held <==> 0.0 <= growth < 5.0
    ensures v == Dropped <==> growth < 0.0
  {
    if growth >= 5.0 then ClearGrowth
    else if growth >= 0.0 then Held
    else Dropped
  }

  /** A season with no second-half games reads as a drop unless the first half was winless too. */
  lemma EmptySecondHalfDrops(h: HalfSeason)
    requires h.secondGames == 0 && h.firstWins <= h.firstGames
    requires h.firstRate == WinRate(h.firstWins, h.firstGames)
    requires h.secondRate == WinRate(h.secondWins, h.secondGames)
    requires h.growth == h.secondRate - h.firstRate
    ensures GrowthVerdictOf(h.growth) == Dropped <==> h.firstWins > 0
  {
    assert h.firstRate == 0.0 ==> h.firstRate * (h.firstGames as real) == 0.0;
  }

  /** Every month falls in exactly one half: the halves add up to the season. */
  lemma {:induction false} HalvesCoverSeason(monthly: seq<MonthStats>)
    ensures HalfSums(monthly, true).0 + HalfSums(monthly, false).0 == Totals(monthly).0
    ensures HalfSums(monthly, true).1 + HalfSums(monthly, false).1 == Totals(monthly).1
    decreases |monthly|
  {
    if |monthly| > 0 {
      HalvesCoverSeason(monthly[..|monthly| - 1]);
    }
  }
}
