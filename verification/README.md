# KU season analysis: tier timeline and decision rules

This project models the core of the KU club's annual-report scripts in Dafny and proves properties of the model.

The model covers four parts of the scripts:

- **Preprocessing** (`01_data_preprocessing.py`). It builds a per-player tier timeline from the game log. Each player's rows are sorted by date and the `(date, tier)` sightings are run-length collapsed into a change list. The first tier, last tier and change count are stored beside the list. Members and opponents get one store each.
- **Matchup tally** (also `01_data_preprocessing.py`). The as-of lookup `get_tier_at_date` scans a change list. The classifier sorts one game into `same`, `upper`, `lower` or `unknown`. The per-member loop counts every game in exactly one of those four buckets.
- **Pattern discovery** (`02_pattern_discovery.py`). It has its own copy of the as-of lookup and a second opponent lookup that reads the game log directly. It also holds the win-rate bands, the tier-growth story, the half-season trend and the same-tier game filter.
- **MVP analysis** (`05_analyze_mvp.py`) and **member booklet** (`06_generate_report.py`).
  - The MVP side covers the tier-level scale, the upward, downward and tier-gap game selections, the longest win streak, the seven clamped indicator scores, their weighted total and the ranking.
  - The booklet side covers the race names, the upper/same/lower relation read off list positions, the upper and lower tallies, the grade and mark bands, the month-over-month trend marks and the half-season split.

Modules follow the scripts:

- `Tiers`: the labels, the preprocessing rank map and the configured tier order.
- `Timeline`: the timeline builder.
- `AsOf`: the as-of lookup.
- `Matchup`: the classifier and bucket tally.
- `Patterns`: the rules of the pattern-discovery step.
- `MvpGames` and `MvpScores`: the MVP analysis.
- `Report`: the booklet rules.
- `Sorting`: a stable insertion sort that stands for the scripts' sorts.
- `Options`: the optional value.

Modelling choices:

- Tier labels are strings. Dates are integers that compare like the zero-padded `YYYY-MM-DD` strings of the source.
- Win rates and scores are exact reals without rounding.
- Statistics the scripts get from numpy are inputs: a standard deviation, a coefficient of variation and a fitted slope.

Three behaviours of the code that the model keeps as written:

- Change lists may hold several changes on the same date. The code only sorts by date, so the dates are non-decreasing rather than strictly increasing.
- The as-of lookup is the linear scan with an early exit that the code uses. A binary search is modelled beside it and proved to compute the same tier on every date-sorted list (`AsOf.TierAsOfBinarySearch`).
- The preprocessing rank map has no entry for `1티어`, so that label ranks 99, below `베이비`. This is modelled as written and documented (`Matchup.ClassifyTier1AsUnranked`).

## Model

| member | source | states |
|---|---|---|
| Tiers.TierNumAgainstOrder | ku_annual/scripts/01_data_preprocessing.py:28-31 | For every configured tier after the first, the preprocessing rank is its list position plus one. `1티어` falls back to 99, which ranks it worse than `베이비`. |
| Tiers.IndexOf | ku_annual/scripts/06_generate_report.py:397-400 | The position of a label in the tier order. It is -1 exactly when the label is not in the order, and otherwise points at the label's first occurrence. |
| Sorting.SortBy | ku_annual/scripts/01_data_preprocessing.py:51 | The sort returns a permutation of its input, ordered non-decreasingly by the key. |
| Sorting.SortByStable | ku_annual/scripts/01_data_preprocessing.py:51 | Elements with equal keys keep their input order. |
| Timeline.Collapse | ku_annual/scripts/01_data_preprocessing.py:54-65 | The change list is empty only for no sightings and is never longer than the sightings. It starts with the first sighting and ends on the last sighting's tier. Each entry is one of the sightings, and no two adjacent entries share a tier. |
| Timeline.CollapseIsDedup | ku_annual/scripts/01_data_preprocessing.py:54-65 | Read as a tier sequence, the change list is the sightings' tiers with adjacent repeats removed, checked against an independent front-recursive dedup. |
| Timeline.CollapseSorted | ku_annual/scripts/01_data_preprocessing.py:51-65 | Date-sorted sightings give a date-sorted change list. |
| Timeline.BuildHistory | ku_annual/scripts/01_data_preprocessing.py:67-72 | `first_tier` and `last_tier` are the first and last sighted tiers, or `None` without sightings. `tier_count` is the length of the change list. |
| Timeline.SortedRowsOf | ku_annual/scripts/01_data_preprocessing.py:50-51 | A player's rows are exactly the log rows naming that player in the column, each kept once, in date order. |
| Timeline.PlayerSightingRecorded | ku_annual/scripts/01_data_preprocessing.py:57-64 | Every sighting of a player is the date and tier recorded in one of that player's rows. |
| Timeline.BuildTierHistory | ku_annual/scripts/01_data_preprocessing.py:38-72 | The member store has exactly one entry per member name seen in the log. That entry is the history built from the member's date-sorted sightings. |
| Timeline.BuildOpponentTierHistory | ku_annual/scripts/01_data_preprocessing.py:371-398 | The opponent store has exactly one entry per opponent name, built from the opponent-tier sightings by the same sort and collapse. The source's opponent record holds only the change list, first tier and last tier; the model's extra `tierCount` is never read through this store. |
| Timeline.StoredHistoryWellFormed | ku_annual/scripts/01_data_preprocessing.py:50-72 | Every stored history is non-empty and date-sorted, has no adjacent repeats, and its summary fields match the ends of its change list. |
| AsOf.GetTierAtDate | ku_annual/scripts/01_data_preprocessing.py:90-106 | An unknown player gives `None`. On a date-sorted change list the result is the tier of the last change dated on or before the query. |
| AsOf.ScanIsTierAsOf | ku_annual/scripts/01_data_preprocessing.py:98-106 | Started with no tier, the scan of a date-sorted change list returns the tier of the last change dated on or before the query, or `None` if there is none. |
| AsOf.ScanFindsLast | ku_annual/scripts/01_data_preprocessing.py:98-106 | On a sorted list, the scan with early exit returns the tier of the last change dated on or before the query. It returns its starting value when no such change exists. |
| AsOf.TierAsOfBinarySearch | ku_annual/scripts/01_data_preprocessing.py:98-106 | A binary search computes the same tier as the linear scan and as the reference definition. |
| AsOf.AsOfBeforeFirst | ku_annual/scripts/01_data_preprocessing.py:99-104 | A query dated before the first change gives `None`: no back-dating. |
| AsOf.AsOfAtOrAfterLast | ku_annual/scripts/01_data_preprocessing.py:99-104 | A query on or after the last change date gets the last change's tier. |
| AsOf.AsOfInclusive | ku_annual/scripts/01_data_preprocessing.py:101 | The date comparison is inclusive. A query dated exactly on a change sees that change, unless a later change falls on the same date. |
| AsOf.AsOfCollapse | ku_annual/scripts/01_data_preprocessing.py:54-65 | Collapsing loses nothing an as-of query sees. The as-of tier of the change list equals the tier of the last sighting on or before the query. |
| AsOf.GetTierAtDateIsLastSighting | ku_annual/scripts/01_data_preprocessing.py:90-106 | On a built store, the lookup returns the tier of the player's last sighting on or before the query date. |
| AsOf.GetTierAtDateCases | ku_annual/scripts/01_data_preprocessing.py:90-106 | On a built store, an unknown player or a date before the first change gives `None`. A date on or after the last change gives the stored `last_tier`. |
| Matchup.Classify | ku_annual/scripts/01_data_preprocessing.py:108-121 | `unknown` exactly when either tier is `None` or empty. Otherwise `same`, `upper` or `lower` exactly when the member's rank is equal to, greater than or less than the opponent's. |
| Matchup.ClassifySwap | ku_annual/scripts/01_data_preprocessing.py:116-121 | Swapping the two sides swaps `upper` and `lower` and leaves the other buckets unchanged. |
| Matchup.ClassifyTier1AsUnranked | ku_annual/scripts/01_data_preprocessing.py:113-121 | A `1티어` opponent against a `베이비` member counts as `lower`. `1티어` ties with any unmapped label. |
| Matchup.WinRate | ku_annual/scripts/01_data_preprocessing.py:434-439 | The rate is 0 without games, lies in [0, 100] when wins do not exceed games, and times the games equals 100 times the wins. |
| Matchup.CountsPartition | ku_annual/scripts/01_data_preprocessing.py:408-432 | The four bucket counts add up to the number of classified games. |
| Matchup.CountBuckets | ku_annual/scripts/01_data_preprocessing.py:415-432 | After the loop each bucket holds the number of games classified into it and the number of those won. In every bucket, wins plus losses equal the total. |
| Matchup.AnalyzeTierMatchup | ku_annual/scripts/01_data_preprocessing.py:400-441 | Every game is counted in the bucket of its as-of classification, and the four totals add up to the member's games. Each win rate is wins over games, and 0 for an empty bucket. |
| Matchup.OwnGamesResolve | ku_annual/scripts/01_data_preprocessing.py:420-422 | On the stores built from a log, both sides of every game of that log resolve to some tier on the game's date. |
| Matchup.ResolvedTierIsLatest | ku_annual/scripts/01_data_preprocessing.py:98-106 | A resolved tier was recorded in one of the player's rows dated on or before the query. No row of that player on or before the query is dated later. |
| Matchup.UnresolvedHasNoRowBefore | ku_annual/scripts/01_data_preprocessing.py:98-106 | A player whose tier is unknown on a date has no row dated on or before it. |
| Matchup.NoUnknownWithoutEmptyLabels | ku_annual/scripts/01_data_preprocessing.py:110-111 | On a log without empty tier cells, no game of the log lands in `unknown`. |
| Patterns.MemberTierAtDate | ku_annual/scripts/02_pattern_discovery.py:1026-1041 | The pattern step's loop computes the preprocessing lookup on every store. It gives `None` for an unknown member and the reference as-of tier on a date-sorted list. |
| Patterns.RowsOnOrBefore | ku_annual/scripts/02_pattern_discovery.py:1053 | The kept rows are exactly those dated on or before the query. |
| Patterns.OpponentLookupsAgree | ku_annual/scripts/02_pattern_discovery.py:1043-1057 | Reading the last game on or before the date from the log gives the same tier as the as-of lookup in the opponent store built by preprocessing. |
| Patterns.OpponentTierAtDateCases | ku_annual/scripts/02_pattern_discovery.py:1046-1057 | The lookup gives `None` exactly when the opponent has no game on or before the date. Otherwise the result is the opponent tier of a latest such game. |
| Patterns.EvaluateWinRate | ku_annual/scripts/02_pattern_discovery.py:721-740 | Five bands with inclusive lower bounds at 65, 55, 50 and 45, each stated as an if-and-only-if. |
| Patterns.EvaluateWinRateMonotone | ku_annual/scripts/02_pattern_discovery.py:731-740 | A higher win rate never lands in a worse band. |
| Patterns.StoryTierNum | ku_annual/scripts/02_pattern_discovery.py:445 | The story's rank dictionary has exactly the tiers after `1티어`, with the preprocessing ranks. |
| Patterns.TierGrowthStory | ku_annual/scripts/02_pattern_discovery.py:440-463 | No story for at most one change. Explosive growth means at least two steps. The missing-key error can only arise after a change. |
| Patterns.StoryIffClimbed | ku_annual/scripts/02_pattern_discovery.py:445-463 | Take end tiers at positions `i` and `j` of the configured order, neither of them `1티어`. A story is told exactly when the last tier stands higher than the first. It is a promotion exactly for one place up, and explosive growth exactly from two places up, with growth `i - j`. |
| Patterns.StoryTier1Raises | ku_annual/scripts/02_pattern_discovery.py:445-446 | A history starting or ending in `1티어` after a change hits the missing key. |
| Patterns.SplitMonths | ku_annual/scripts/02_pattern_discovery.py:290-293 | With fewer than six months there is no split. Otherwise the first half holds the lower half (rounded down) of the months, the halves together are a sorted permutation of the months, and no first-half month is later than a second-half one. |
| Patterns.TrendOf | ku_annual/scripts/02_pattern_discovery.py:298-318 | Improving exactly when the second half is at least 8 points better, and declining exactly when it is at least 8 points worse. |
| Patterns.TrendReversed | ku_annual/scripts/02_pattern_discovery.py:300-318 | Swapping the halves swaps improving and declining. |
| Patterns.SameTierGames | ku_annual/scripts/02_pattern_discovery.py:975-983 | The kept games are exactly the member's games whose two as-of tiers are equal, both `None` included. |
| Patterns.SameTierKeepsBothUnknown | ku_annual/scripts/02_pattern_discovery.py:979-983 | A game where neither tier resolves is kept. |
| Patterns.SameLabelIffSameRank | ku_annual/scripts/02_pattern_discovery.py:982 | Equal known labels classify as `same`. For labels with a story rank, `same` implies equal labels. |
| Patterns.MatchupAgainstLogLookup | ku_annual/scripts/02_pattern_discovery.py:1043-1057 | A game's preprocessing bucket is the member's stored tier classified against the opponent tier read off the log. |
| Patterns.SameTierKeptIsSameBucket | ku_annual/scripts/02_pattern_discovery.py:975-983 | On a log without empty labels, every game the filter keeps is in the preprocessing `same` bucket. |
| Patterns.SameBucketRankedIsKept | ku_annual/scripts/02_pattern_discovery.py:975-983 | A `same`-bucket game whose two tiers have story ranks is kept by the filter. |
| MvpGames.TierLevel | ku_annual/scripts/05_analyze_mvp.py:35 | The level is 0 exactly for labels outside the order and never exceeds the order's length. |
| MvpGames.TierLevelAlongOrder | ku_annual/scripts/05_analyze_mvp.py:35 | Levels strictly decrease along the order, from 9 for `1티어` to 1 for `베이비`. |
| MvpGames.TierLevelAgainstRank | ku_annual/scripts/05_analyze_mvp.py:35 | For every configured tier after the first, the level is 10 minus the preprocessing rank. |
| MvpGames.Select | ku_annual/scripts/05_analyze_mvp.py:237-241 | A selection keeps exactly the games whose opponent level stands in the selected relation to the main tier's level. |
| MvpGames.SelectionsPartition | ku_annual/scripts/05_analyze_mvp.py:305-309 | Upward, downward and even games partition the member's games: their sizes add up and no game is both upward and downward. |
| MvpGames.UnmappedOpponentIsDownward | ku_annual/scripts/05_analyze_mvp.py:305-309 | Against a configured main tier, an opponent label outside the order is never upward and always downward. |
| MvpGames.GapSetsCumulative | ku_annual/scripts/05_analyze_mvp.py:253-259 | The gap-1 set lies inside the gap-2 set, that inside the gap-3 set, and that inside the upward set. |
| MvpGames.GapOfUpwardIsGap | ku_annual/scripts/05_analyze_mvp.py:255-259 | Filtering the upward games by gap gives the gap set of all the games. |
| MvpGames.MaxStreak | ku_annual/scripts/05_analyze_mvp.py:186-194 | The loop returns the length of a run of wins that exists in the results, and no run of wins is longer. |
| MvpScores.Clamp100 | ku_annual/scripts/05_analyze_mvp.py:198 | The result lies in [0, 100]. Values inside are kept, and values outside go to the nearer bound. |
| MvpScores.Scaled | ku_annual/scripts/05_analyze_mvp.py:198 | A clamped linear score always lies in [0, 100]. |
| MvpScores.ScaledShape | ku_annual/scripts/05_analyze_mvp.py:142-148 | The score is 0 at and below the low anchor and 100 at and above the high anchor. Between them it lies on the line through both, and it never drops for a higher input. |
| MvpScores.CappedScore | ku_annual/scripts/05_analyze_mvp.py:201 | A capped count score lies in [0, 100] and is 100 exactly from the full-marks count on. |
| MvpScores.Reliability | ku_annual/scripts/05_analyze_mvp.py:204 | Reliability lies in [0, 1] and is 1 exactly from the full-trust game count on. |
| MvpScores.DiscountNeverRaises | ku_annual/scripts/05_analyze_mvp.py:204-208 | Discounting by reliability never raises a non-negative base score. |
| MvpScores.Consistency | ku_annual/scripts/05_analyze_mvp.py:64-68 | The consistency share lies in (0, 1]. |
| MvpScores.ActivityScoreAsWritten | ku_annual/scripts/05_analyze_mvp.py:49-97 | The written activity score is non-negative. It stays within 100 only while the active months do not exceed 11. |
| MvpScores.ActivityScoreAsWrittenExceeds100 | ku_annual/scripts/05_analyze_mvp.py:70-83 | 804 games, 67 in each of the 12 months (so the monthly counts have standard deviation 0 and cv 0), score above 100. |
| MvpScores.ActivityScore | ku_annual/scripts/05_analyze_mvp.py:49-97 | The corrected score lies in [0, 100]. It equals the written formula whenever the active months do not exceed 11. |
| MvpScores.RecentImprovement | ku_annual/scripts/05_analyze_mvp.py:130-138 | The term lies in [-100, 100] and is 0 unless both the early and the recent months have at least 10 games. |
| MvpScores.GrowthScore | ku_annual/scripts/05_analyze_mvp.py:99-151 | The score lies in [0, 100] and is 0 without growth data or with fewer than 50 games. Its recent part is the recent improvement of the early and recent month counts. |
| MvpScores.GrowthRisesWithRecentWins | ku_annual/scripts/05_analyze_mvp.py:130-151 | With everything else fixed, more wins in months 9 onwards never lower the growth score. |
| MvpScores.SameTierScore | ku_annual/scripts/05_analyze_mvp.py:179-208 | The score lies in [0, 100] and is 0 under 10 same-tier games. |
| MvpScores.SameTierDominance | ku_annual/scripts/05_analyze_mvp.py:165-208 | The score is 0 without a main tier. Otherwise it is computed from the game count, wins and the true longest win run. A perfect record of at least 50 games scores 100. |
| MvpScores.LongestRunIsMax | ku_annual/scripts/05_analyze_mvp.py:186-194 | Any achieved run length that no run exceeds is the longest run. |
| MvpScores.UpwardScore | ku_annual/scripts/05_analyze_mvp.py:243-276 | The scoring part of the upward challenge, from the member's game count and the upward games and wins: the score lies in [0, 100] and is 0 without upward games. |
| MvpScores.UpwardChallenge | ku_annual/scripts/05_analyze_mvp.py:223-276 | A main tier outside the tier order scores 0. Otherwise the upward games are the member's rows whose opponent tier ranks above the main tier, and the result is the upward score of their count and wins; a positive score needs such a game. The result lies in [0, 100]. |
| MvpScores.DownwardScore | ku_annual/scripts/05_analyze_mvp.py:311-336 | The scoring part of the downward defense, from the downward games, wins and longest win streak: the score lies in [0, 100] and is 0 under 5 downward games. |
| MvpScores.DownwardDefense | ku_annual/scripts/05_analyze_mvp.py:291-336 | A main tier outside the tier order scores 0. Otherwise the downward games are the member's rows whose opponent tier ranks below the main tier (an unknown opponent tier counts as level 0), and the result is the downward score of their count, wins and longest win streak in date order; a positive score needs at least 5 of them. The result lies in [0, 100]. |
| MvpScores.MapScore | ku_annual/scripts/05_analyze_mvp.py:349-396 | The score lies in [0, 100] and is 0 under 30 games or under 3 maps with 5 games. |
| MvpScores.TournamentScore | ku_annual/scripts/05_analyze_mvp.py:413-450 | The score lies in [0, 100] and is 0 under 5 tournament games. |
| MvpScores.WeightsSumToOne | ku_annual/scripts/05_analyze_mvp.py:480-488 | The seven weights are positive and sum to 1. |
| MvpScores.TotalScore | ku_annual/scripts/05_analyze_mvp.py:491-499 | With every indicator in [0, 100], the total lies in [0, 100]. |
| MvpScores.TotalScoreMonotone | ku_annual/scripts/05_analyze_mvp.py:491-499 | Raising any indicator never lowers the total. |
| MvpScores.Ranking | ku_annual/scripts/05_analyze_mvp.py:532-536 | The ranking holds every candidate exactly once, ordered by total from highest to lowest. |
| MvpScores.RankingKeepsTies | ku_annual/scripts/05_analyze_mvp.py:532-536 | Candidates with equal totals keep the order they were scored in. |
| Report.RaceKorean | ku_annual/scripts/06_generate_report.py:39-45 | Codes and Korean names map to the Korean name, and any other string is returned unchanged. |
| Report.RaceKoreanIdempotent | ku_annual/scripts/06_generate_report.py:39-45 | Translating twice gives the same result as translating once. |
| Report.RelationOf | ku_annual/scripts/06_generate_report.py:414-427 | Unclassified exactly when either position is missing. Otherwise upper, same or lower exactly when the opponent sits earlier, at the same place or later. |
| Report.TierRelationAgreesWithLevels | ku_annual/scripts/06_generate_report.py:397-427 | For configured tiers, the booklet's relation agrees with the MVP levels in both directions for upper, same and lower. |
| Report.SummarizeTiers | ku_annual/scripts/06_generate_report.py:389-447 | The loop's tallies are those of walking the order. The same-tier rate is the main tier's row rate, or 0 without a row. The upper and lower rates are wins over games, and 0 for an empty tally. |
| Report.TierRowStep | ku_annual/scripts/06_generate_report.py:402-427 | A tier with a row adds its games and wins to the tally its relation selects, and leaves the tally unchanged otherwise. The same-tier rate becomes the tier's win rate exactly when both list positions exist and are equal. |
| Report.UnknownMainTierTalliesNothing | ku_annual/scripts/06_generate_report.py:397-427 | With a main tier outside the order, both tallies stay empty. |
| Report.TallyAppend | ku_annual/scripts/06_generate_report.py:402-425 | Tallying two stretches of tiers in a row adds their tallies. |
| Report.SplitAtMainTier | ku_annual/scripts/06_generate_report.py:402-425 | The upper tally is the sum of the rows of the tiers before the main tier, and the lower tally the sum of those after it. The main tier's own row counts in neither. |
| Report.TallyOfOrder | ku_annual/scripts/06_generate_report.py:397-425 | For any main tier, the tallies split at its position, or are empty when it is not configured. |
| Report.ExpectationOf | ku_annual/scripts/06_generate_report.py:451-453 | Above, as expected or below, with each band stated as an if-and-only-if on the two inclusive thresholds. |
| Report.ExpectationMonotone | ku_annual/scripts/06_generate_report.py:451-453 | A higher rate never gets a worse label. |
| Report.SummaryLabels | ku_annual/scripts/06_generate_report.py:451-453 | The upper row uses thresholds 40/25, the same-tier row 55/45 and the lower row 70/60. |
| Report.EmptyTallyReadsBelow | ku_annual/scripts/06_generate_report.py:446-453 | An empty upper or lower tally always reads below expectation. |
| Report.GradeOf | ku_annual/scripts/06_generate_report.py:642-651 | S from 80, A from 60, B from 40, C from 20, and D below, each stated as an if-and-only-if. |
| Report.GradeMonotone | ku_annual/scripts/06_generate_report.py:642-651 | A higher score never gets a lower grade. |
| Report.EvalMark | ku_annual/scripts/06_generate_report.py:430-437 | Excellent from 60, fine from 50, fair from 40, and needs work below, each stated as an if-and-only-if. |
| Report.EvalMarkMonotone | ku_annual/scripts/06_generate_report.py:430-437 | A higher win rate never gets a lower mark. |
| Report.TrendMarks | ku_annual/scripts/06_generate_report.py:313-332 | The months come out as a month-sorted permutation of the input, and the first is marked level. Each later month is up exactly when it beats the previous month by more than 5 points, and down exactly when it trails by more than 5. |
| Report.MarkMonths | ku_annual/scripts/06_generate_report.py:313-332 | One mark per month: the first is level. Each later month is up exactly when it beats the month before by more than 5 points, and down exactly when it trails by more than 5. |
| Report.SplitSeason | ku_annual/scripts/06_generate_report.py:341-357 | The halves sum the months up to June and after June, and together they add up to the season. The rates are wins over games, and growth is the second-half rate minus the first. |
| Report.HalvesCoverSeason | ku_annual/scripts/06_generate_report.py:346-353 | Every month falls in exactly one half, so the two halves' games and wins add up to the season's. |
| Report.GrowthVerdictOf | ku_annual/scripts/06_generate_report.py:366-371 | Clear growth from +5 points, held from 0, and dropped below 0, each stated as an if-and-only-if. |
| Report.EmptySecondHalfDrops | ku_annual/scripts/06_generate_report.py:355-371 | With no second-half games, the verdict is a drop exactly when the first half had a win. |

## Left out

- Reading the Excel/CSV/JSON files, writing outputs, printing, charts and the Markdown layout of the booklet are I/O. The model takes the game log as a sequence of rows and the per-member tables as maps and sequences.
- pandas' `sort_values` is not a stable sort. The model sorts with a stable sort, so same-day rows keep their log order; the source leaves that order unspecified.
- Timestamps are modelled as integers that compare like the formatted dates. Time of day and the conversion between `Timestamp` and string are not modelled.
- A missing (NaN) tier cell is not modelled. Tiers are strings, and an empty string stands for a falsy cell.
- Rounding of win rates and scores to two decimals is not modelled. Every rate is an exact real.
- numpy's standard deviation, mean, coefficient of variation and `polyfit` slope are floating-point computations. They are taken as inputs to the score functions.
- The member's main tier is the mode of the member-tier column. It is taken as an input: its presence is `hasMainTier`, and the same-tier results are an input sequence.
- The comment texts and narrative descriptions are text generation. Only the decisions that select them are modelled: bands, trends, stories, grades, marks, expectation labels and the growth verdict.
- Timeline.BuildOpponentTierHistory: the opponent store reuses the member record, so it also carries `tierCount`, which the source's opponent record lacks. No opponent lookup reads that field.
- Patterns.TierGrowthStory: the `KeyError` of a tier missing from the story dictionary is modelled as the outcome `MissingTier` rather than as an exception that aborts the run.
- MvpScores.GrowthScore: the half-season growth comes from the preprocessing growth record and is an input. So are the fitted slope and the count of months with at least 5 games. The game and win counts of months 1-3 and of months 9 onwards are inputs too, since games carry no month; the recent improvement is computed from them by `RecentImprovement`.
- MvpScores.MapScore: the per-map win rates and their standard deviation are inputs, so the contract does not relate them to the game log.
- MvpScores.UpwardScore: the tier-gap win rates are informational details of the source and not part of the score. Only the gap selections are modelled (`MvpGames.Select` with `Gap`).
- Matchup.WinRate: the source rounds to two decimals. The model keeps the exact quotient.

## Findings

| source | as written | input that shows it | evidently intended | confidence | as-written member | corrected member |
|---|---|---|---|---|---|---|
| ku_annual/scripts/05_analyze_mvp.py:70-83 | The activity coverage is active months over a fixed 11 ("January to November"). A season with games in December has up to 12 active months, so coverage exceeds 1. | 804 games, 67 in each of the 12 months (cv 0), give 40 + 40 + 20 * 12/11 = 101.8 | A 0-100 indicator score: coverage capped at 1 (or 12 months in the denominator) | not executed | MvpScores.ActivityScoreAsWrittenExceeds100 | MvpScores.ActivityScore |
