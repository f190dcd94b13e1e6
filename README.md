# WNBA stat projection: a Dafny model of the deterministic core

The system estimates a player's points, rebounds and assists for an upcoming game. It works in these stages:

1. It builds a shared-minutes matrix from the teammates' game logs and takes the player's four most frequent co-players.
2. It pairs each home player with an opposing defender.
3. It derives the adjustment factors: usage rate, adjusted eFG, the assist factor and the rebound factor.
4. It combines them into a projected mean and standard deviation per stat.
5. It samples those distributions in a Monte Carlo loop.

A separate evaluator compares predictions with actual results and grades the model.

This project models every one of those stages once the data is fetched. Game logs, rosters, positions and heights arrive as plain records and sequences. A lookup that can fail becomes an `Option`, and a Python exception becomes `None` or a named failure. Floats are Dafny `real`s, so the properties are about the formulas rather than IEEE arithmetic.

The modules follow the repository's files:

| file | module | models |
|---|---|---|
| `common.dfy` | `Common` | `Option`, min/max/abs/clamp, sums over positive entries, Python-style half-even rounding |
| `numerals.dfy` | `Numerals` | `str.split` on one character, `int()` on sign-and-digits text, `str(n)` |
| `api_client.dfy` | `ApiClient` | `src/data/api_client.py` |
| `data_processor.dfy` | `DataProcessor` | `src/data/data_processor.py` |
| `usage_calculator.dfy` | `UsageCalculator` | `src/model/usage_calculator.py` |
| `matchup_analyzer.dfy` | `MatchupAnalyzer` | `src/model/matchup_analyzer.py` |
| `monte_carlo.dfy` | `MonteCarlo` | `src/model/monte_carlo.py` (and the identical copy in `model.py`) |
| `model_evaluator.dfy` | `ModelEvaluator` | `src/utils/model_evaluator.py` |
| `constants.dfy` | `Constants` | `src/utils/constants.py` |
| `legacy_model.dfy` | `LegacyModel` | the parts of the single-script `model.py` that differ from the package |

Code that changes state step by step is modelled as methods with loops. This covers:

- the shared-minutes accumulation;
- both greedy assignments;
- the usage and assist averaging loops;
- the rebound-factor sums;
- the opponent-team search;
- the Monte Carlo trial loop;
- the evaluator's row loop.

Each of these methods is proved equal to a recursive specification function. The properties (symmetry, injectivity, completeness, bounds, ordering, fallbacks) are then proved about those functions as lemmas.

## Model

| member | source | states |
|---|---|---|
| ApiClient.ParseHeight | src/data/api_client.py:18-22 | A missing or empty height, or one without '-', gives the default 72 inches |
| ApiClient.ParseHeightRoundTrip | src/data/api_client.py:21-22 | Parsing "feet-inches" written out from naturals gives 12 * feet + inches |
| ApiClient.ParseHeightTooManyHyphens | src/data/api_client.py:21 | A height with two or more hyphens raises (unpacking into two names fails) |
| ApiClient.ParseHeightNotInteger | src/data/api_client.py:21 | A height whose feet or inches piece is not an integer raises |
| ApiClient.HeightAndPosition | src/data/api_client.py:24-32 | Either the parsed height and the position, or (72, "G") when the lookup or the parse fails |
| ApiClient.PlayerName | src/data/api_client.py:45-48 | The full name, or "Empty" when the lookup finds nobody |
| ApiClient.RemoveIgnored | src/data/api_client.py:57-60 | A truthy ignore id that is on the roster loses its first occurrence and every other id keeps its order; otherwise the list is unchanged; the multiset is the old one minus that id |
| ApiClient.TeamPossessions | src/data/api_client.py:95-97 | Defined exactly when both sides' aggregates are present; the mean of the two possession counts lies between them |
| ApiClient.TeamPossessionsSwap | src/data/api_client.py:95-97 | Swapping the home and opponent aggregates leaves the estimate unchanged |
| ApiClient.TeamPossessionsExample | src/data/api_client.py:95-97 | (80, 20, 10, 15) against (75, 18, 8, 12) gives 90.36 possessions |
| Numerals.SplitTwo | src/data/api_client.py:21 | Splitting two separator-free pieces joined by the separator gives back exactly those two pieces |
| Numerals.ParseIntOfNatToString | src/data/api_client.py:21 | `int(str(n)) == n` for every natural n |
| Common.Recent | src/model/usage_calculator.py:17 | `head(10)`: the first min(10, n) rows, for the usage log and the projection's log alike |
| Common.RoundHalfEvenBounds | src/model/monte_carlo.py:25 | Rounding to 1/scale moves a value by at most half a unit and never crosses an integer multiple of 1/scale that bounds it |
| Common.CountPositiveZero | src/model/usage_calculator.py:35-40 | No positive entry counted exactly when every entry is at most 0, and then the positive sum is 0 |
| DataProcessor.ParseClockRoundTrip | src/data/data_processor.py:45-48 | "MM:SS" written from naturals parses to MM + SS/60 |
| DataProcessor.UniqueDatesSpec | src/data/data_processor.py:33 | The unique dates hold every date of the logs once and nothing else |
| DataProcessor.GameRowsSpec | src/data/data_processor.py:38 | A game's rows are the log rows of that date, taken from the logs, none left out |
| DataProcessor.GameRowsSingle | src/data/data_processor.py:38 | A row is kept exactly when it has the game's date |
| DataProcessor.GameRowsAppend | src/data/data_processor.py:38 | The filter distributes over concatenation, so the game's rows keep log order and repeats |
| DataProcessor.FirstMinutesFound | src/data/data_processor.py:40-44 | A name present in a game always has a minutes cell |
| DataProcessor.AddToFrame | src/data/data_processor.py:50-51 | The two `+=` updates add the same shared value to [p1][p2] and [p2][p1] |
| DataProcessor.AddPair | src/data/data_processor.py:40-51 | Succeeds exactly when the pair's minute texts parse, and then applies that pair's contribution |
| DataProcessor.AddRowPairs | src/data/data_processor.py:39-51 | The pairs (i, j) with j > i of one game are applied in order; fails exactly when one of them is malformed |
| DataProcessor.AddGamePairs | src/data/data_processor.py:37-51 | Every pair of one game date (in `combinations` order) is applied; fails exactly when one is malformed |
| DataProcessor.GetSharedMins | src/data/data_processor.py:29-54 | `None` exactly when some visited minute text fails to parse; otherwise the fold of every pair contribution in visiting order; no rows give the empty frame |
| DataProcessor.CellIsPairTotal | src/data/data_processor.py:37-53 | Every cell equals the independent sum of min(min1, min2) over the visited row pairs with those two names |
| DataProcessor.PairTotalSymmetric | src/data/data_processor.py:49-51 | The pair total of (a, b) equals that of (b, a) |
| DataProcessor.MatrixSymmetric | src/data/data_processor.py:49-51 | The shared-minutes matrix is symmetric |
| DataProcessor.PairTotalUntouched | src/data/data_processor.py:53 | A cell no visited pair reaches, including a player with themself, reads 0 |
| DataProcessor.PairTotalNonNegative | src/data/data_processor.py:49-51 | With non-negative minutes every cell is non-negative |
| DataProcessor.FoldLabels | src/data/data_processor.py:50-53 | The frame's labels are distinct and are exactly the names of pairs that added minutes |
| DataProcessor.ArgMaxIsMax | src/data/data_processor.py:70 | The chosen label has the largest value in the column |
| DataProcessor.TopSharedMembers | src/data/data_processor.py:70 | Only labels of the column are chosen |
| DataProcessor.TopSharedSorted | src/data/data_processor.py:70 | The chosen labels come in descending order of shared minutes |
| DataProcessor.TopSharedDominates | src/data/data_processor.py:70 | No label left out has more shared minutes than a chosen one |
| DataProcessor.TopSharedDistinct | src/data/data_processor.py:70 | Distinct labels give distinct choices |
| DataProcessor.TopShared | src/data/data_processor.py:70 | `head(k)` keeps min(k, number of labels) entries |
| DataProcessor.Resolve | src/data/data_processor.py:73-80 | At most one id per name, every id taken from the directory; with every name known, exactly the directory's id of each name, in order |
| DataProcessor.ResolveSingle | src/data/data_processor.py:74-80 | A known name resolves to its directory id, an unknown one to nothing |
| DataProcessor.ResolveAppend | src/data/data_processor.py:73-80 | Resolution distributes over concatenation, so unknown names are dropped and the others keep their order |
| DataProcessor.ResolveNames | src/data/data_processor.py:73-80 | The lookup loop computes exactly the resolution |
| DataProcessor.TeammatesOf | src/data/data_processor.py:67-82 | At most four teammate ids |
| DataProcessor.OnCourtTeammates | src/data/data_processor.py:57-82 | With nobody left after removing the player, []; otherwise `None` exactly when the frame cannot be built, else the resolved top-4 column of the player; never more than 4 |
| DataProcessor.NormalizePosition | src/data/data_processor.py:84-92 | Always G, C or F; G wins over C; C when C but no G; F for a missing or empty position or one with neither |
| DataProcessor.NormalizePositionIdempotent | src/data/data_processor.py:84-92 | Normalising a normalised position changes nothing |
| UsageCalculator.SumLoadColumns | src/model/usage_calculator.py:18-21 | Summing FGA + 0.44 FTA + TOV per game equals combining the three column sums |
| UsageCalculator.BaseUsageIsMeanLoad | src/model/usage_calculator.py:16-24 | Base usage is the mean per-game possession load of the recent games over team possessions; 0.2 for an empty log |
| UsageCalculator.BaseUsageIgnoresOlderGames | src/model/usage_calculator.py:17 | Games after the tenth do not change base usage |
| UsageCalculator.StepMultiplier | src/model/usage_calculator.py:44-55 | Each of the six bands of the table yields its constant |
| UsageCalculator.StepMultiplierMonotone | src/model/usage_calculator.py:44-55 | The table never rises as co-player usage grows; it stays in [0.88, 1.12] |
| UsageCalculator.MultiplierOfRange | src/model/usage_calculator.py:27-55 | The multiplier is one of 0.88, 0.93, 0.98, 1.02, 1.07, 1.12, 1.0; it is 1.0 when no co-player has positive usage |
| UsageCalculator.Usages | src/model/usage_calculator.py:33-34 | One base usage per co-player |
| UsageCalculator.UsageMultiplier | src/model/usage_calculator.py:26-55 | The loop computes the multiplier of the co-players' base usages, averaging only the positive ones |
| UsageCalculator.CalculateUsageRate | src/model/usage_calculator.py:8-60 | Defined exactly when the possession estimate, the player's own log and every co-player fetch succeed (any of them raising makes the call raise); then base usage times the multiplier |
| UsageCalculator.UsageRateBounds | src/model/usage_calculator.py:57-60 | For a non-negative base usage the usage rate is within 12 percent of it either way |
| UsageCalculator.DefaultUsageRate | src/model/usage_calculator.py:24-29 | No log and no co-players give 0.2 |
| MatchupAnalyzer.Collected | src/model/matchup_analyzer.py:21-43 | No more entries than players |
| MatchupAnalyzer.CollectedMembers | src/model/matchup_analyzer.py:21-43 | Exactly the players whose log was read contribute an entry, with id, name, position and impact pts + 0.7 ast + 0.7 reb |
| MatchupAnalyzer.SortDescSorted | src/model/matchup_analyzer.py:44 | The impact list comes largest first |
| MatchupAnalyzer.SortDescPermutation | src/model/matchup_analyzer.py:44 | Sorting keeps exactly the entries it was given |
| MatchupAnalyzer.SortDescStable | src/model/matchup_analyzer.py:44 | Entries with equal impact keep their relative order, as Python's stable sort keeps them |
| MatchupAnalyzer.GetImpactScores | src/model/matchup_analyzer.py:17-44 | The loop and sort compute the stable descending sort of the collected entries |
| MatchupAnalyzer.Priority | src/model/matchup_analyzer.py:89-107 | G = 1, C = 3, any other letter 2 |
| MatchupAnalyzer.PosScore | src/model/matchup_analyzer.py:95-107 | The priority distance lies in [0, 2] and is 0 for equal first letters (None read as F) |
| MatchupAnalyzer.MatchScore | src/model/matchup_analyzer.py:106-112 | The score is non-negative and at least ten per step of position distance |
| MatchupAnalyzer.BestIndex | src/model/matchup_analyzer.py:98-116 | The retained index lies in the scanned prefix |
| MatchupAnalyzer.BestIndexSpec | src/model/matchup_analyzer.py:98-116 | None exactly when every scanned opponent is used; otherwise the pick is unused, no unused opponent scores lower, and every unused one before it scores strictly higher |
| MatchupAnalyzer.PickDefender | src/model/matchup_analyzer.py:91-116 | The inner loop retains exactly the best-score, first-on-ties unused opponent |
| MatchupAnalyzer.AssignDefenders | src/model/matchup_analyzer.py:91-120 | The outer loop's dictionary is the round-by-round specification after all home players |
| MatchupAnalyzer.CreateMatchupAssignments | src/model/matchup_analyzer.py:60-122 | Both rosters are ranked by impact, then assigned greedily |
| MatchupAnalyzer.StepConsistent | src/model/matchup_analyzer.py:99-120 | One round keeps every assigned defender used, non-empty, an opponent, and guarding one player |
| MatchupAnalyzer.StepKeys | src/model/matchup_analyzer.py:118-120 | A round never removes a key |
| MatchupAnalyzer.AssignInjective | src/model/matchup_analyzer.py:99-120 | No defender name is assigned to two home players |
| MatchupAnalyzer.AssignUsed | src/model/matchup_analyzer.py:118-120 | After n rounds at most n opponent names are used, all of them opponents |
| MatchupAnalyzer.AssignKeysGrow | src/model/matchup_analyzer.py:118-120 | A home player once assigned keeps a key |
| MatchupAnalyzer.OppNamesSize | src/model/matchup_analyzer.py:98 | Distinct opponent names number as many as the opponents |
| MatchupAnalyzer.StepAssigns | src/model/matchup_analyzer.py:98-120 | A round with a free opponent left assigns its home player |
| MatchupAnalyzer.AssignedAtRound | src/model/matchup_analyzer.py:98-120 | With enough distinct, non-empty opponent names, round k assigns home player k |
| MatchupAnalyzer.AssignComplete | src/model/matchup_analyzer.py:91-120 | With at least as many distinct, non-empty opponent names as home players, every home player gets a defender |
| MatchupAnalyzer.AssignPicksBest | src/model/matchup_analyzer.py:106-116 | Each assigned defender minimises the score over the opponents still free; ties go to the earliest |
| MatchupAnalyzer.Efg | src/model/matchup_analyzer.py:164-185 | 0.52 when FGA is 0 or the log cannot be read; otherwise eFG * FGA = FGM + 0.5 FG3M |
| MatchupAnalyzer.EfgBounds | src/model/matchup_analyzer.py:181 | With 0 <= FG3M <= FGM <= FGA the eFG lies in [0, 1.5] |
| MatchupAnalyzer.AdjEfgProperties | src/model/matchup_analyzer.py:286 | A league-average defender is neutral; a better-shooting defender never raises the adjusted eFG; the 0.3 floor bounds it by eFG * 0.52 / 0.3 |
| MatchupAnalyzer.Efgs | src/model/matchup_analyzer.py:195-196 | One eFG per co-player |
| MatchupAnalyzer.EfgsAt | src/model/matchup_analyzer.py:195-196 | Entry i is co-player i's eFG |
| MatchupAnalyzer.AstFactor | src/model/matchup_analyzer.py:187-207 | The loop computes the assist factor: 1.0 without co-players, the mean positive eFG over 0.52 otherwise (1.0 without a positive one) |
| MatchupAnalyzer.AstFactorBounds | src/model/matchup_analyzer.py:193-205 | With every positive eFG in [lo, hi] the factor lies in [lo/0.52, hi/0.52]; no positive eFG gives 1.0 |
| MatchupAnalyzer.AstFactorNeutral | src/model/matchup_analyzer.py:201-205 | League-average co-players give exactly 1.0 |
| MatchupAnalyzer.CountBigs | src/model/matchup_analyzer.py:228-229 | No more bigs than co-players |
| MatchupAnalyzer.BaseFactor | src/model/matchup_analyzer.py:239-244 | The positional bonus is 1.0, 1.1 or 1.2 |
| MatchupAnalyzer.RebFactorOf | src/model/matchup_analyzer.py:209-252 | The factor lies in [0.85, 1.2] and is exactly 1.0 without co-players or when they cannot be found |
| MatchupAnalyzer.RebFactor | src/model/matchup_analyzer.py:209-250 | The two summing loops compute exactly the rebound factor |
| MatchupAnalyzer.RebFactorLevelCourt | src/model/matchup_analyzer.py:225-250 | On a level court the factor is the positional bonus when that bonus is 1.0 or 1.2 |
| MatchupAnalyzer.SegmentMinutes | src/model/matchup_analyzer.py:46-58 | A quarter of the mean minutes, or 8.0 when the log cannot be read |
| MatchupAnalyzer.DefaultProjection | src/model/matchup_analyzer.py:330-352 | The fallback record: 12/4/3 with stds 3.0/1.5/1.0 for the given player and defender |
| MatchupAnalyzer.FtPct | src/model/matchup_analyzer.py:269-272 | FTM/FTA over the recent games, 0.8 when there were no attempts |
| MatchupAnalyzer.FtPctBounds | src/model/matchup_analyzer.py:269-272 | When no game has more makes than attempts the percentage lies in [0, 1] |
| MatchupAnalyzer.FtaPerMin | src/model/matchup_analyzer.py:274 | FTA per minute played, 0 when no minutes were played |
| MatchupAnalyzer.StdOr | src/model/matchup_analyzer.py:324-326 | A NaN std falls back to its constant |
| MatchupAnalyzer.Project | src/model/matchup_analyzer.py:255-328 | The record carries the player and defender ids; the stds are the sample stds, each with its own fallback (3.0, 1.5, 1.0) |
| MatchupAnalyzer.ProjectUsageLinear | src/model/matchup_analyzer.py:298-303 | The estimated attempts are proportional to the usage rate |
| MatchupAnalyzer.ProjectUsageMonotone | src/model/matchup_analyzer.py:298-307 | With non-negative inputs, a higher usage rate never lowers the estimated attempts or the projected points |
| MatchupAnalyzer.ProjectPossessionsMonotone | src/model/matchup_analyzer.py:298-307 | With non-negative inputs, more team possessions never lower the estimated attempts or the projected points |
| MatchupAnalyzer.ProjectNonNegative | src/model/matchup_analyzer.py:301-307 | Non-negative inputs give non-negative projected points, rebounds and assists |
| MatchupAnalyzer.ProjectExample | src/model/matchup_analyzer.py:269-328 | 80 possessions, 8 minutes, 25% usage and league-average eFGs give 16 attempts and 20.64 points |
| MatchupAnalyzer.FirstFoundSpec | src/model/matchup_analyzer.py:139-145 | The search yields the first successful lookup and fails only when all fail |
| MatchupAnalyzer.FindOpponentTeam | src/model/matchup_analyzer.py:139-145 | The loop with `break` computes that first successful lookup |
| MatchupAnalyzer.Stats | src/model/matchup_analyzer.py:255-352 | The record always carries the player and defender ids |
| MatchupAnalyzer.StatsCases | src/model/matchup_analyzer.py:255-352 | A missing or empty log, a failed on-court height fetch, a failed usage rate or a missing possession estimate gives the default record; otherwise the record is the projection of the ten most recent games under the fetched factors, so its usage, segment minutes, adjusted eFG and rebound factor are those inputs |
| MatchupAnalyzer.PrimaryDefenderMatchup | src/model/matchup_analyzer.py:124-159 | Raises for an unknown home team, an opponent team that cannot be found (or is 0), no non-empty matchup, or a defender name the directory does not know; otherwise returns the stats against that defender |
| MonteCarlo.SimValue | src/model/monte_carlo.py:24-25 | Every simulated value is non-negative |
| MonteCarlo.SimValueClose | src/model/monte_carlo.py:25 | A value is the draw clamped at 0, up to at most 0.05 of rounding |
| MonteCarlo.Column | src/model/monte_carlo.py:16-26 | A column has one value per trial |
| MonteCarlo.ColumnAt | src/model/monte_carlo.py:16-26 | Trial t of column s reads draw 3t + s |
| MonteCarlo.ColumnPrefix | src/model/monte_carlo.py:16-26 | Only the first 3n draws matter |
| MonteCarlo.RunMonteCarloSim | src/model/monte_carlo.py:6-28 | The trial loop computes the specification: stops at the first negative std, else three columns |
| MonteCarlo.SimulationSpec | src/model/monte_carlo.py:10-28 | It raises exactly when there is a trial and a negative std. Otherwise every column has n entries, trial t's PTS/REB/AST come from draws 3t, 3t+1 and 3t+2 with the record's mean and std, and all values are >= 0 |
| MonteCarlo.NoTrials | src/model/monte_carlo.py:16 | Zero trials give three empty columns |
| ModelEvaluator.MatchesOfSpec | src/utils/model_evaluator.py:92 | A prediction is paired with exactly the actual rows of the same player |
| ModelEvaluator.MergeSpec | src/utils/model_evaluator.py:92 | Only players present on both sides are evaluated, and every such pairing is |
| ModelEvaluator.Metric | src/utils/model_evaluator.py:106-119 | The row carries player, stat, prediction and actual; error + prediction = actual; abs error = abs(error) |
| ModelEvaluator.MetricSpec | src/utils/model_evaluator.py:113-119 | pct error >= 0; without a positive std z = 0 and the row is in the interval; otherwise in the interval exactly when the actual value lies within max(std, 0.1) of the prediction |
| ModelEvaluator.RowsOf | src/utils/model_evaluator.py:105-129 | Three rows per merged player, PTS, REB, AST, all for that player |
| ModelEvaluator.AllRowsLength | src/utils/model_evaluator.py:102-129 | Three rows per merged player |
| ModelEvaluator.AllRowsAt | src/utils/model_evaluator.py:102-129 | Row 3i + k is merged player i's k-th stat row |
| ModelEvaluator.AllRowsSpec | src/utils/model_evaluator.py:102-129 | Both facts together, for every player and stat |
| ModelEvaluator.MetricRows | src/utils/model_evaluator.py:98-129 | The nested loop computes exactly those rows |
| ModelEvaluator.CalculateAccuracyMetrics | src/utils/model_evaluator.py:90-131 | `None` exactly when no player matches; otherwise the rows of the merged frame |
| ModelEvaluator.GradeOf | src/utils/model_evaluator.py:190-199 | The first tier whose MAPE ceiling and CI-accuracy floor are both met: A (15, 70), B (25, 60), C (35, 50), D (50, 40), each only when no earlier tier is met; F exactly when none is |
| ModelEvaluator.GradeMonotone | src/utils/model_evaluator.py:190-199 | Lower MAPE and higher CI accuracy never give a worse grade |
| Constants.TeamAssignment | src/utils/constants.py:39-46 | TEAM1 exactly for names on the TEAM1 list (even if also on TEAM2); TEAM2 exactly for names only on TEAM2; nothing otherwise |
| Constants.FlatListAssigned | src/utils/constants.py:23-46 | Every entry of TEAM1 + TEAM2 gets a team, and the TEAM1 part gets TEAM1 |
| Constants.ConfiguredTargets | src/utils/constants.py:9-23 | The configured flat list has six players, the first three on TEAM1 and the last three on TEAM2 |
| LegacyModel.FirstFit | model.py:292-297 | A pass stops inside the opponent list |
| LegacyModel.FirstFitFrom | model.py:292-297 | Scanning on from a prefix with no free opponent finds the first free one, or none exactly when none is free |
| LegacyModel.FirstFitSpec | model.py:292-315 | Each pass takes the first free opponent of its tier, and none exactly when none is free |
| LegacyModel.Choice | model.py:288-319 | The chosen index lies inside the opponent list |
| LegacyModel.ChoiceSpec | model.py:288-319 | Tiers in order: an exact-position match when one is free, a group match only when no exact one is, any free opponent only when neither is, nobody exactly when every opponent name is used; within a tier the earliest wins |
| LegacyModel.FindFirst | model.py:292-297 | One pass of the inner loop with `break` finds exactly the first free opponent |
| LegacyModel.AssignTiered | model.py:276-319 | The outer loop's dictionary is the round-by-round specification after all home players |
| LegacyModel.LegacyMatchups | model.py:276-319 | Raises exactly when either ranked roster is empty (the first entry's id is read); otherwise both rosters are ranked by impact, then assigned tier by tier |
| LegacyModel.StepConsistent | model.py:293-315 | One round keeps assigned defenders used, used names opponents, and defenders guarding one player each |
| LegacyModel.AssignInjective | model.py:288-315 | No opponent name is assigned to two home players |
| LegacyModel.AssignUsedCount | model.py:288-315 | After n rounds at most n names are used |
| LegacyModel.AssignKeys | model.py:288-319 | The dictionary's keys are exactly the names of the home players processed |
| LegacyModel.AssignNoneWhenExhausted | model.py:317-319 | A home player maps to nothing exactly when every opponent name was already used at that round |
| LegacyModel.SomeNameFree | model.py:309-315 | With fewer names used than distinct opponent names, some opponent is free |
| LegacyModel.AssignComplete | model.py:309-319 | While no more home players are placed than there are distinct opponent names, no home player maps to nothing |
| LegacyModel.CountBigs | model.py:409-410 | No more bigs than co-players |
| LegacyModel.BaseFactor | model.py:421-427 | The bonus is 1.0, 1.1 or 1.2, and 1.0 for a position other than exactly "G" or "F" |
| LegacyModel.RebFactor | model.py:393-434 | Undefined (division by zero) exactly when there are no co-players |
| LegacyModel.RebFactorBounds | model.py:433-434 | The factor lies in [0.85, 1.2] and within 0.0005 of the clamped raw value |
| LegacyModel.RebFactorLevelCourt | model.py:405-434 | On a level court with no positional bonus the factor is exactly 1.0 |
| LegacyModel.BigTestsDiffer | model.py:409 | "C-F" counts as a big for the package's factor but not for the script's exact test |
| LegacyModel.CapPtsStd | model.py:566-568 | After the cap the points std is at most 1.5 est_fga and at most the old std, is one of the two, is unchanged when already under the cap; nothing else changes |
| LegacyModel.CapKeepsSamplable | model.py:566-571 | A samplable record stays samplable after the cap exactly when est_fga >= 0 |
| LegacyModel.BaseUsage | model.py:130-146 | The script's base usage is 0 for an empty log and the package's formula otherwise |
| LegacyModel.MultiplierAgreesOnFour | model.py:149-167 | With four co-players of positive usage the fixed division by four agrees with the package's average |
| LegacyModel.MultiplierDiffersOnOne | model.py:154 | With one co-player of usage 0.3 the script gives 1.12 where the package gives 0.88 |

## Left out

- All data-source calls become inputs: the game-log, player-info, roster and team-stats endpoints, and the static player and team lookups. So do the one-second sleeps between them. A failing lookup is an `Option`.
- pandas aggregation gives its results as inputs: sample `std()` (NaN as `None`) and the mean minutes behind the segment minutes. Column means over ten games are computed by the model.
- `np.random.normal` and the seed are left out. The draws are an input stream of standard-normal values, and a draw of N(mean, std) is mean + std * z.
- IEEE floating point is left out: rounding error, and division by zero giving inf or NaN in numpy. `UsageCalculator.BaseUsage` and `LegacyModel.BaseUsage` require non-zero possessions for a non-empty log, where numpy would divide and give inf. The co-player usages (`UsageCalculator.Usages`) require them outright.
- NaN impacts are not modelled. A NaN would make Python's sort order undefined.
- `Common.RoundHalfEven` rounds the exact real half to even. Python's `round` works on the binary double, so it can differ at values that only look like halves in decimal.
- `Numerals.ParseInt`: `int()` and `float()` on text are modelled for an optional sign followed by ASCII digits. Whitespace, underscores, decimals and exponents are not modelled.
- Printing, CSV loading and writing, report formatting, and the interactive prompts of the evaluator are left out.
- The evaluator's group-by summary (MAE, RMSE with `sqrt`, MAPE and CI accuracy per stat) is left out as pandas aggregation. The grade table takes the two averages as inputs.
- `helpers.py` and `analyze.py` are file orchestration.
- `model.py`'s script-level code (team setup, folders, the CSV loop) and its unused configuration are left out. Its `pace()` helper depends on repeated remote name lookups and is superseded by the package's projection.
- Several of `model.py`'s duplicates are superseded by the package's versions and are not modelled separately:
  - its eFG with 0 for no attempts and an unfloored divisor;
  - its assist factor dividing by the number of co-players;
  - its segment minutes without a fallback;
  - its `get_impact_scores`, which is the same as the package's;
  - its `on_court_teammates` keyed by id.
- `model.py`'s shared-minute loop (lines 38-53) is not modelled on its own. It is the package's accumulation on numeric minutes.
- `model.py`'s `normalize_position` (lines 219-226) and `run_monte_carlo_sim` (lines 500-522) are copies of the package's functions. `DataProcessor.NormalizePosition` and `MonteCarlo.RunMonteCarloSim` model both.
- The team-id lookups that `model.py` makes from the first ranked players (lines 280-281) are remote calls and are left out. Their results are unused by the assignment; only the empty-list failure of indexing is modelled, in `LegacyModel.LegacyMatchups`.
- `MatchupAnalyzer.PrimaryDefenderMatchup` takes the matchups as input rather than building them. `CreateMatchupAssignments` builds them from the same fetched data.
- `MatchupAnalyzer.Stats`: which of the try block's fetches raise is given as `None` inputs. The block's exception handler is the default record.
- `DataProcessor.TopShared`: pandas sorts with an unspecified order among ties. The model picks the first maximal label. The ordering, dominance and membership contracts hold for any tie order.

## Behaviour to note

- The possession estimate has no fallback. Missing aggregates raise (`None`), and zero possessions are not guarded.
- `on_court_teammates` can return the player themself. Their own column cell is 0, so with fewer than four other labels they can be among the top four.
- Without attempts, eFG is the league average 0.52.
- The package's rebound factor tests for a big with a substring test ('F' or 'C' anywhere in the position). The script tests for exactly "F" or "C".
- In the score-based assignment an empty defender name is never assigned (`if best_defender`).
- An opponent team id of 0 counts as not found (`if not opp_team_id`).
- A negative standard deviation makes the sampler raise. The model returns `None` at the first trial.
- The script divides the co-players' usage by a fixed 4 and gives 0 base usage for an empty log. The package averages over the positive usages and gives 0.2.
- The script's tiered assignment raises when either ranked roster is empty, because it reads the first entry's id.
