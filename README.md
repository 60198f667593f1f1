# Tourism recommender scoring, modelled in Dafny

This project models the scoring core of a sightseeing-spot recommender.
The recommender works from a catalogue table with one row per spot and one
similarity score per aspect ("viewpoint") column. From the spots a user
visited, the feedback on them and the user's interest viewpoints, it builds
a preference profile over the aspects. It then scores every catalogue spot
against that profile and returns the ten best.

The repository holds two engines. The model covers both:

- `utils/scoring.py`, the current engine, is modelled in `scoring.dfy` (module `Scoring`). `compute_user_preference` min-max normalises every column, with a constant column going to 0.5, and sums the normalised rows of the visited spots. It adds 1.0 per interest viewpoint, applies a softmax and returns the profile sorted by weight together with the names of the top-k aspects. `recommend_spots` gives profile position i the weight `1 - i/(N-1)`. It ranks each spot's top-k values with the same linear decay and sums value × user weight × spot weight.
- `project-experiment_ver1.0/utils/scoring.py`, the earlier engine, is modelled in `scoring_v1.dfy` (module `ScoringV1`). `compute_user_preference` adds two parts: 0.05 per feedback mention of an aspect, and the `minmax` of the raw visited-row column sums. It sorts by that total. `recommend_spots` weighs profile position i by `max(1 - 0.1 i, 0)` and scores each spot by the dot product of those weights with the spot's raw aspect scores.

Shared parts:

- `tables.dfy` (module `Tables`) holds the catalogue, the error outcomes `ZeroDivisionError`, `KeyError` and `TypeError`, column access, running sums and the visited-row filter.
- `ranking.dfy` (module `Ranking`) holds descending sorts as permutations of row positions, pandas' `head(n)`, the rank of a value within a row, and the top-ten listing.
- `minmax.dfy` (module `MinMax`) holds min-max rescaling.

Data follow the source:

- A catalogue is a sequence of rows. Each row is a spot name and a `seq<real>` of aspect scores in column order.
- All arithmetic is on `real`.
- An operation that raises in Python returns `Err(...)` in its `Result`.
- Loops that update variables are methods. Each method is proved equal to a specification function, and the lemmas state properties of that function.
- `np.exp` is a parameter: any function that is positive everywhere. Where order matters, it must also be strictly increasing.

## Model

| member | source | states |
|---|---|---|
| MinMax.MinMax | utils/scoring.py:7-11 | `minmax` keeps the length. A constant series becomes all 1.0. Every output lies in [0, 1]. For a non-constant series, an output is 0 exactly at the minimum and 1 exactly at the maximum. |
| MinMax.MinMaxAllOnesIffConstant | project-experiment_ver1.0/utils/scoring.py:13-17 | For a non-empty series, `minmax` returns all 1.0 exactly when the series is constant. The ver1.0 file defines `minmax` twice with the same body (lines 4-8 and 13-17), so one function models both. |
| MinMax.DegenerateIffConstant | utils/scoring.py:9 | The `max == min` test holds exactly when the series is constant. |
| MinMax.Rescale | utils/scoring.py:26-29 | Shared by both rescalings. The result has the same length. A constant column goes to the degenerate value everywhere. Any other column maps into [0, 1] with min→0 and max→1, in both directions. |
| MinMax.RescaleKeepsOrder | utils/scoring.py:29 | Rescaling a non-constant column keeps the order of any two of its values, in both directions. |
| MinMax.RescaledValue | utils/scoring.py:29 | Inside [lo, hi], `(x - lo)/(hi - lo)` lies in [0, 1]. It is 0 exactly at lo and 1 exactly at hi. |
| MinMax.SeqMin | utils/scoring.py:24 | The column minimum is one of its values and is at most every value. |
| MinMax.SeqMax | utils/scoring.py:25 | The column maximum is one of its values and is at least every value. |
| Scoring.NormalizeColumn | utils/scoring.py:23-29 | A constant column becomes 0.5 everywhere. Any other column equals `minmax` of it. Every value lies in [0, 1]. |
| Scoring.NormalizedCatalogue | utils/scoring.py:21-29 | The normalised copy keeps the aspects and the spot names. Each column j is the normalisation of input column j. |
| Scoring.NormalizeCatalogue | utils/scoring.py:22-29 | The loop overwrites one column of the copy per step. Its result equals `NormalizedCatalogue` of the input. Invariants: the columns done are normalised, the columns still to do are untouched, and the names and widths are kept. |
| Scoring.NormalizedInUnit | utils/scoring.py:79-89 | Every normalised value lies in [0, 1]. |
| Scoring.NormalizationIsColumnwise | utils/scoring.py:82-89 | Normalised column j depends only on input column j. |
| Tables.SetColumn | utils/scoring.py:29 | `df_norm[col] = ...` replaces column j. It keeps every other column, every name and every row width. |
| Tables.VisitedSumByMembership | utils/scoring.py:32-33 | The visited-row sum depends only on which catalogue names are in the visited list. A repeated visited name counts once. A visited name missing from the catalogue adds nothing. |
| Tables.VisitedSum | utils/scoring.py:32-33 | The `isin` filter followed by a column sum: column j summed over the rows whose name is in the visited list. It has no contract of its own. Its properties are `Tables.VisitedSumByMembership`, `Tables.VisitedSumNoneVisited` and `Tables.VisitedSumBounds`. |
| Tables.VisitedSumNoneVisited | utils/scoring.py:32-33 | When no catalogue name is among the visited spots, every column sums to 0. |
| Tables.VisitedSumBounds | utils/scoring.py:33 | With column values in [0, hi], the visited sum lies in [0, hi × number of rows]. |
| Scoring.InterestBonus | utils/scoring.py:36-39 | The bonus loop gives each aspect column exactly 1.0 per occurrence of it among the interest viewpoints. Viewpoints that are not columns get nothing. |
| Scoring.Totals | utils/scoring.py:41 | There is one total per aspect column. |
| Scoring.Exps | utils/scoring.py:44 | `np.exp` is applied elementwise. Every value is positive. |
| Scoring.Softmax | utils/scoring.py:44-45 | Every weight is positive. The weights sum to 1 for a non-empty input. |
| Scoring.SoftmaxPreservesOrder | utils/scoring.py:45 | With a strictly increasing `exp`, the weights keep the order of the totals. A larger total gives a larger weight, equal totals give equal weights, and the converse holds too. |
| Scoring.Profile | utils/scoring.py:51-58 | The profile has one row per aspect. Weights are non-increasing. The flag is 1 exactly for the interest viewpoints. |
| Scoring.ProfileMatchesWeights | utils/scoring.py:51-58 | With distinct aspect names, the profile lists every aspect exactly once, each next to its own weight. |
| Scoring.TopKViewpoints | utils/scoring.py:48 | The top-k list is the first `HeadCount(K, top_k)` aspects of the sorted profile. |
| Scoring.TopKDominates | utils/scoring.py:48 | Over a sorted profile with distinct aspects, the top-k list is distinct. Each of its aspects weighs at least as much as every aspect outside it. |
| Scoring.ProfileTopK | utils/scoring.py:48-58 | For any weights over distinct aspects, the top-k list has `HeadCount(K, top_k)` distinct aspect columns, the first rows of the profile. No aspect outside it weighs more. |
| Scoring.UserPreferenceProfile | utils/scoring.py:17-60 | `compute_user_preference`'s profile satisfies `IsProfileOf` the softmax weights. It has exactly one row per aspect column, each column listed once, sorted non-increasing by weight. Every row carries its own column's softmax weight, and the flag is 1 exactly for the interest viewpoints. The weights are positive and sum to 1. |
| Scoring.UserPreferenceTopK | utils/scoring.py:48 | `topk_viewpoints` has min(top_k, K) distinct aspects for a non-negative top_k. They are the first rows of the profile. Each weighs at least as much as every aspect left out. |
| Scoring.ComputeUserPreference | utils/scoring.py:17-60 | The method, with its normalisation and bonus loops, returns exactly `UserPreference`. |
| Scoring.UserPreference | utils/scoring.py:17-60 | What `compute_user_preference` returns. The profile has one row per aspect column. The top-k list has `HeadCount(K, top_k)` names. The rest is in `Scoring.UserPreferenceProfile` and `Scoring.UserPreferenceTopK`. |
| Scoring.RankWeight | utils/scoring.py:71 | `1 - i/(N-1)` lies in [0, 1]. It is 1 at position 0 and 0 at position N-1. |
| Scoring.RankWeightDecreasing | utils/scoring.py:71 | The weight strictly decreases with the position. |
| Scoring.LinearRankWeights | utils/scoring.py:69-73 | N = 1 divides by zero, and no other N does. Otherwise there are N weights in [0, 1], strictly decreasing, from 1 down to 0. |
| Ranking.HeadCount | utils/scoring.py:48 | `head(n)` keeps min(n, len) rows for n ≥ 0. For a negative n it keeps all but the last -n. |
| Ranking.Order | utils/scoring.py:58 | `sort_values(ascending=False)` is a permutation of the positions with non-increasing keys. It models the profile sorts (`utils/scoring.py` lines 48 and 58, ver1.0 lines 73 and 87) and the sorts by score before `head(10)`. The per-row sort at `utils/scoring.py` line 96 is `Ranking.RankOf`. |
| Ranking.OmittedRankLower | utils/scoring.py:115 | In a sorted order, every position after the first h has a key no higher than the h-th. |
| Ranking.RankOrder | utils/scoring.py:96 | Sorting one row's top-k values gives every aspect a distinct position in 0 .. M-1. A strictly larger value gets an earlier position. |
| Ranking.RankOf | utils/scoring.py:96 | The position of a value in the row's descending sort: the number of values that come before it, equal values keeping the order in which they are given (for the spot ranks, top-k list order). It has no contract of its own. Its properties are `Ranking.RankOrder`, `Ranking.RankOfFirstMaximum` and `Ranking.RankOfLastMinimum`. |
| Ranking.RankOfFirstMaximum | utils/scoring.py:96 | The first occurrence of the largest value is sorted to position 0. |
| Ranking.RankOfLastMinimum | utils/scoring.py:96 | The last occurrence of the smallest value is sorted to the last position. |
| Scoring.TopkValues | utils/scoring.py:96 | `row[topk_viewpoints]` gives the row's value of each top-k aspect, in top-k order. |
| Scoring.SpotRankWeights | utils/scoring.py:96-101 | Each top-k aspect gets `LinearRankWeights(M)` at its position `RankOf` in the row's descending sort, the same rule as the user side. Every weight lies in [0, 1]. |
| Scoring.SpotRankWeightsMonotone | utils/scoring.py:96-101 | A strictly larger value gets a strictly larger spot weight. No two aspects share a weight. |
| Scoring.SpotRankWeightsEndpoints | utils/scoring.py:96-101 | For M ≥ 2, the first occurrence of the row's largest top-k value gets weight 1.0. The last occurrence of its smallest gets 0.0. |
| Scoring.SpotTermInUnit | utils/scoring.py:106-110 | With normalised values and user weights in [0, 1], every term lies in [0, 1]. |
| Scoring.SpotScore | utils/scoring.py:104-110 | A spot's score: the left-to-right sum of its terms, one per top-k aspect. It has no contract of its own. `Scoring.ScoreSpot` is proved equal to it, and `Scoring.SpotScoreBounds` bounds it. |
| Scoring.UserWeight | utils/scoring.py:108 | `user_rank_weight[vp]`: the user rank weight at the aspect's position in the profile. It has no contract of its own. |
| Scoring.SpotScoreBounds | utils/scoring.py:104-110 | A spot's score lies in [0, \|topk\|]. An empty top-k list scores 0. |
| Scoring.ScoreSpot | utils/scoring.py:104-110 | The `score +=` loop returns the sum of the spot's terms. |
| Scoring.RowScores | utils/scoring.py:92-112 | There is one score per row, each that row's spot score. |
| Scoring.SpotScores | utils/scoring.py:79-112 | One score per catalogue row, computed on the normalised catalogue with the linear user weights. Its bounds are in `Scoring.SpotScoresBounds`, and its independence from non-top-k columns in `Scoring.SpotScoresIgnoreOtherColumns`. |
| Scoring.ScoreRows | utils/scoring.py:92-112 | The row loop appends one score per row, in row order. It returns exactly `RowScores`. |
| Scoring.Recommend | utils/scoring.py:66-115 | `ZeroDivisionError` for a one-row profile. Otherwise `KeyError` for an empty catalogue. Success exactly when every top-k aspect is a column, is in the profile, and there is not exactly one of them. Among the other failures, `ZeroDivisionError` exactly when there is a single top-k name and it is a row label (an aspect column or the name column `スポット`). `TypeError` exactly when every top-k name is a row label, there are at least two, and one of them is `スポット`: the row's sort then compares the spot's name with its scores. |
| Scoring.SpotScoresBounds | utils/scoring.py:104-110 | Every spot's score lies in [0, \|topk\|]. |
| Scoring.RecommendResult | utils/scoring.py:114-115 | A successful result has min(10, number of spots) entries. Each is a distinct catalogue row with its own name and score, listed in non-increasing score order. No omitted spot scores above the last one listed. Every score lies in [0, \|topk\|]. Visited spots are not excluded. |
| Scoring.RecommendEmptyTopk | utils/scoring.py:105 | An empty top-k list scores every listed spot 0. |
| Scoring.SpotScoreReadsTopkValues | utils/scoring.py:105-110 | A spot's score reads its row only through the top-k aspects' values. |
| Scoring.RowScoresReadTopkColumns | utils/scoring.py:92-112 | Two tables that agree on every top-k column get the same scores. |
| Scoring.NormalizationKeepsAgreement | utils/scoring.py:82-89 | Normalisation keeps two catalogues' agreement on the top-k columns. |
| Scoring.SpotScoresIgnoreOtherColumns | utils/scoring.py:79-112 | Columns outside the top-k list do not affect any spot's score. |
| Scoring.RecommendIgnoresOtherColumns | utils/scoring.py:66-115 | Changing columns outside the top-k list leaves the recommendation unchanged, errors included. |
| Scoring.RecommendIgnoresTopK | utils/scoring.py:66 | The `top_k` argument has no effect on the result. |
| Scoring.RecommendSpots | utils/scoring.py:66-115 | The method returns exactly `Recommend`, errors included. |
| Ranking.TopTen | utils/scoring.py:114-115 | `sort_values(...).head(10)` keeps min(10, n) rows. They are distinct, each with its own name and score, and non-increasing. No omitted row scores above the last one kept. |
| Ranking.ListingOfSorted | project-experiment_ver1.0/utils/scoring.py:109-110 | The head of any descending sort lists the best rows, as `TopTen` states. |
| Ranking.HeadOfOrder | project-experiment_ver1.0/utils/scoring.py:110 | The first h positions of a descending sort are distinct with non-increasing keys. None ranks below a position left out. |
| Ranking.TopTenWithin | utils/scoring.py:115 | Scores within [lo, hi] are listed within [lo, hi]. |
| ScoringV1.ViewpointCount | project-experiment_ver1.0/utils/scoring.py:31-35 | The nested counting loop succeeds exactly when every visited spot has a feedback entry, and otherwise gives `KeyError`. On success, every viewpoint's `get(vp, 0)` equals its number of mentions over the visited spots' feedback. |
| ScoringV1.RepeatedVisitsCountTwice | project-experiment_ver1.0/utils/scoring.py:33-35 | A visit list repeated twice counts every mention twice. |
| ScoringV1.FeedbackCountConcat | project-experiment_ver1.0/utils/scoring.py:33-35 | Counting over two visit lists in a row adds their counts. |
| ScoringV1.FeedbackCount | project-experiment_ver1.0/utils/scoring.py:33-35 | The number of mentions of a viewpoint over the visited spots' feedback, in visiting order. Its properties are `ScoringV1.FeedbackCountPositive`, `ScoringV1.FeedbackCountConcat` and `ScoringV1.RepeatedVisitsCountTwice`, and `ScoringV1.ViewpointCount` is proved to compute it. |
| ScoringV1.FeedbackCountPositive | project-experiment_ver1.0/utils/scoring.py:33-35 | A viewpoint's count is positive exactly when some visited spot's feedback names it. |
| ScoringV1.Method1 | project-experiment_ver1.0/utils/scoring.py:37-47 | Method 1 of each aspect column is 0.05 × its feedback count, and ≥ 0. Mentions of non-columns are dropped. |
| ScoringV1.Method1Scores | project-experiment_ver1.0/utils/scoring.py:39-45 | The `dup_scores` loop gives each aspect column its `get(vp, 0)` count × 0.05. |
| ScoringV1.Method2 | project-experiment_ver1.0/utils/scoring.py:52-62 | Method 2 of each aspect column is the raw column sum over the visited rows. |
| ScoringV1.Method2Scores | project-experiment_ver1.0/utils/scoring.py:54-60 | The `weighted_scores` loop returns exactly `Method2`. |
| ScoringV1.Combined | project-experiment_ver1.0/utils/scoring.py:69-71 | Total is method 1 + `minmax(method 2)`, per column. |
| ScoringV1.Summary | project-experiment_ver1.0/utils/scoring.py:67-74 | There is one row per aspect column, sorted non-increasing by total. Each total is method 1 + the rescaled method 2. The rescaled part lies in [0, 1]. The flag is 1 exactly for the interest viewpoints. |
| ScoringV1.SummaryMatchesColumns | project-experiment_ver1.0/utils/scoring.py:67-69 | With distinct aspects, the merged summary lists each column exactly once with that column's method 1, method 2 and `minmax` value. A constant method 2 rescales to 1.0 throughout. |
| ScoringV1.UserPreferenceV1 | project-experiment_ver1.0/utils/scoring.py:19-76 | The result is `KeyError` exactly when a visited spot lacks feedback or there are no aspect columns. |
| ScoringV1.UserPreferenceV1Columns | project-experiment_ver1.0/utils/scoring.py:31-69 | The result has exactly one row per aspect column. Method 1 is 0.05 × the feedback count. Method 2 is the raw visited-row column sum. The rescaled part is that column's `minmax` value. |
| ScoringV1.UserPreferenceV1Totals | project-experiment_ver1.0/utils/scoring.py:71-74 | Rows are sorted non-increasing by total. Each total is method 1 + the rescaled part, lies at least at the rescaled part, which lies in [0, 1], so every total is ≥ 0. The flag is 1 exactly for the interest viewpoints. |
| ScoringV1.ComputeUserPreferenceV1 | project-experiment_ver1.0/utils/scoring.py:19-76 | The method returns exactly `UserPreferenceV1`, errors included. |
| ScoringV1.DecayWeight | project-experiment_ver1.0/utils/scoring.py:95 | `max(1.0 - 0.1 i, 0)` lies in [0, 1] and is 1.0 at position 0. It is 0 exactly from position 10 on. |
| ScoringV1.DecayWeightNonIncreasing | project-experiment_ver1.0/utils/scoring.py:95 | The weight never increases with the position. It strictly decreases over the first ten. |
| ScoringV1.DecayWeights | project-experiment_ver1.0/utils/scoring.py:93-98 | The weights loop returns the decay weight of each profile position. |
| ScoringV1.Ranked | project-experiment_ver1.0/utils/scoring.py:87 | The re-sorted profile lists every profile aspect and only those. Some permutation of the profile rows, sorted by non-increasing `総合スコア`, gives the aspect at every position. |
| ScoringV1.HigherTotalWeighsMore | project-experiment_ver1.0/utils/scoring.py:87-98 | A profile row with a strictly higher total than another is placed earlier in the re-sorted profile, so its decay weight is at least as large. |
| ScoringV1.Products | project-experiment_ver1.0/utils/scoring.py:106 | `weight_vec * row` gives one product per profile aspect: its weight × the row's value at that label. A label that is not a column contributes 0. |
| ScoringV1.Dot | project-experiment_ver1.0/utils/scoring.py:106 | `(weight_vec * row).sum()`: the left-to-right sum of the products. It has no contract of its own. |
| ScoringV1.SpotScoreV1 | project-experiment_ver1.0/utils/scoring.py:101-106 | A spot's score: the dot product of the decay weights of the ranked profile with the spot's raw scores. Its properties are `ScoringV1.TailHasNoEffect`, `ScoringV1.OnlyFirstTenMatter` and `ScoringV1.SpotScoreV1NonNegative`. |
| ScoringV1.TailHasNoEffect | project-experiment_ver1.0/utils/scoring.py:101-106 | Profile positions from the eleventh on have no effect on any spot's score. |
| ScoringV1.OnlyFirstTenMatter | project-experiment_ver1.0/utils/scoring.py:101-106 | Two profiles with the same first ten aspects give every spot the same score. |
| ScoringV1.SpotScoreV1NonNegative | project-experiment_ver1.0/utils/scoring.py:106 | Non-negative catalogue scores give a non-negative spot score. |
| ScoringV1.ScoresV1NonNegative | project-experiment_ver1.0/utils/scoring.py:104-107 | Non-negative catalogue scores give every spot a non-negative score. |
| ScoringV1.ScoresV1 | project-experiment_ver1.0/utils/scoring.py:104-107 | There is one score per catalogue row, each that row's dot product. |
| ScoringV1.ScoreRowsV1 | project-experiment_ver1.0/utils/scoring.py:104-107 | The row loop returns exactly `ScoresV1`. |
| ScoringV1.RecommendV1 | project-experiment_ver1.0/utils/scoring.py:78-110 | `KeyError` exactly for an empty catalogue. |
| ScoringV1.RecommendV1Result | project-experiment_ver1.0/utils/scoring.py:109-110 | A successful result lists min(10, number of spots) distinct catalogue spots with their own scores, non-increasing. No omitted spot scores above the last one listed. Non-negative catalogue scores give non-negative listed scores. |
| ScoringV1.RecommendV1IgnoresTopK | project-experiment_ver1.0/utils/scoring.py:78 | The `top_k` argument has no effect on the result. |
| ScoringV1.RecommendSpotsV1 | project-experiment_ver1.0/utils/scoring.py:78-110 | The method returns exactly `RecommendV1`, errors included. |

## Left out

- The Streamlit application is not part of this model: `app.py`, with its session state, step machine, CSV logging, random condition assignment, input checks and display rounding. Neither is the rendering in `utils/ui_helpers.py`. Neither is `utils.load_data`, so the catalogue and the feedback are inputs.
- `app.py` calls both functions with the ver1.0 signatures. Each module is modelled on its own terms, and the call sites are not modelled.
- Floating point is modelled as exact `real` arithmetic. IEEE-754 rounding, overflow of `np.exp` and NaN propagation are not modelled.
- pandas skips NaN when summing. That is modelled only in `ScoringV1.Products`, where a profile label missing from the catalogue contributes 0.
- `np.exp` is a parameter, not computed. Only its positivity is assumed, and its strict monotonicity where order matters.
- Tie order among equal keys is modelled only where a contract names it. `Ranking.Order` is one admissible descending order (an insertion sort). Its contracts state only sortedness and permutation, because pandas' default descending sort makes no promise among equal keys. The row-wise rank `Ranking.RankOf` does fix a tie rule: it is applied to the top-k values and puts equal values in top-k list order. `Ranking.RankOfFirstMaximum`, `Ranking.RankOfLastMinimum` and `Scoring.SpotRankWeightsEndpoints` rely on that rule when they say which of several equal values gets 1.0 and which gets 0.0. pandas gives the same order only where its descending sort at `utils/scoring.py` line 96 keeps equal values in place. For a row with a unique maximum and a unique minimum the three lemmas hold whatever the tie rule. In `project-experiment_ver1.0/utils/scoring.py` the outer merge at line 67 puts the summary rows in aspect-name order before the sort at line 73, so pandas starts from that order, while `ScoringV1.Summary` starts from column order. The contracts of `ScoringV1.Summary` and `ScoringV1.Ranked` state only sortedness and permutation, so they hold for either starting order, but the model does not say which of several equal totals pandas lists first.
- The input catalogue cannot be mutated, since it is a value. The copy the source makes is therefore implicit.
- A spot's feedback is modelled as the list of viewpoints under `["viewpoints"]`. The feedback's other fields and the inner dictionary layer are not modelled.
- Exceptions are modelled by their type (`KeyError`, `ZeroDivisionError`, `TypeError`) without a message or the missing key.
- Every catalogue operation requires distinct aspect column names, none of them `スポット`, the name column that lines 18 and 80 of `utils/scoring.py` exclude from the aspects (`Tables.WellFormed`). With a repeated column, pandas returns a frame for `df[col]`, and in `utils/scoring.py` the `if max_v == min_v` test then raises `ValueError`. That error is not modelled.
- Scoring.Recommend: requires distinct profile aspects and distinct top-k names. pandas' label lookup over duplicate labels returns several values, which is not modelled.
- Scoring.Recommend: an empty catalogue is `KeyError` (sorting an empty frame by a missing column). The per-row checks of the source are made once before the row loop. They do not depend on the row, so they fail on the first row or never.
- Scoring.Recommend: when N = 0, `range(0)` makes no division, so an empty profile is not an error by itself.
- MinMax.Rescale: order preservation is stated as the separate lemma `MinMax.RescaleKeepsOrder`, not in the function's own contract.
- Scoring.SoftmaxPreservesOrder: holds only for a strictly increasing `exp`. The other softmax facts need positivity only.
- ScoringV1.UserPreferenceV1: with no aspect columns, the method-1 frame has no `観点` column to merge on, which is a `KeyError`. The model returns that error.
- ScoringV1.Products: a profile with duplicate aspect names is aligned position by position. pandas would align duplicate labels pairwise, which is not modelled.
- ScoringV1.RecommendV1: the catalogue's `スポット` column becomes the index. Only the aspect columns enter the dot product.
