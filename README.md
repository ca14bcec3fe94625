# BuyWise purchase regret: a Dafny model

BuyWise reads a purchase history (from a CSV file or the manual entry form).
It checks the history and prepares it. It then gives every purchase a regret
score from 0 to 100, built from seven factors, and summarises the scores. This
project models that core in Dafny and proves its properties:

- the seven factor scorers and the food-category exemption (`Factors`);
- the composite score and the table scorer (`Scoring`);
- the score interpretation and the whole-table analysis (`Analysis`);
- the Japanese header rename and the frame the ingestion code mutates
  (`Frames`);
- CSV validation (`Validation`) and the cell coercions it relies on
  (`Coercion`);
- the derived necessity rating (`Necessity`);
- the preprocessing that turns a table into dated, sorted purchase rows
  (`Processing`, `Sorting`, `Purchases`);
- the per-category summary (`Summary`);
- the manual-entry table (`ManualInput`).

The models use these representations:

- A timestamp is a whole number of minutes. `.days` of a difference is its
  floor division by 1440, the calendar day is `t / 1440`, and the time of day
  is `t % 1440`.
- Amounts, ratings and sub-scores are `real`.
- The reference date ("now"), `np.log10`, and pandas' text-to-number and
  text-to-date parsing are parameters.
- A pandas frame is a `Table` value: column names, one cell sequence per
  column, and a height. A `Frame` object holds one, for the functions that
  overwrite columns in place.
- A NaN produced by a mean is `None`.

Functions that mutate a frame or loop are methods. Each is proved equal to a
specification function, and the properties are proved about those functions:

- `validate_csv` is `Validation.ValidateCsv`.
- `process_csv_data` is `Processing.ProcessCsvData`.
- `add_regret_scores_to_dataframe` is `Scoring.AddRegretScores`.
- `get_overall_regret_analysis` is `Analysis.OverallRegretAnalysis`.

## Model

| member | source | states |
|---|---|---|
| Factors.IsFoodCategory | utils/regret_calculator.py:13-19 | A category is a food category exactly when some keyword of `FOOD_KEYWORDS` occurs in the category itself as a substring, so the `strip()` never changes the answer |
| Factors.KeywordsIgnoreStrip | utils/regret_calculator.py:13-19 | Each food keyword occurs in the stripped category exactly when it occurs in the category |
| Common.StripKeepsOccurrences | utils/regret_calculator.py:18-19 | A non-empty, space-free keyword occurs in `s.strip()` exactly when it occurs in `s` |
| Factors.GapScore | utils/regret_calculator.py:33-45 | 0 exactly when necessity ≤ usage; 5, 12 and 20 exactly for gaps of 1, 2 and 3; 30 for every other positive gap |
| Factors.GapScoreMonotone | utils/regret_calculator.py:33-45 | For whole-number gaps the score never decreases as the gap grows |
| Factors.GapScoreFractional | utils/regret_calculator.py:38-45 | A positive gap below 4 that is not a whole number (such as 0.5) scores 30, more than the next whole gap up |
| Factors.TimeWeight | utils/regret_calculator.py:66-73 | The weight is 0.3 exactly under 30 days, 0.6 exactly from 30 to under 90, 0.9 exactly from 90 to under 180, and 1.2 exactly from 180 days |
| Factors.TimeWeightMonotone | utils/regret_calculator.py:66-73 | The weight never decreases with the elapsed days |
| Factors.TimeDecayScore | utils/regret_calculator.py:61-79 | 0 under 7 days; never above 15 |
| Factors.TimeDecayBounds | utils/regret_calculator.py:61-79 | For usage in [1, 5] the score lies in [0, 14.4], so the cap at 15 never binds; from 7 days on it equals (5 − usage) / 4 · weight · 12 |
| Factors.TimeDecayAntitoneInUsage | utils/regret_calculator.py:76-79 | Higher usage never gives a higher score |
| Factors.TimeDecayMonotoneInDays | utils/regret_calculator.py:61-79 | For usage at most 5, more elapsed days never give a lower score |
| Factors.PriceWeightScore | utils/regret_calculator.py:96-110 | Exactly 2 for amounts up to 10000; never above 20 |
| Factors.PriceWeightDegenerateStats | utils/regret_calculator.py:101-110 | With a non-positive average and maximum, the average ratio falls back to 1 and the maximum ratio to 0 |
| Factors.PriceWeightLargeOverSmall | utils/regret_calculator.py:96-110 | Above 10000, when the logarithm term exceeds 1, the score lies in (2, 20] |
| Factors.RecencyScore | utils/regret_calculator.py:125-134 | 8 exactly for 3 days or fewer, negative counts included; 6 exactly for 4 to 7 days; 4 exactly for 8 to 14; 2 exactly for 15 to 30; 0 exactly after 30 days |
| Factors.RecencyAntitone | utils/regret_calculator.py:125-134 | More elapsed days never give a higher score |
| Factors.CategoryRepetitionScore | utils/regret_calculator.py:155-173 | 0 when the category has at most one date; otherwise 15, 10, 5 or 0 exactly when the nearby count (other timestamps within ±30 days) is at least 3, 2, 1 or 0 |
| Factors.RepetitionMonotone | utils/regret_calculator.py:159-173 | Adding dates to the category list never lowers the score |
| Factors.RepetitionIgnoresSameTimestamp | utils/regret_calculator.py:159-162 | A further copy of the current timestamp does not count as a nearby purchase |
| Factors.NearbyWindowAsymmetric | utils/regret_calculator.py:161 | `abs(...days)` floors before taking the absolute value, so the window reaches 30 days and 23 hours ahead but only 30 whole days back |
| Factors.LateNightScore | utils/regret_calculator.py:191-207 | One of 0, 4, 7 and 10; 10 exactly before 05:00, 7 exactly from 23:00, 4 exactly from 21:00 to before 23:00 |
| Factors.LateNightDaily | utils/regret_calculator.py:192-204 | The score depends only on the time of day |
| Factors.DateOnlyIsLateNight | utils/regret_calculator.py:186-196 | A date without a time part is midnight and scores 10. This contradicts the docstring at lines 186-188, which promises 0 when the CSV has no time information: the `except` fallback never sees a date-only value |
| Factors.ImpulseScore | utils/regret_calculator.py:227-249 | 10, 7 or 4 exactly when the same-day count (the purchase included) is at least 4, 3 or 2; below 2 same-day purchases, 8, 5, 3 or 0 exactly when the trailing-window count is at least 5, 3 to 4, 2, or under 2 |
| Factors.TrailingWindowInMinutes | utils/regret_calculator.py:237-240 | A date counts in the trailing window exactly when it is earlier than the purchase and less than 4 days (in minutes) before it |
| Factors.ImpulseDuplicateTimestamp | utils/regret_calculator.py:227-234 | A timestamp that appears twice in the table scores at least 4, because the same-day count includes the purchase itself |
| Scoring.MaxAmountAttained | utils/regret_calculator.py:294 | The maximum amount is the amount of some purchase and no purchase exceeds it |
| Scoring.CategoryDatesExact | utils/regret_calculator.py:297 | A timestamp is among the category's dates exactly when some purchase of that category has it |
| Scoring.RegretScore | utils/regret_calculator.py:252-316 | A food category gets a gap and time-decay score of 0; otherwise those two are the gap and time-decay scorers' values. The price score uses the table's mean and maximum amount; the recency and late-night scores use the purchase date; the repetition score uses the dates of the same category; the impulse score uses all dates. The total is the sum of the seven sub-scores, capped at 100 |
| Scoring.ScoreRanges | utils/regret_calculator.py:301-314 | For usage in [1, 5], and a logarithm above 1 for amounts over 10000, every sub-score stays in its documented range and the total lies in [0, 100] |
| Scoring.FoodIgnoresRatings | utils/regret_calculator.py:301-304 | For a food category the necessity and usage ratings do not affect any score |
| Scoring.TableScores | utils/regret_calculator.py:332-343 | One score dictionary per row, in iteration order: entry k is the score of row k against the whole table |
| Scoring.CollectScores | utils/regret_calculator.py:332-343 | The loop over `iterrows` collects one score dictionary per row, in iteration order |
| Common.MapInOrder | utils/regret_calculator.py:332-343 | A loop that appends the scorer's result for each row in turn yields the list of the scorer applied to every row |
| Scoring.AddRegretScores | utils/regret_calculator.py:329-357 | Fails exactly on an empty table, where `pd.DataFrame([])` has no `total_score` column and line 348 raises `KeyError`. Otherwise every row is kept, and the row at position j receives the scores computed for the row at position `indexLabel(j)`, or NaN when that label is not a position |
| Scoring.SourceIsOwnRowWhenInOrder | utils/regret_calculator.py:346-355 | When the labels are 0..n−1 in order, every row receives its own scores |
| Scoring.SourceIsPermutation | utils/regret_calculator.py:346-355 | When the labels are a permutation of 0..n−1, no two rows receive the same row's scores |
| Scoring.MisalignedAfterSort | utils/regret_calculator.py:346-355 | For two swapped rows, a row whose own gap score is 0 receives a gap score of 30 from the other row |
| Scoring.AddRegretScoresByPosition | utils/regret_calculator.py:329-357 | The corrected table scorer: it still fails exactly on an empty table; otherwise every row receives its own scores |
| Analysis.TierOf | utils/regret_calculator.py:370-411 | Each of the six tiers is chosen exactly on its band: up to 20, (20, 35], (35, 50], (50, 65], (65, 80], and above 80. A NaN score fails every comparison and lands in the worst tier |
| Analysis.Describe | utils/regret_calculator.py:370-411 | The emoji follow the tiers in order: green exactly for the best tier, yellow exactly for the next two, orange exactly for the fourth, red exactly for the two worst |
| Analysis.InterpretationOf | utils/regret_calculator.py:370-411 | Each grade is given exactly on its band: "매우 만족" up to 20, "만족" on (20, 35], "보통" on (35, 50], "아쉬움" on (50, 65], "후회" on (65, 80], and "매우 후회" above 80 or for NaN |
| Analysis.TierMonotone | utils/regret_calculator.py:370-411 | A higher score never gets a better grade |
| Analysis.GradesDistinct | utils/regret_calculator.py:370-411 | Different tiers have different grade names |
| Analysis.TierMatchesBucket | utils/regret_calculator.py:370-411 | The distribution buckets agree with the grades, the top bucket joining the two worst grades |
| Analysis.OverallAnalysis | utils/regret_calculator.py:424-478 | An empty result exactly when the total-score column is absent; `total_purchases` is the row count |
| Analysis.OverallRegretAnalysis | utils/regret_calculator.py:414-478 | The method, with its loop filling `main_causes` and the scan `max` performs, computes the analysis function |
| Analysis.CollectCauses | utils/regret_calculator.py:448-451 | The loop collects the means of the present score columns, in `score_columns` order |
| Analysis.CauseMeansItems | utils/regret_calculator.py:448-451 | Every `main_causes` item is a listed column present in the table, paired with that column's mean |
| Analysis.CauseMeansCovers | utils/regret_calculator.py:448-451 | Every listed column that is present in the table has a `main_causes` item |
| Analysis.CauseMeansInColumnOrder | utils/regret_calculator.py:443-451 | The items' names are the listed columns at strictly increasing positions, so the dictionary keeps `score_columns` order |
| Analysis.TopCause | utils/regret_calculator.py:454-457 | The scan yields the first maximal cause, and ("알 수 없음", 0) when there is none |
| Analysis.DistributionPartition | utils/regret_calculator.py:431-435 | The five buckets count every row exactly once |
| Analysis.RegretCountIsTopBuckets | utils/regret_calculator.py:434-438 | The rows above 50 are exactly the two top buckets |
| Analysis.SummaryCounts | utils/regret_calculator.py:427-469 | The bucket counts add up to `total_purchases`, and `regret_count` is the two top buckets |
| Analysis.RegretSumBounds | utils/regret_calculator.py:438-440 | For non-negative amounts the regretted amount lies between 0 and the total amount |
| Analysis.SummaryValues | utils/regret_calculator.py:425-476 | `avg_regret_score` is the mean score and `interpretation` its grade; the five distribution counts are the numbers of rows in [.., 20], (20, 35], (35, 50], (50, 65] and above 65; `regret_count` counts rows above 50; `regret_ratio` is that count as a percentage of the rows; `regret_amount` is the amount of those rows truncated to an integer (0 when there are none); `regret_amount_ratio` is that amount as a percentage of all spending; the main cause is the prefix-less name and mean of the first maximal column |
| Analysis.PercentTimesWhole | utils/regret_calculator.py:468-470 | A percentage of a positive whole, times the whole, is a hundred times the part; with no positive whole it is 0 |
| Analysis.NoRegretNoSum | utils/regret_calculator.py:437-439 | With no row above 50 the summed regretted amount is 0, so the `else 0` branch agrees with the sum |
| Analysis.RatiosBounded | utils/regret_calculator.py:438-472 | Both ratios lie in [0, 100], each is 0 when its denominator is 0, and the regretted amount is not negative |
| Analysis.FirstMaxIsFirstMaximum | utils/regret_calculator.py:455 | `max` returns an item whose mean no other item exceeds and which no earlier item equals |
| Analysis.TieGoesToEarlierColumn | utils/regret_calculator.py:443-455 | On a tie the main cause is the column listed first |
| Analysis.NoCauseColumns | utils/regret_calculator.py:448-457 | With no score columns present the main cause is ("알 수 없음", 0) |
| Analysis.CauseNamesDropPrefix | utils/regret_calculator.py:474 | Each of the seven score columns is `후회점수_` followed by its reported name, which no longer starts with the prefix; the fallback name is kept as is |
| Frames.HeaderMapInverse | utils/translations.py:21-30 | The Japanese-to-Korean header map is one-to-one, and no Korean header is itself renamed |
| Frames.RenameJa | utils/csv_processor.py:13-15 | Every header is replaced by its Korean name when it has one, in place |
| Frames.RenameLeavesNoJa | utils/csv_processor.py:13-15 | After the rename no Japanese header is left |
| Frames.RenameFindsKorean | utils/csv_processor.py:13-15 | A Korean header is present after the rename exactly when it or its Japanese name was present before |
| Frames.ConvertJaColumns | utils/csv_processor.py:11-16 | The same frame object when nothing is renamed; otherwise a fresh frame with the renamed headers and the same data |
| Validation.DetectFormat | utils/csv_processor.py:37-45 | The new layout exactly when `고민기간` and `재구매의향` are both present; else the old layout exactly when `필요도` is present; else none |
| Validation.MissingOf | utils/csv_processor.py:48-50 | The missing columns are exactly the required ones not present, and the list is empty exactly when all are present |
| Validation.MissingOfIsSubsequence | utils/csv_processor.py:48-50 | For every required list and header list, the missing columns are the required list at strictly increasing positions, so they keep the required-list order and each comes from its own position in that list |
| Validation.MissingColumnsInOrder | utils/csv_processor.py:41-50 | Worked example: a new-layout table lacking 날짜, 금액 and 사용빈도 is refused with those three names, in that order |
| Validation.FirstInvalidIntent | utils/csv_processor.py:88-90 | No offending intent value exactly when every value is a yes or no word |
| Validation.FirstInvalidIntentAt | utils/csv_processor.py:88-90 | The value reported is the first offending one |
| Validation.EnsureNumeric | utils/csv_processor.py:63-67 | Conversion fails exactly when some cell cannot be parsed; otherwise only the converted column changes |
| Validation.Check | utils/csv_processor.py:37-112 | With neither layout detected the error is the missing-format message; with a layout whose required columns are missing, the error names exactly those columns; a table that passes has a detected layout, all its required columns and at least one row |
| Validation.ValidateCsv | utils/csv_processor.py:19-112 | `(True, None)` exactly when the checks pass, otherwise `(False, message)` for the first failing check; without a rename, the caller's frame keeps the converted columns |
| Validation.CheckAcceptsIff | utils/csv_processor.py:37-112 | A table is accepted exactly when it meets every condition, stated without the order of the checks |
| Validation.EmptyTableRejected | utils/csv_processor.py:53-54 | A table with the right columns and no rows is refused as empty |
| Validation.NegativeAmountRejected | utils/csv_processor.py:69-70 | A negative amount is refused |
| Validation.NegativeThinkingRejected | utils/csv_processor.py:80-81 | An accepted table of the new layout has no negative thinking time |
| Validation.IntentReportsFirstInvalid | utils/csv_processor.py:84-90 | A table that passes the earlier checks is refused with the first invalid intent value |
| Validation.FractionalRatingsPass | utils/csv_processor.py:99-110 | `between(1, 5)` includes both bounds and accepts fractions such as 2.5, and refuses NaN |
| Coercion.ToNumericColumn | utils/csv_processor.py:65 | The conversion fails exactly when some cell cannot be parsed; otherwise every cell is converted and the column becomes numeric |
| Coercion.ToDateColumn | utils/csv_processor.py:58 | The conversion fails exactly when some cell is not a date; otherwise each cell maps to its timestamp |
| Coercion.ValidIntentIsYesOrNo | utils/csv_processor.py:84-86 | A valid intent value is a yes exactly when it is not a no word |
| Coercion.YesNoDisjoint | utils/csv_processor.py:84-85 | No word is both a yes and a no |
| Coercion.PaddedUpperYes | utils/csv_processor.py:89 | Spaces and case are ignored: " YES " is a yes |
| Necessity.BaseScore | utils/csv_processor.py:256-263 | 1 exactly for 0 days; 2 exactly for any other count under 7 (negative counts included); 3 exactly from 7 to under 30; 4 exactly from 30 days |
| Necessity.NecessityFromInput | utils/csv_processor.py:257-270 | Without repurchase intent the rating is the base score; with it, the base score plus one |
| Necessity.NecessityRange | utils/csv_processor.py:257-270 | For non-negative days the rating lies in [1, 5]; it is 1 exactly for an impulse purchase without intent, and 5 exactly for 30 days or more with intent |
| Necessity.NecessityMonotone | utils/csv_processor.py:257-270 | More days or added intent never lower the rating |
| Necessity.NegativeDaysUnderAWeek | utils/csv_processor.py:257-262 | A negative day count falls in the under-a-week step |
| Necessity.WorkedExamples | utils/csv_processor.py:251-254 | (0, no) gives 1, (7, yes) gives 4, (30, yes) gives 5 |
| Processing.DeriveNecessity | utils/csv_processor.py:150-154 | The derived necessity column: each row's rating from its truncated thinking time and its intent flag, or failure where a thinking time is not a number |
| Processing.Processed | utils/csv_processor.py:115-174 | When preparation succeeds, the rows are sorted newest first and are a permutation of the labelled input rows |
| Processing.ProcessCsvData | utils/csv_processor.py:115-174 | The method, working on a copy, yields the prepared rows, and the caller's frame is unchanged |
| Processing.SourceRowsLabelled | utils/csv_processor.py:129-165 | Before sorting, row k carries index label k and is built from input row k |
| Processing.ProcessedIsSortedPermutation | utils/csv_processor.py:115-168 | The result is sorted newest first and is a permutation of the input rows; each output row is the input row its label names |
| Processing.ElapsedDaysOfPastPurchases | utils/csv_processor.py:171-172 | The elapsed days are the floor of (now − date) in days, and are not negative for past purchases |
| Processing.AcceptedRowsInRange | utils/csv_processor.py:19-174 | After validation passes, every prepared row has a non-negative amount and necessity and usage in [1, 5] |
| Processing.OldestFirstInputComesOutReversed | utils/csv_processor.py:168 | For input sorted oldest first, the first output row carries the last input label |
| Processing.ProductFilled | utils/csv_processor.py:161-165 | The product column the later steps see is filled from the input's own product and category columns |
| Summary.Categories | utils/csv_processor.py:187 | The group keys are exactly the categories present, each once |
| Summary.SummaryCountsAddUp | utils/csv_processor.py:187-195 | The purchase counts of the summary rows add up to the number of purchases |
| Summary.CategorySummary | utils/csv_processor.py:187-198 | One row per category present, sorted by total amount, largest first, holding the same rows as the grouping |
| Summary.SummaryEntries | utils/csv_processor.py:187-195 | Each summary row is the statistics of its own category |
| Summary.SummaryCoversCategories | utils/csv_processor.py:187 | Every category present has a summary row |
| Summary.SummaryCategoriesDistinct | utils/csv_processor.py:187 | No category has two summary rows |
| Summary.SummaryMeansInRange | utils/csv_processor.py:187-191 | For valid purchases a category's count is positive, its totals are not negative, and its mean ratings lie in [1, 5] |
| ManualInput.CreateFromManualInput | utils/csv_processor.py:273-294 | No table exactly when there are no items; a built table has the six manual columns and one row per item |
| ManualInput.ManualInputOutcomes | utils/csv_processor.py:273-294 | None exactly for no items; a `KeyError` exactly when some selected column is missing from every item, naming those columns; otherwise the six columns in order, one row per item, with NaN for missing keys |
| ManualInput.ManualTableHasOldLayout | utils/csv_processor.py:292 | The manual table is in the old layout and has every column it requires |

## Left out

- `np.log10` is a parameter. The price score is proved only in its ≤ 10000 branch, its cap, and where a bound on the logarithm is given.
- `pd.Timestamp.now()` is a parameter. The scorer reads the clock once per row; the model uses one reference date for the whole table.
- Pandas' parsing of text as a number or a date is a parameter that may fail. Which strings parse is not modelled.
- Floats are exact reals. IEEE rounding and `round(..., 1)` in the analysis and the category summary are not modelled.
- `Lower` folds ASCII letters only, where `str.lower` folds all of Unicode. All intent words are ASCII or caseless.
- Missing dates (NaT) are not modelled: a blank 날짜 cell is either a parse failure or a real timestamp. Pandas parses it as NaT without raising, so validation accepts such rows where `ValidateCsv` refuses them, and the late-night scorer's `except` branch, which turns the error `NaT.time()` raises into 0, is not captured.
- `Processing.ProcessCsvData`: returns None for a non-text category or a NaN amount, rating or usage, where pandas would carry the NaN through. Validation already refuses NaN necessity and usage values, but not a NaN amount.
- `Analysis.OverallAnalysis`: the model takes a table whose score columns have no NaN from a misaligned assignment. Such NaN only arise when index labels are not positions.
- `Summary.CategorySummary`: lists the groups in order of first appearance, where `groupby` sorts the keys. The sort by total decides the final order, except between equal totals.
- `Sorting.SortDesc`: stable. Pandas' default sort leaves the order of equal dates unspecified.
- Duplicate column names and pandas dtypes other than "numeric or not" are not modelled.
- Two validation messages are shortened: the date message omits the text of the caught exception, and the intent message omits the offending value. The value itself is part of the error (`BadIntent`).
- `get_basic_stats` is not modelled. The remaining files (app.py, auth.py, database.py, openai_service.py, visualizer.py, and the rest of translations.py) are UI, I/O or network code.

## Findings

| source | as written | input that shows it | evidently intended | confidence | as-written member | corrected member |
|---|---|---|---|---|---|---|
| utils/regret_calculator.py:346-355 | The scores collected by position in a fresh 0..n−1 frame are assigned to `result_df` by index label. After the date sort in utils/csv_processor.py:168, the row labelled k receives the scores of the k-th row iterated, not its own | Two non-food purchases stored oldest first: the older one has necessity 5 and usage 1, the newer one necessity 1 and usage 5. After sorting, the newer row (label 1) receives the older row's gap score of 30, and the older row receives 0 | Every row receives its own scores | not executed | Scoring.AddRegretScores, Scoring.MisalignedAfterSort | Scoring.AddRegretScoresByPosition |
