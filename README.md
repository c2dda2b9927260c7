# Daily-trade pipeline and survey agent: a Dafny model

This project models the structural core of two Python packages and proves properties of it.

**`daily_trade`** turns daily price bars into a supervised data set and a direction classifier:

- `DataLoader` downloads each symbol with bounded retries, normalises its columns and combines the
  symbols that produced data.
- `Preprocessor` sorts the table, removes duplicate (timestamp, symbol) rows and zero-volume days,
  winsorises price series whose rolling median/standard-deviation band flags an outlier, and drops
  symbols with too short a history.
- `FeatureBuilder` computes per-symbol features on each symbol's time-ordered rows: slopes,
  volume and turnover ratios, returns, calendar flags and the leading-missing flag.
- `TargetGenerator` writes the next-day return, clips it, labels it against a margin and drops the
  rows without a return.
- `AdvancedFeatureEngineer` adds lag, rolling, interaction, nonlinear and domain features.
  `FeatureSelector` drops excluded names and one feature of every highly correlated pair.
- `DirectionModel` keeps the fitted-state bookkeeping around a foreign gradient-boosting
  classifier: label validation, missing-value filling, column reindexing, top-N importances,
  per-fold score records, and the save/load payload.

**`sns_ai_automation_agency`** contributes four smaller pieces:

- the adaptive restaurant-survey graph, with its router and the state updates of its two nodes;
- the list reducers of its state;
- `to_serializable` and the `CachePathManager` singleton;
- the loop that shapes image-search items into result records.

A table is a `Frame`: a column list and rows. Each row carries the day number of its timestamp,
its symbol, and a map from column name to cell. A cell is `NaN` (missing), `Num(real)` or
`Flag(bool)`. Prices are unbounded reals, so IEEE rounding is not modelled. Every library
computation the code calls is a function-valued parameter:

- the `ta` indicators;
- the pandas rolling standard deviation and median, `rank(pct=True)`, `corr` and `var`;
- `winsorize`;
- LightGBM and the sklearn metrics;
- the download;
- the language models.

Exceptions are modelled as `Err(ValueError | KeyError | Exception)` values. Methods model the
loops that accumulate or update state. Each method is proved equal to a specification function,
and the properties are lemmas about those functions.

Files:

- `wrappers.dfy`: Option, Result and the exception kinds.
- `text.dfy`: the decimal rendering of integers, ASCII lower-casing and `str.strip()`.
- `calendar.dfy`: the weekday and the day of the month of a day number.
- `frames.dfy`: rows, cells, the stable multi-key sort, per-symbol selection and concatenation,
  forward fill.
- `loader.dfy`, `preprocessor.dfy`, `feature_builder.dfy`, `target_generator.dfy`,
  `feature_engineering.dfy`, `model_direction.dfy`: one module per source file of the pipeline.
- `restaurant_schema.dfy`, `restaurant_engine.dfy`: the survey state and its graph.
- `serialization.dfy`, `cache_paths.dfy`: the two helpers in `utils.py`.
- `image_search.dfy`: the result-shaping loop.

Where the code and its documentation disagree, the model follows the code. In particular,
`DataLoader._validate_data` is documented as only logging. It does, however, read the timestamp
column unconditionally. A non-empty download that has no timestamp column (one whose index is
not called "Date") therefore raises a KeyError, which `_fetch_symbol_data` turns into a failed
symbol.

Several defects are reproduced as written, not fixed:

- `FeatureBuilder.build` returns a bare frame for an empty input.
- `_add_technical_features` returns a bare frame on fewer than 14 rows, so the unpacking that
  follows fails.
- `build` reports only the last symbol's column list, and that list includes "symbol".
- The `oversold` feature answers to the configuration key "oversold_oversold".
- `predict` skips both of `predict_proba`'s safeguards.
- `CachePathManager` ignores every application name after the first.
- `FeatureBuilder` documents that every feature uses only information up to its own row, but
  `next_day` reads the following row.

## Model

| member | source | states |
|---|---|---|
| Frames.Sort | daily_trade/src/daily_trade/data/preprocessor.py:144-146 | the pandas multi-key `sort_values` as a stable insertion sort: a permutation of the input |
| Frames.SortSorted | daily_trade/src/daily_trade/data/preprocessor.py:144-146 | the result of the sort is ordered by the key |
| Frames.SortOfSorted | daily_trade/src/daily_trade/target_generator.py:113-116 | sorting an already sorted sequence changes nothing |
| Frames.Symbols | daily_trade/src/daily_trade/target_generator.py:103 | `unique()` of the symbol column: each symbol once, and exactly the symbols the rows carry |
| Frames.GroupedIsPermutation | daily_trade/src/daily_trade/data/feature_builder.py:116-123 | splitting a table by symbol and concatenating the parts loses and duplicates no row |
| Frames.ConcatBySymbol | daily_trade/src/daily_trade/data/feature_builder.py:123-126 | sorting concatenated per-symbol frames by (timestamp, symbol) orders them and gives each symbol back exactly its own frame's rows |
| Frames.FilterIsSubsequence | daily_trade/src/daily_trade/feature_engineering.py:299 | a list comprehension with a condition keeps the surviving elements in their original order |
| Frames.ForwardFill | daily_trade/src/daily_trade/model_direction.py:89 | `ffill()` keeps the length; what it fills is stated by ForwardFillMeaning |
| Frames.ForwardFillMeaning | daily_trade/src/daily_trade/model_direction.py:89 | a present cell is kept; a filled cell is the nearest present cell above it; a cell stays missing only when every cell up to it is missing |
| Frames.FillZero | daily_trade/src/daily_trade/model_direction.py:89 | `fillna(0)` puts 0 in every missing cell and keeps every present one |
| Loader.NormalizeName | daily_trade/src/daily_trade/data/loader.py:173 | each upper-case ASCII letter becomes its lower-case letter, each space an underscore, every other character stays; no upper-case letter or space remains |
| Loader.NormalizeNameIdempotent | daily_trade/src/daily_trade/data/loader.py:173 | normalising a normalised name changes nothing |
| Loader.YFinanceSchemaNames | daily_trade/src/daily_trade/data/loader.py:170-177 | yfinance's Date, Open, High, Low, Close, Adj Close and Volume become timestamp, open, high, low, close, adj_close and volume |
| Loader.SourceColumn | daily_trade/src/daily_trade/data/loader.py:173-177 | the raw column a schema column comes from is one whose normalised (and "date"-renamed) name is that column |
| Loader.CleanColumns | daily_trade/src/daily_trade/data/loader.py:190-201 | the kept columns are the canonical list filtered to those present, in canonical order |
| Loader.CleanRows | daily_trade/src/daily_trade/data/loader.py:170-180 | one row per raw row, carrying the requested symbol, the index as timestamp and the renamed columns' values |
| Loader.CleanData | daily_trade/src/daily_trade/data/loader.py:158-206 | succeeds with the canonical columns exactly when validation does not raise; it raises only for a non-empty download without a timestamp column |
| Loader.ValidateData | daily_trade/src/daily_trade/data/loader.py:208-246 | a KeyError exactly for a non-empty frame without a timestamp column; the counts never exceed the row count; an empty frame gives an empty report |
| Loader.WaitAfter | daily_trade/src/daily_trade/data/loader.py:127 | the exponential back-off scaled by `retry_delay`, clamped to [1, 10] seconds |
| Loader.MaxAttempts | daily_trade/src/daily_trade/data/loader.py:126 | the attempt budget is the larger of 1 and `retry_count` |
| Loader.AttemptOnce | daily_trade/src/daily_trade/data/loader.py:132-150 | one attempt raises, returns None for an empty download, or returns a non-empty cleaned frame |
| Loader.FetchSymbolData | daily_trade/src/daily_trade/data/loader.py:114-156 | attempts repeat only while they raise, at most the budget; an empty download ends the loop with None; no exception escapes; the waits between attempts are the back-off values |
| Loader.FetchAll | daily_trade/src/daily_trade/data/loader.py:85-96 | the loop collects the non-empty frames in symbol order and the failed or empty symbols |
| Loader.LoadOhlcv | daily_trade/src/daily_trade/data/loader.py:67-112 | ValueError exactly when no symbol produced data; otherwise the loaded rows sorted by (timestamp, symbol) with the union of their columns |
| Loader.LoadedFramesRows | daily_trade/src/daily_trade/data/loader.py:85-96 | every row of the loaded frames belongs to a requested symbol whose fetch produced data |
| Loader.FailedSymbolsContributeNothing | daily_trade/src/daily_trade/data/loader.py:85-112 | no output row belongs to a failed symbol, and every output row belongs to a requested one |
| Loader.ResultSortedPermutation | daily_trade/src/daily_trade/data/loader.py:101-105 | the output is sorted by (timestamp, symbol) and is a permutation of the loaded frames' rows |
| Loader.EverySymbolAccountedFor | daily_trade/src/daily_trade/data/loader.py:85-96 | every requested symbol is either loaded or failed: the two lists together are as long as the symbol list |
| Preprocessor.SortData | daily_trade/src/daily_trade/data/preprocessor.py:144-146 | sorted by (timestamp, symbol), same columns, a permutation of the rows |
| Preprocessor.RemoveDuplicates | daily_trade/src/daily_trade/data/preprocessor.py:148-158 | every input key is kept, keys are distinct, and every output row is an input row |
| Preprocessor.DedupKeepsFirst | daily_trade/src/daily_trade/data/preprocessor.py:151 | the first row of every key survives |
| Preprocessor.DedupOnlyFirst | daily_trade/src/daily_trade/data/preprocessor.py:151 | every surviving row is the first row of its key |
| Preprocessor.DedupSorted | daily_trade/src/daily_trade/data/preprocessor.py:146-158 | de-duplicating sorted rows leaves them sorted |
| Preprocessor.RemoveZeroVolume | daily_trade/src/daily_trade/data/preprocessor.py:160-179 | skipped without a volume column; otherwise keeps exactly the rows whose volume is positive, so negative and missing volumes go too |
| Preprocessor.RollingStat | daily_trade/src/daily_trade/data/preprocessor.py:205-208 | a rolling statistic with `min_periods=10` is present only when its window has at least ten present values |
| Preprocessor.EarlyPointsNeverFlagged | daily_trade/src/daily_trade/data/preprocessor.py:205-218 | none of the first nine points of a series can be flagged as an outlier |
| Preprocessor.FlaggedLate | daily_trade/src/daily_trade/data/preprocessor.py:211-218 | a flagged series has an outlier at or after its tenth point |
| Preprocessor.ReplaceNonMissing | daily_trade/src/daily_trade/data/preprocessor.py:222-228 | the winsorised values are written onto the present points in order; missing points stay missing |
| Preprocessor.SetSeries | daily_trade/src/daily_trade/data/preprocessor.py:228 | the `.loc` write keeps every key, leaves other symbols' rows alone and changes no other column |
| Preprocessor.SetSeriesReadBack | daily_trade/src/daily_trade/data/preprocessor.py:228 | reading the column back from the symbol's rows gives the values written |
| Preprocessor.AvailablePriceColumns | daily_trade/src/daily_trade/data/preprocessor.py:185-186 | exactly the price columns the table has |
| Preprocessor.HandleOutliers | daily_trade/src/daily_trade/data/preprocessor.py:181-232 | the nested loops compute the outlier step's specification, whose properties OutliersPreserve and ShortSymbolsUntouched state |
| Preprocessor.WinsorizeSymbol | daily_trade/src/daily_trade/data/preprocessor.py:201-230 | the column loop for one symbol computes the fold over its price columns |
| Preprocessor.OutliersPreserve | daily_trade/src/daily_trade/data/preprocessor.py:183-232 | rows and keys are kept; a cell changes only in a price column of a symbol with at least a window of rows whose original series has an outlier |
| Preprocessor.ShortSymbolsUntouched | daily_trade/src/daily_trade/data/preprocessor.py:197-198 | a symbol with fewer rows than the window is left exactly as it was |
| Preprocessor.ValidateMinTradingDays | daily_trade/src/daily_trade/data/preprocessor.py:234-258 | keeps exactly the rows of symbols with at least `min_trading_days` rows |
| Preprocessor.WholeSymbols | daily_trade/src/daily_trade/data/preprocessor.py:239-242 | a symbol is kept or dropped whole: a kept symbol keeps all of its rows in order |
| Preprocessor.FinalValidation | daily_trade/src/daily_trade/data/preprocessor.py:260-284 | it only logs, but raises a KeyError for a non-empty table without symbol, timestamp or volume |
| Preprocessor.Clean | daily_trade/src/daily_trade/data/preprocessor.py:102-142 | the steps in order compute `clean`'s specification; an empty table is returned unchanged |
| Preprocessor.CleanGuarantees | daily_trade/src/daily_trade/data/preprocessor.py:102-142 | a returned table is sorted by (timestamp, symbol), has one row per key, only input keys, positive volumes when zero-volume removal is on, and only symbols with at least `min_trading_days` rows |
| Preprocessor.GetPreprocessingStats | daily_trade/src/daily_trade/data/preprocessor.py:286-306 | `records_removed` is before minus after, and the removal rate is 0 for an empty input; the symbol counts are the numbers of distinct symbols of each non-empty table, and `symbols_removed` is their difference |
| Preprocessor.CleanStats | daily_trade/src/daily_trade/data/preprocessor.py:286-306 | for the output of `clean`, nothing is added, so the removal rate lies in [0, 1] |
| FeatureBuilder.Slope | daily_trade/src/daily_trade/data/feature_builder.py:382-391 | the slope series has the price series' length and is missing at the first row |
| FeatureBuilder.SlopeOfPresentPrices | daily_trade/src/daily_trade/data/feature_builder.py:382-391 | with present prices, slope[i] = (p[i] - p[j]) / (i - j + 1) for j = max(0, i - w + 1) |
| FeatureBuilder.SlopeUsesOnlyPast | daily_trade/src/daily_trade/data/feature_builder.py:382-391 | the slope at row i does not depend on any later row |
| FeatureBuilder.RatioOfPresentValues | daily_trade/src/daily_trade/data/feature_builder.py:242-250 | with present values, the ratio divides by the mean of the last min(i + 1, w) values |
| FeatureBuilder.RatioUsesOnlyPast | daily_trade/src/daily_trade/data/feature_builder.py:242-250 | the ratio at row i does not depend on any later row |
| FeatureBuilder.ReturnOfPresentPrices | daily_trade/src/daily_trade/data/feature_builder.py:270-271 | the w-row return is missing for the first w rows and p[i] / p[i - w] - 1 after them |
| FeatureBuilder.ReturnUsesOnlyPast | daily_trade/src/daily_trade/data/feature_builder.py:270-271 | the return at row i does not depend on any later row |
| Calendar.Weekday | daily_trade/src/daily_trade/data/feature_builder.py:357 | the weekday of a day number lies in 0..6, Monday being 0; day 0 (1970-01-01) is a Thursday |
| Calendar.WeekdayStep | daily_trade/src/daily_trade/data/feature_builder.py:357 | the weekday of the next day is one more, wrapping from Sunday (6) to Monday (0) |
| Calendar.DayOfMonth | daily_trade/src/daily_trade/data/feature_builder.py:366 | the day of the month lies in 1..31 |
| Calendar.DayOfMonthStep | daily_trade/src/daily_trade/data/feature_builder.py:366 | the day of the month of the next day is one more, or the next day is the 1st |
| Calendar.Anchor0 | daily_trade/src/daily_trade/data/feature_builder.py:366 | 1970-01-01 is the 1st |
| Calendar.Anchor31 | daily_trade/src/daily_trade/data/feature_builder.py:366 | 1970-02-01 is the 1st |
| Calendar.Anchor59 | daily_trade/src/daily_trade/data/feature_builder.py:366 | 1970-03-01 is the 1st, after a 28-day February |
| Calendar.Anchor11016 | daily_trade/src/daily_trade/data/feature_builder.py:357-366 | 2000-02-29 is the 29th and a Tuesday: 2000 is a leap year |
| Calendar.YearBounds | daily_trade/src/daily_trade/data/feature_builder.py:366 | each day of a 400-year era falls within one year of the era: on or after its start and before the next year's |
| Calendar.DayOfYearStep | daily_trade/src/daily_trade/data/feature_builder.py:366 | the day of the year advances by one or restarts at 0 |
| FeatureBuilder.PrevDay | daily_trade/src/daily_trade/data/feature_builder.py:369-370 | true exactly when the previous row exists and lies one day earlier; false at the first row |
| FeatureBuilder.NextDay | daily_trade/src/daily_trade/data/feature_builder.py:373-374 | true exactly when the next row exists and lies one day later; false at the last row; it equals `prev_day` of the next row |
| FeatureBuilder.NextDayReadsNextRow | daily_trade/src/daily_trade/data/feature_builder.py:372-374 | two histories that agree up to a row can give that row different `next_day` flags, so the feature looks ahead |
| FeatureBuilder.NewColumns | daily_trade/src/daily_trade/data/feature_builder.py:193-194 | the columns a step added, sorted by name: exactly the post columns not among the prior ones |
| FeatureBuilder.AssignIndicators | daily_trade/src/daily_trade/data/feature_builder.py:180-185 | the loop over the windows of one moving average equals its assignment list |
| FeatureBuilder.AssignReturns | daily_trade/src/daily_trade/data/feature_builder.py:270-271 | the loop over the return windows equals its assignment list |
| FeatureBuilder.TrendFeatures | daily_trade/src/daily_trade/data/feature_builder.py:173-197 | raises exactly when the slope window is below 2 |
| FeatureBuilder.VolatilityFeatures | daily_trade/src/daily_trade/data/feature_builder.py:199-235 | raises exactly when the standard-deviation window is below 1 |
| FeatureBuilder.VolumeFeatures | daily_trade/src/daily_trade/data/feature_builder.py:237-263 | raises exactly when the ratio window is below 1 |
| FeatureBuilder.TechnicalFeatures | daily_trade/src/daily_trade/data/feature_builder.py:301-350 | fails exactly on fewer than 14 rows: the bare frame returned then cannot be unpacked at line 159 |
| FeatureBuilder.TrendWrites | daily_trade/src/daily_trade/data/feature_builder.py:188-191 | the trend step writes the price slope and the slope relative to the price |
| FeatureBuilder.VolumeWrites | daily_trade/src/daily_trade/data/feature_builder.py:242-250 | the volume step writes the volume ratio and the turnover ratio |
| FeatureBuilder.MomentumWritesReturns | daily_trade/src/daily_trade/data/feature_builder.py:265-299 | for every return window the momentum step writes the percentage change over that many rows |
| FeatureBuilder.SeasonalityWrites | daily_trade/src/daily_trade/data/feature_builder.py:352-380 | the seasonality step writes weekday, day of the month and the two calendar-adjacency flags |
| FeatureBuilder.AssignLastWins | daily_trade/src/daily_trade/data/feature_builder.py:180-194 | after a list of assignments a column holds what its last assignment wrote |
| FeatureBuilder.AssignUntouched | daily_trade/src/daily_trade/data/feature_builder.py:180-194 | a column no assignment names keeps its cells |
| FeatureBuilder.LeadingMaskMeaning | daily_trade/src/daily_trade/data/feature_builder.py:397-398 | the mask is true exactly while the column has been missing since the first row |
| FeatureBuilder.FlagLeadingNans | daily_trade/src/daily_trade/data/feature_builder.py:393-406 | the helper-column loop, the summary and the drop compute the flag step's specification |
| FeatureBuilder.FlaggedColumns | daily_trade/src/daily_trade/data/feature_builder.py:402-404 | rows and keys are kept; the summary column is added and the helper columns removed |
| FeatureBuilder.FlaggedKeepsOthers | daily_trade/src/daily_trade/data/feature_builder.py:393-406 | every other column is as it was |
| FeatureBuilder.FlaggedMeaning | daily_trade/src/daily_trade/data/feature_builder.py:393-406 | a row is flagged exactly when some listed column is missing on every row from the first down to it |
| FeatureBuilder.FlaggedPrefixClosed | daily_trade/src/daily_trade/data/feature_builder.py:393-406 | the flagged rows form a prefix |
| FeatureBuilder.ByTime | daily_trade/src/daily_trade/data/feature_builder.py:138 | the symbol's rows reordered by timestamp: same columns, a permutation of the rows |
| FeatureBuilder.FeaturesForSymbol | daily_trade/src/daily_trade/data/feature_builder.py:135-171 | fails, with a ValueError, exactly when a window is invalid or there are fewer than 14 rows; the reported column list starts with "symbol" |
| FeatureBuilder.FeaturesForSymbolKeys | daily_trade/src/daily_trade/data/feature_builder.py:135-171 | a symbol's output rows are its input rows in time order, with their keys |
| FeatureBuilder.MissingRequired | daily_trade/src/daily_trade/data/feature_builder.py:98-109 | exactly the required columns the table lacks |
| FeatureBuilder.BuildEach | daily_trade/src/daily_trade/data/feature_builder.py:116-120 | the symbol loop computes its specification, which stops at the first failure |
| FeatureBuilder.Build | daily_trade/src/daily_trade/data/feature_builder.py:77-133 | the method computes `build`'s specification |
| FeatureBuilder.BuildSymbolsFacts | daily_trade/src/daily_trade/data/feature_builder.py:116-128 | the loop fails exactly when some symbol fails; otherwise one frame per symbol in order and the last symbol's column list |
| FeatureBuilder.BuiltOutcome | daily_trade/src/daily_trade/data/feature_builder.py:77-133 | a bare frame exactly on empty input; a failure exactly when a required column is missing, a window is too short, or a symbol has fewer than 14 rows |
| FeatureBuilder.BuiltRows | daily_trade/src/daily_trade/data/feature_builder.py:116-126 | as many rows as the input, ordered by (timestamp, symbol), each symbol's rows exactly the features computed from that symbol's rows alone |
| FeatureBuilder.SymbolColumnsAgree | daily_trade/src/daily_trade/data/feature_builder.py:128 | every symbol reports the same column list, so keeping the last symbol's list loses nothing |
| FeatureBuilder.BuiltNewColumns | daily_trade/src/daily_trade/data/feature_builder.py:128-140 | the returned column list starts with "symbol" and is every symbol's list |
| TargetGenerator.NextReturn | daily_trade/src/daily_trade/target_generator.py:143-144 | p[i+1] / p[i] - 1 when both prices are present and p[i] is not 0; missing at the last row |
| TargetGenerator.Clip | daily_trade/src/daily_trade/target_generator.py:147-161 | a present return lands in the band and is unchanged when already inside it; a missing return stays missing |
| TargetGenerator.Label | daily_trade/src/daily_trade/target_generator.py:164 | 1 exactly when the return is strictly above the margin, else 0 |
| TargetGenerator.LabelledRow | daily_trade/src/daily_trade/target_generator.py:128-164 | row i of the time-ordered rows gets the clipped next return and its label; other columns are unchanged |
| TargetGenerator.LabelledColumns | daily_trade/src/daily_trade/target_generator.py:137-164 | the input's columns plus `next_ret` and `y_up` |
| TargetGenerator.TargetsForSymbol | daily_trade/src/daily_trade/target_generator.py:123-176 | with removal on, every kept row has a return; without it, no row is dropped |
| TargetGenerator.TargetsForSymbolFacts | daily_trade/src/daily_trade/target_generator.py:123-176 | the symbol's targets hold only that symbol's rows and carry both target columns |
| TargetGenerator.DropsOnlyLastRow | daily_trade/src/daily_trade/target_generator.py:167-174 | with every price present and non-zero, removal drops exactly the last row |
| TargetGenerator.MissingTargetColumns | daily_trade/src/daily_trade/target_generator.py:79-82 | exactly the required columns the table lacks |
| TargetGenerator.BySymbol | daily_trade/src/daily_trade/target_generator.py:97-99 | reordered by (symbol, timestamp): same columns, a permutation of the rows |
| TargetGenerator.TargetEach | daily_trade/src/daily_trade/target_generator.py:102-108 | the symbol loop collects one target frame per symbol, in order |
| TargetGenerator.MakeTargets | daily_trade/src/daily_trade/target_generator.py:50-121 | the method computes `make_targets`' specification |
| TargetGenerator.MadeTargetsOutcome | daily_trade/src/daily_trade/target_generator.py:71-86 | an empty input is returned unchanged; otherwise a ValueError exactly when timestamp, symbol or close is missing |
| TargetGenerator.MadeTargetsRows | daily_trade/src/daily_trade/target_generator.py:97-116 | output ordered by (timestamp, symbol); each symbol's rows are exactly its own targets; without removal no row is lost |
| TargetGenerator.MadeTargetsLabels | daily_trade/src/daily_trade/target_generator.py:89-91 | both target columns exist, and every row is labelled with the effective margin (the argument, else the configured one) |
| TargetGenerator.MadeTargetsValid | daily_trade/src/daily_trade/target_generator.py:284-325 | with removal on, the output passes `validate_targets` |
| TargetGenerator.TargetRowsValid | daily_trade/src/daily_trade/target_generator.py:294-315 | target columns present with a return and a binary label on every row pass validation |
| TargetGenerator.RowWithoutReturn | daily_trade/src/daily_trade/target_generator.py:303-305 | one row without a return fails validation |
| TargetGenerator.IncompleteDaysFailValidation | daily_trade/src/daily_trade/target_generator.py:167-174 | without removal, the output of a non-empty input never passes validation |
| TargetGenerator.TargetSummary | daily_trade/src/daily_trade/target_generator.py:237-282 | the error entry exactly when a target column is absent; a KeyError exactly when both exist and "symbol" does not; otherwise the record count and one record per symbol with its row count |
| TargetGenerator.BinaryLabelCounts | daily_trade/src/daily_trade/target_generator.py:262-264 | with 0/1 labels, up days plus down days equal the row count |
| TargetGenerator.BinarySummary | daily_trade/src/daily_trade/target_generator.py:250-270 | with 0/1 labels, up and down days add up to the records, the up rate lies in [0, 1] and the class balance is at most 0.5 |
| TargetGenerator.MadeTargetsSummary | daily_trade/src/daily_trade/target_generator.py:237-282 | the summary of a `make_targets` result with removal on has those bounds |
| FeatureEngineering.GroupTransformOwnSymbol | daily_trade/src/daily_trade/feature_engineering.py:174 | the per-symbol transform of a row is computed from its own symbol's rows only |
| FeatureEngineering.SortedShift | daily_trade/src/daily_trade/feature_engineering.py:55-68 | on the (symbol, timestamp)-sorted table the lag at row i is the value of row i - lag when it has the same symbol, else missing |
| FeatureEngineering.SortedWindow | daily_trade/src/daily_trade/feature_engineering.py:80-87 | on the sorted table the rolling window at row i is the last min(k + 1, w) rows of its symbol |
| FeatureEngineering.AddLags | daily_trade/src/daily_trade/feature_engineering.py:60-69 | the lag loop computes the fold of lag steps over the features |
| FeatureEngineering.AddRollingStats | daily_trade/src/daily_trade/feature_engineering.py:72-98 | the rolling loop computes the fold of rolling steps over the features |
| FeatureEngineering.AddMomentum | daily_trade/src/daily_trade/feature_engineering.py:101-112 | the momentum loop computes the fold of momentum steps over the features |
| FeatureEngineering.AddLagFeatures | daily_trade/src/daily_trade/feature_engineering.py:50-114 | the method computes `_add_lag_features`' specification |
| FeatureEngineering.LagColumn | daily_trade/src/daily_trade/feature_engineering.py:60-68 | after sorting, `f_lag_L` holds f from L rows earlier in the same symbol, or is missing |
| FeatureEngineering.RollingMeanColumn | daily_trade/src/daily_trade/feature_engineering.py:80-88 | row i's rolling mean is the mean of the feature over the last min(k + 1, w) rows of its symbol |
| FeatureEngineering.RollingStdColumn | daily_trade/src/daily_trade/feature_engineering.py:90-97 | the same window for the rolling standard deviation |
| FeatureEngineering.MomentumColumn | daily_trade/src/daily_trade/feature_engineering.py:108-111 | `f_momentum_p` is (f - l) / (l + 1e-8) for l the value p rows earlier in the symbol |
| FeatureEngineering.LagFeaturesOutcome | daily_trade/src/daily_trade/feature_engineering.py:50-114 | a KeyError for a missing "symbol", then for a missing "timestamp"; no error when both exist and every rolling window is at least 1; on success the (symbol, timestamp)-sorted input extended only by lag columns |
| FeatureEngineering.InteractionColumns | daily_trade/src/daily_trade/feature_engineering.py:120-135 | a pair of present columns yields a * b and a / (b + 1e-8) on every row; any other entry changes nothing |
| FeatureEngineering.AddInteractions | daily_trade/src/daily_trade/feature_engineering.py:116-139 | the loop computes the fold of interaction steps over the pairs |
| FeatureEngineering.AddLogs | daily_trade/src/daily_trade/feature_engineering.py:146-155 | the log loop computes the fold of log steps |
| FeatureEngineering.AddSqrts | daily_trade/src/daily_trade/feature_engineering.py:157-166 | the sqrt loop computes the fold of sqrt steps |
| FeatureEngineering.AddRanks | daily_trade/src/daily_trade/feature_engineering.py:168-176 | the rank loop computes the fold of rank steps |
| FeatureEngineering.AddNonlinear | daily_trade/src/daily_trade/feature_engineering.py:141-177 | the method computes `_add_nonlinear_transforms`' specification |
| FeatureEngineering.NonlinearOutcome | daily_trade/src/daily_trade/feature_engineering.py:141-177 | no error when "symbol" exists or no rank features are configured; on success only `_log`, `_sqrt` and `_rank` columns are added |
| FeatureEngineering.VolumeSpikeColumn | daily_trade/src/daily_trade/feature_engineering.py:204-208 | `volume_spike` is 1 exactly where vol_ratio_20 > 2.0 |
| FeatureEngineering.OverboughtColumn | daily_trade/src/daily_trade/feature_engineering.py:216-220 | `overbought` is 1 exactly where rsi_14 > 70 |
| FeatureEngineering.OversoldColumn | daily_trade/src/daily_trade/feature_engineering.py:210-214 | `oversold` is 1 exactly where rsi_14 < 30, once "oversold_oversold" is set |
| FeatureEngineering.OversoldKeyIgnored | daily_trade/src/daily_trade/feature_engineering.py:210 | a configuration that sets only "oversold" leaves the table as it is |
| FeatureEngineering.MomentumStrengthColumn | daily_trade/src/daily_trade/feature_engineering.py:184-188 | `momentum_strength` is abs(rsi_14 - 50) |
| FeatureEngineering.TrendConsistencyColumn | daily_trade/src/daily_trade/feature_engineering.py:196-202 | `trend_consistency` is 1 exactly where the signs of slope_pct_20 and macd agree |
| FeatureEngineering.DomainRowwise | daily_trade/src/daily_trade/feature_engineering.py:179-229 | an enabled row-by-row domain feature holds at every row the value computed from that row of the input |
| FeatureEngineering.DomainOutcome | daily_trade/src/daily_trade/feature_engineering.py:179-229 | no error when "symbol" exists; on success only domain columns are added or written |
| FeatureEngineering.MeanAcross | daily_trade/src/daily_trade/feature_engineering.py:255 | present exactly when there are components and all of them are present |
| FeatureEngineering.RiskScoreWithinUnit | daily_trade/src/daily_trade/feature_engineering.py:258-279 | with percentile ranks in [0, 1], `risk_score` is missing or lies in [0, 1] |
| FeatureEngineering.EngineerExtends | daily_trade/src/daily_trade/feature_engineering.py:25-48 | on success every row and column of the starting table is kept, and only the stages' columns are added |
| FeatureEngineering.EngineerOk | daily_trade/src/daily_trade/feature_engineering.py:25-48 | with "symbol" present, "timestamp" present when lags are on, and rolling windows of at least 1, the call does not raise |
| FeatureEngineering.Engineer | daily_trade/src/daily_trade/feature_engineering.py:25-48 | the method runs the configured stages in the order lag, interaction, nonlinear, domain, and equals the specification |
| FeatureEngineering.Loser | daily_trade/src/daily_trade/feature_engineering.py:327-331 | the first of the pair is removed exactly when both variances exist and its variance is strictly lower; otherwise (equal, greater or missing) the second is removed |
| FeatureEngineering.RemovedIff | daily_trade/src/daily_trade/feature_engineering.py:320-331 | a name is removed exactly when it loses some pair whose correlation exceeds the threshold |
| FeatureEngineering.SurvivorsUncorrelated | daily_trade/src/daily_trade/feature_engineering.py:320-334 | no two surviving positions hold a pair correlated above the threshold |
| FeatureEngineering.CorrelationFilterMeaning | daily_trade/src/daily_trade/feature_engineering.py:309-337 | fewer than two available features are returned as they are; otherwise an order-preserving subsequence of them, without exactly the removed names |
| FeatureEngineering.CorrelationSurvivors | daily_trade/src/daily_trade/feature_engineering.py:309-337 | two survivors at distinct positions are not correlated above the threshold |
| FeatureEngineering.SelectFeaturesMeaning | daily_trade/src/daily_trade/feature_engineering.py:290-307 | exactly the excluded names are removed, in order, with each kept name as often as before; with a threshold the correlation filter follows |
| FeatureEngineering.RemovalSet | daily_trade/src/daily_trade/feature_engineering.py:320-331 | the double loop builds exactly the removal set |
| FeatureEngineering.Select | daily_trade/src/daily_trade/feature_engineering.py:290-307 | the method computes `select_features`' specification |
| ModelDirection.ValidateDataRaises | daily_trade/src/daily_trade/model_direction.py:342-364 | a ValueError exactly when some label is missing or outside {0, 1} |
| ModelDirection.ValidateDataIgnoresFeatures | daily_trade/src/daily_trade/model_direction.py:349-355 | which labels are accepted does not depend on the features |
| ModelDirection.ValidateDataWarnings | daily_trade/src/daily_trade/model_direction.py:358-364 | when validation passes it warns for missing features, fewer than 100 rows, and a positive ratio outside [0.1, 0.9] |
| ModelDirection.FilledColumn | daily_trade/src/daily_trade/model_direction.py:87-89 | after filling, no cell is missing; present cells are kept; a missing cell holds the nearest present cell above it, or 0 |
| ModelDirection.TrainingInputComplete | daily_trade/src/daily_trade/model_direction.py:87-89 | the training table has the same columns and rows and no missing value |
| ModelDirection.DictOfKeys | daily_trade/src/daily_trade/model_direction.py:372 | `dict(pairs)` has one entry per distinct name |
| ModelDirection.DictOfValues | daily_trade/src/daily_trade/model_direction.py:372 | each entry holds the last value given for its name |
| ModelDirection.DictOfDistinct | daily_trade/src/daily_trade/model_direction.py:296 | `dict` of pairs with distinct names is those pairs, in order |
| ModelDirection.SortDesc | daily_trade/src/daily_trade/model_direction.py:294 | sorting by score in reverse is a permutation of the entries |
| ModelDirection.SortDescSorted | daily_trade/src/daily_trade/model_direction.py:294 | the sorted entries have non-increasing scores |
| ModelDirection.FeatureImportanceOf | daily_trade/src/daily_trade/model_direction.py:281-296 | a ValueError exactly when no importances are stored |
| ModelDirection.FeatureImportanceMeaning | daily_trade/src/daily_trade/model_direction.py:290-296 | as many entries as the slice keeps, non-increasing, each a stored entry, names distinct, and no left-out entry scores higher |
| ModelDirection.ProbaInputMeaning | daily_trade/src/daily_trade/model_direction.py:127-144 | a ValueError when unfitted, a KeyError when a fitted feature is absent; otherwise the estimator sees exactly the fitted features in fitted order |
| ModelDirection.PredictSkipsSafeguards | daily_trade/src/daily_trade/model_direction.py:146-155 | `predict` fails unfitted without the ValueError, and on a fitted model passes the columns unreordered |
| ModelDirection.RecordEntries | daily_trade/src/daily_trade/model_direction.py:204-264 | after K folds each of the six lists has K entries, and entry k is fold k's score |
| ModelDirection.RecordFolds | daily_trade/src/daily_trade/model_direction.py:204-264 | the fold loop builds exactly the record that RecordEntries describes: one entry per fold in each list, in fold order |
| ModelDirection.SaveOf | daily_trade/src/daily_trade/model_direction.py:298-318 | a ValueError exactly when no model is fitted |
| ModelDirection.SaveLoadRoundTrip | daily_trade/src/daily_trade/model_direction.py:298-340 | loading what was saved restores all five attributes |
| ModelDirection.DirectionModel.constructor | daily_trade/src/daily_trade/model_direction.py:54-65 | the default configuration when none is given; nothing fitted |
| ModelDirection.DirectionModel.Fit | daily_trade/src/daily_trade/model_direction.py:67-125 | feature names recorded first; the validation result returned; on success the model trained on the filled table and the importances zipped with the names |
| ModelDirection.DirectionModel.PredictProba | daily_trade/src/daily_trade/model_direction.py:127-144 | a ValueError when unfitted; the estimator on the table itself when its columns are already in fitted order |
| ModelDirection.DirectionModel.Predict | daily_trade/src/daily_trade/model_direction.py:146-155 | unfitted fails with other than a ValueError; fitted gives the estimator's labels on the table as given |
| ModelDirection.DirectionModel.FeatureImportance | daily_trade/src/daily_trade/model_direction.py:281-296 | an error exactly when no importances are stored; otherwise, the stored names being distinct, as many entries as the slice keeps, in non-increasing order, distinct, each a stored entry |
| ModelDirection.DirectionModel.CrossValidate | daily_trade/src/daily_trade/model_direction.py:189-279 | the returned and stored record is the per-fold record of the folds' scores; nothing else changes |
| ModelDirection.DirectionModel.Save | daily_trade/src/daily_trade/model_direction.py:298-318 | an error exactly when unfitted; the payload holds the model and the feature names |
| ModelDirection.DirectionModel.Load | daily_trade/src/daily_trade/model_direction.py:320-340 | the attributes are assigned in order, stopping at the first absent required key |
| ModelDirection.SaveThenLoad | daily_trade/src/daily_trade/model_direction.py:298-340 | saving one fitted model and loading the payload into another copies all five attributes; unfitted leaves the target unchanged |
| RestaurantSchema.MergeSurveyHistory | sns_ai_automation_agency/src/sns_ai_automation_agency/agent/restaurant/schema.py:8-10 | the existing history is a prefix and the new entries the suffix |
| RestaurantSchema.MergeAreas | sns_ai_automation_agency/src/sns_ai_automation_agency/agent/restaurant/schema.py:13-15 | the same concatenation for areas |
| RestaurantSchema.MergeErrors | sns_ai_automation_agency/src/sns_ai_automation_agency/agent/restaurant/schema.py:18-20 | the same concatenation for errors |
| RestaurantSchema.MergeEmptyIsIdentity | sns_ai_automation_agency/src/sns_ai_automation_agency/agent/restaurant/schema.py:8-20 | merging an empty update changes nothing |
| RestaurantSchema.MergeAssociative | sns_ai_automation_agency/src/sns_ai_automation_agency/agent/restaurant/schema.py:8-20 | two merges equal one merge of the updates laid end to end |
| RestaurantSchema.FoldHistoryAppendsAll | sns_ai_automation_agency/src/sns_ai_automation_agency/agent/restaurant/schema.py:137 | any number of updates keep the old entries and then every update's entries in arrival order |
| RestaurantEngine.InitialState | sns_ai_automation_agency/src/sns_ai_automation_agency/agent/restaurant/engine.py:59-64 | the station and budget as given; iteration 0; empty history and areas; no process, plan or flag |
| RestaurantEngine.ApplyUpdate | sns_ai_automation_agency/src/sns_ai_automation_agency/agent/restaurant/schema.py:127-147 | list keys go through their reducers; the round number, process, plan, continue flag, completion reason and analysis each take the update's value when present and keep the old one otherwise |
| RestaurantEngine.ShouldContinueAdaptiveSurvey | sns_ai_automation_agency/src/sns_ai_automation_agency/agent/restaurant/engine.py:495-517 | END once the budget is used; survey with no process; analysis after survey; after analysis, END when the continue flag is false and survey when it is true, a KeyError when it is absent; an Exception for any other process |
| RestaurantEngine.GetSearchParams | sns_ai_automation_agency/src/sns_ai_automation_agency/agent/restaurant/engine.py:274-296 | the default query on round 0; afterwards the stored plan's query, exclusion and focus; a KeyError without a plan |
| RestaurantEngine.MakeSummary | sns_ai_automation_agency/src/sns_ai_automation_agency/agent/restaurant/engine.py:264-271 | the summary carries the next round number, the search query, the model's counts and discoveries, and the geographical coverage with surrounding whitespace stripped |
| Text.Strip | sns_ai_automation_agency/src/sns_ai_automation_agency/agent/restaurant/engine.py:270 | the result is empty or neither starts nor ends with a whitespace character |
| Text.StripSlice | sns_ai_automation_agency/src/sns_ai_automation_agency/agent/restaurant/engine.py:270 | the result is the slice of the input after its leading whitespace, and all that follows it is whitespace |
| Text.StripIdempotent | sns_ai_automation_agency/src/sns_ai_automation_agency/agent/restaurant/engine.py:270 | stripping a stripped string changes nothing |
| RestaurantEngine.RestaurantSurveyNode | sns_ai_automation_agency/src/sns_ai_automation_agency/agent/restaurant/engine.py:154-184 | one more round, one history entry, its areas appended |
| RestaurantEngine.AnalysisAndPlanningNode | sns_ai_automation_agency/src/sns_ai_automation_agency/agent/restaurant/engine.py:299-415 | continue = the model's wish and rounds remaining; a plan exactly when continuing, a completion reason exactly when stopping |
| RestaurantEngine.RouteAfterSurvey | sns_ai_automation_agency/src/sns_ai_automation_agency/agent/restaurant/engine.py:499-508 | after a survey round the router goes to analysis, or ends when the budget is used |
| RestaurantEngine.RouteAfterAnalysis | sns_ai_automation_agency/src/sns_ai_automation_agency/agent/restaurant/engine.py:510-514 | after analysis the router returns to surveying exactly when continuing, and the plan is then present |
| RestaurantEngine.RunSurveyGraph | sns_ai_automation_agency/src/sns_ai_automation_agency/agent/restaurant/engine.py:30-67 | the survey node runs between 1 and max(1, budget) times, no node or router raises (recursion limit not modelled), and the history holds one summary per round numbered 1, 2, ... |
| Serialization.ToSerializable | sns_ai_automation_agency/src/sns_ai_automation_agency/utils.py:39-64 | models become dicts of serialised fields, enums their values, paths strings, lists and tuples lists of the same length, dicts the same keys; other values unchanged |
| Serialization.PlainIsFixedPoint | sns_ai_automation_agency/src/sns_ai_automation_agency/utils.py:56-64 | plain data passes through unchanged |
| Serialization.ResultIsPlain | sns_ai_automation_agency/src/sns_ai_automation_agency/utils.py:39-64 | when enum members hold plain data, the result is plain data |
| Serialization.Idempotent | sns_ai_automation_agency/src/sns_ai_automation_agency/utils.py:39-64 | serialising twice is serialising once, with enum members holding plain data |
| Serialization.DumpDoesNotMatter | sns_ai_automation_agency/src/sns_ai_automation_agency/utils.py:43-45 | serialising the `.dict()` of a model gives what serialising its fields directly gives |
| Serialization.EnumValueIsNotConverted | sns_ai_automation_agency/src/sns_ai_automation_agency/utils.py:48-49 | an enum member's value is returned unconverted, so a path inside it stays a path |
| CachePaths.CacheRoot | sns_ai_automation_agency/src/sns_ai_automation_agency/utils.py:23 | the cache home (or the home's `.cache`) joined with the application name |
| CachePaths.CachePathManager.Init | sns_ai_automation_agency/src/sns_ai_automation_agency/utils.py:18-24 | the first call fixes the root and creates it; later calls change nothing |
| CachePaths.CachePathManager.Subdir | sns_ai_automation_agency/src/sns_ai_automation_agency/utils.py:26-30 | root joined with the name, and that directory created |
| CachePaths.CachePathManager.File | sns_ai_automation_agency/src/sns_ai_automation_agency/utils.py:32-36 | root joined with the parts, with its parent directory created |
| CachePaths.CachePathManagerClass.Call | sns_ai_automation_agency/src/sns_ai_automation_agency/utils.py:12-24 | every call returns the same instance; its root is fixed by the first application name and later names are ignored |
| ImageSearch.Entry | sns_ai_automation_agency/src/sns_ai_automation_agency/agent/thumbnail/search.py:46-55 | id `img_{i+1}`, rank i + 1; each present field is copied, each absent one becomes "" or 0 |
| ImageSearch.ShapeResults | sns_ai_automation_agency/src/sns_ai_automation_agency/agent/thumbnail/search.py:36-58 | the loop computes the shaped result list; no items gives no results |
| ImageSearch.ShapedEntries | sns_ai_automation_agency/src/sns_ai_automation_agency/agent/thumbnail/search.py:40-56 | at most one result per item, each the entry of a kept item |
| ImageSearch.ShapedRanksIncrease | sns_ai_automation_agency/src/sns_ai_automation_agency/agent/thumbnail/search.py:40-56 | ranks strictly increase, so item order is kept |
| ImageSearch.ShapedComplete | sns_ai_automation_agency/src/sns_ai_automation_agency/agent/thumbnail/search.py:42-44 | every item whose image is present and a non-empty dict has a result |
| ImageSearch.OtherKeysOnlyKept | sns_ai_automation_agency/src/sns_ai_automation_agency/agent/thumbnail/search.py:41-55 | an image dict with only keys the loop does not read is truthy, so its item gets an entry with the defaults |
| ImageSearch.IdsUnique | sns_ai_automation_agency/src/sns_ai_automation_agency/agent/thumbnail/search.py:48 | different results have different ids |

## Left out

- File I/O is not modelled: parquet and pickle files, the JSON result caches of the agents, and
  directory creation beyond the set of directories that exist.
- Network and foreign services are function parameters: the yfinance download, the LLMs, the web
  search, and the HTTP part of the image search.
- Logging is not modelled.
- The `ta` indicators are parameters: SMA, EMA, ATR, Bollinger, RSI, MACD, stochastic, Williams %R,
  CCI and ADX. Their outputs are fitted to the series length.
- These pandas statistics are parameters too: rolling std and median, `rank(pct=True)`, `corr`,
  `var`, `std`, skew and kurtosis.
- `winsorize` is abstract, and its percentile semantics are not encoded.
- Timezone localisation and conversion are left out: timestamps are integer day numbers.
- IEEE floating point is not modelled: prices are reals, and there is no rounding and no infinity.
  A division by zero gives a missing value where pandas gives an infinity. A zero price therefore
  yields a missing return or ratio, and the `1e-8` guards are exact real arithmetic.
- LightGBM training, sklearn metrics and `TimeSeriesSplit` are parameters. `evaluate` is left out:
  its only modelled content is the same fitted-model guard as `predict_proba`, and the metrics are
  foreign.
- Single-key `sort_values` uses pandas' unstable quicksort; the model sorts stably.
- Concurrency and async execution are left out.
- The other agents are left out: access, scene, master, thumbnail engines and the station-sign
  prompt.
- Messages in Japanese are paraphrased in English; only the exception kind is modelled exactly.
- Duplicate column names are not modelled: a column list is a list of distinct names where the
  code relies on it.
- Flag (boolean) cells count as missing in means and rolling statistics. Price and return
  columns are numeric in practice.
- TargetGenerator.TargetSummary: standard deviation, min, max, skewness and kurtosis are left out; only
  counts, means and the class balance are modelled.
- FeatureBuilder.FlaggedMeaning: assumes no feature column is itself named `<c>_is_leading_nan`
  for a listed column c; otherwise the helper would overwrite it and be dropped with it.
- ModelDirection.ProbaInputMeaning: stated for tables whose column names are distinct.
- ModelDirection.SortDesc: the stability of the sort is built into its definition but not stated
  as a lemma.
- ModelDirection.DirectionModel.CrossValidate: the fold training and scoring are one foreign
  function per fold; the metrics' values are not modelled.
- Loader.FetchSymbolData: tenacity's internals beyond the attempt budget and the wait schedule
  are left out; the sleeps are returned as values, not performed.
- CachePaths.CacheRoot: a path is a list of components joined with `+`, not pathlib's join. An
  empty CACHE_HOME or application name, a component containing "/", or an absolute application
  name (which pathlib lets replace the root) are not normalised. A relative CACHE_HOME is still
  rendered from "/" by `PathString`.
- CachePaths.CachePathManager.Subdir: the name is one component appended to the root; pathlib's
  dropping of an empty name, splitting at "/" and replacement by an absolute name are left out.
- CachePaths.CachePathManager.File: the parts are appended as they are; pathlib's dropping of
  empty parts, splitting at "/" and restarting at an absolute part are left out.
- Text.IsSpace: the whitespace set is that of `str.isspace()` at the code points listed; no other
  Unicode property is modelled.
- CachePaths.CachePathManager.File: directory creation is modelled as a set of existing
  directories, not as file-system effects.
- Loader.NormalizeName: only ASCII letters are lower-cased and every name keeps its length.
  Python's `str.lower()` also folds non-ASCII letters, and some of them change length ("İ"
  becomes two code points). yfinance's own column labels are ASCII.
- RestaurantEngine.RunSurveyGraph: LangGraph's recursion limit is not modelled. `agent.invoke`
  (restaurant/engine.py:66) passes no `recursion_limit`, so the default of 25 supersteps applies,
  and each round takes two of them. With a large `num_iterations` and a model that always asks to
  continue, the source raises GraphRecursionError after about 12 rounds. The model instead runs
  all `max(1, num_iterations)` rounds and returns normally.
