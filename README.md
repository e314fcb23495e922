# Timber drying predictor: a Dafny model of its core

The system estimates how long a batch of timber takes to dry in a kiln. It has four parts:

- `generate_data.py` holds a simple physics formula for the drying time. It uses the formula to label 10 000 random boards, and the first 1 % of them are forced to be already dry.
- `predict.py` checks the species against the regressor's vocabulary and looks up a specific gravity and an advice text. It then builds the feature row, clamps the baseline prediction at 0.1 hours and tries two what-if changes: 5 degrees warmer and 10 points drier air. A change is recommended when it saves more than an hour, and the recommendations are ordered by savings. Finally the script prints a 10-point drying curve.
- `app.py`, the dashboard server, falls back to 25 degrees and 50 % humidity when the sensor has no reading. It also lists the running batches, with their cost, and the finished batches from the prediction log, under ids of the form `B<yymmdd><row:03>`.
- `reminder_service.py` passes over the log once a minute. It raises an alert for every row of a finished batch whose id it does not yet remember. Without `plyer` it remembers the id at once. With `plyer` it remembers the id only when the desktop notification goes through. So a failed notification makes the same batch alert again, on a duplicate row in the same pass and on later passes, until a notification goes through.

The model works on exact reals. The calls the core makes into code it does not own are parameters of the model:

- `thickness ** 1.5` is `pow15`. It is assumed non-negative and non-decreasing on the non-negatives.
- `np.sqrt` on [0, 1] is `sqrt`. It is assumed to map into [0, 1] and to be non-decreasing.
- The fitted regressor is `model`. It returns `None` where `model.predict` raises.
- `datetime.strptime` with the log's format, and `float` on text, are `Parsers`. Each yields `None` where Python raises.
- Whether a desktop notification for row `i` goes through is `notifyOk(i)`.
- The current time is `now`, in seconds since the parsers' epoch.

A CSV row is what `csv.DictReader` yields: a map from column name to an optional text. A field is `None` when the row is shorter than the header. The prediction log is `Option<seq<CsvRow>>`, where `None` is a missing log.

Modules:

- `Wrappers` holds `Option`.
- `Numerics` holds Python's `max` and `round(x, 1)` / `round(x, 2)`, with ties to even.
- `Sorting` holds `list.sort(key=...)` as a stable insertion sort. `reverse=True` is modelled as the stable sort on the negated key; Python keeps ties in their original order in both directions.
- `Text` holds `str.strip` and the `{n:03d}` format.
- `CsvLog` holds the log row and its field lookups.
- `GenerateData`, `Predict`, `App` and `ReminderService` follow the four source files.
- The reminder service's `notified_jobs` set is the field of the class `ReminderService.Reminder`. `check_jobs_for_notification` is a method on that class. It is proved equal to the pure fold `Scan`, and the lemmas about the service are stated on that fold.

The generator (generate_data.py:7-20) and the predictor (predict.py:67-73) each keep a species-to-gravity table, and the two tables share no key:

- the generator's table of Indian woods, on which the regressor is trained;
- the predictor's table of American woods.

So every species the regressor is trained on, and hence every species the predictor accepts, falls back to gravity 0.5 and to the default advice. `Predict.TrainedSpeciesUseFallbacks` states this.

## Model

| member | source | states |
|---|---|---|
| `Numerics.Max` | generate_data.py:54 | `max(a, b)` is an upper bound of both arguments and is one of them |
| `Numerics.RoundHalfEven` | predict.py:186-187 | Python's `round`: within 0.5 of the value, rounding down below a half, up above it, to the even neighbour on a tie |
| `Numerics.Round2` | generate_data.py:101 | `round(x, 2)` stays within 0.005 of `x` |
| `Numerics.Round1` | predict.py:186-187 | `round(x, 1)` stays within 0.05 of `x` |
| `Numerics.RoundHalfEvenMonotone` | predict.py:186-187 | rounding never reverses the order of two values |
| `Numerics.Round2Monotone` | app.py:122 | `round(x, 2)` is monotone |
| `Numerics.Round1Monotone` | predict.py:186-187 | `round(x, 1)` is monotone |
| `Numerics.Round2OfHundredths` | generate_data.py:101 | a value already on the hundredths grid is unchanged by `round(x, 2)` |
| `Numerics.Round2KeepsDryingBounds` | generate_data.py:101 | rounding keeps a zero label at 0 and a label of at least 0.1 at or above 0.1 |
| `GenerateData.CalculateDryingTime` | generate_data.py:23-54 | 0 exactly when less than 0.001 of moisture is to be removed; otherwise at least 0.1 hours; a `ZeroDivisionError` exactly when the drying power is 0; a `TypeError` from the complex power exactly when the thickness is negative |
| `GenerateData.MoistureToRemove` | generate_data.py:34 | the fraction to remove is the gap between the two percentages over 100, below the tolerance exactly when that gap is below a tenth of a point |
| `GenerateData.DryingPower` | generate_data.py:47 | warm air that is not saturated has more than the floor of drying power |
| `GenerateData.SaturatedOrFreezingAirHasFloorPower` | generate_data.py:47 | saturated air, or air at 0 degrees, has only the floor of drying power |
| `GenerateData.DryingPowerAtLeastFloor` | generate_data.py:47 | at 0 degrees or warmer and at most 100 % humidity, the drying power is at least its floor 0.05 |
| `GenerateData.NeededDrying` | generate_data.py:38-54 | once drying is needed, the result is the formula clamped at 0.1 hours |
| `GenerateData.RawHours` | generate_data.py:43-51 | the unclamped formula: gravity times `thickness ** 1.5` times the moisture to remove, over the drying power, times 70 (a definition; its properties are the monotonicity lemmas below) |
| `GenerateData.MonotoneInGravity` | generate_data.py:43-54 | denser wood never dries faster |
| `GenerateData.MonotoneInThickness` | generate_data.py:43-54 | a thicker board never dries faster |
| `GenerateData.MonotoneInInitialMoisture` | generate_data.py:34-54 | a wetter board never dries faster |
| `GenerateData.PowerMonotoneInTemperature` | generate_data.py:47 | below saturation, the drying power grows with temperature |
| `GenerateData.PowerAntitoneInHumidity` | generate_data.py:47 | at 0 degrees or warmer, the drying power falls with humidity |
| `GenerateData.AntitoneInPower` | generate_data.py:43-54 | more drying power never gives a longer time for the same wood and moisture |
| `GenerateData.AntitoneInTemperature` | generate_data.py:45-54 | below saturation, warmer air never lengthens the drying time |
| `GenerateData.MonotoneInHumidity` | generate_data.py:45-54 | at 0 degrees or warmer, more humid air never shortens the drying time |
| `GenerateData.SpeciesListInTable` | generate_data.py:61-66 | every species the generator draws has a gravity in its table, between 0.5 and 0.85 |
| `GenerateData.SampleInRange` | generate_data.py:69-73 | a sample drawn from the generator's ranges starts wetter than its target, by at least the tolerance, so only a forced row can be dry |
| `GenerateData.ForcedDry` | generate_data.py:77 | a row is forced dry exactly when it is one of the first 100 of the 10 000 |
| `GenerateData.ForcedRowIsDry` | generate_data.py:77-79 | a forced row starts below its target and is labelled 0 hours |
| `GenerateData.ForcedInitialMc` | generate_data.py:78-79 | a forced `initial_mc` is at least 5 %, is either 5 % or the target less the offset, and lies below a target above 5 % for a positive offset |
| `GenerateData.SampleClimateDries` | generate_data.py:72-73 | the generator's climate range never makes the drying power vanish |
| `GenerateData.GeneratedRow` | generate_data.py:63-102 | one generated row: the sample's fields, the table gravity, the forced `initial_mc` for the first 1 %, and a label that is the rounded simulator output, 0 exactly when no drying is needed and at least 0.1 otherwise |
| `GenerateData.GenerateRows` | generate_data.py:58-102 | 10 000 rows, row `i` built from sample `i`, each labelled with `round(calculate_drying_time(...), 2)`; every forced row is already dry with label 0 |
| `Predict.IndexOf` | predict.py:90 | the categorical code: −1 exactly for a species outside the vocabulary, else the first position that holds it |
| `Predict.GravityFor` | predict.py:67-74 | the table gravity for a table species, 0.5 for any other |
| `Predict.TipFor` | predict.py:165 | the species' advice, or the `"Default"` entry |
| `Predict.GravityInRange` | predict.py:67-74 | whatever the species, the gravity used lies in [0.36, 0.73] |
| `Predict.TrainedSpeciesHaveNoGravity` | predict.py:67-73 | no trained species is a key of the predictor's gravity table |
| `Predict.TrainedSpeciesHaveNoTip` | predict.py:8-32 | no trained species is a key of the advice table |
| `Predict.TrainedSpeciesUseFallbacks` | predict.py:67-74 | every trained species is predicted with gravity 0.5 and gets the default advice |
| `Predict.FeatureColumnsMatchDataset` | predict.py:91-94 | the model's input columns are the generated table's columns without the label |
| `Predict.BaselineInput` | predict.py:78-86 | the input record carries the query's species, thickness, moisture and climate unchanged, and the looked-up gravity |
| `Predict.CreateInputDf` | predict.py:90-95 | the feature row keeps every numeric field and codes the species by its vocabulary position, −1 when it is not a category |
| `Predict.CreateInputDfInjective` | predict.py:90-95 | for vocabulary species, two inputs give the same row exactly when they are equal |
| `Predict.TempUpRecord` | predict.py:127-129 | only the temperature changes, by 5 degrees, and a scenario that runs stays below 60 degrees |
| `Predict.HumidityDownRecord` | predict.py:138-140 | only the humidity changes, by 10 points, and a scenario that runs stays above 20 % |
| `Predict.TempScenarioRuns` | predict.py:127 | the temperature scenario runs exactly when the raised temperature stays below 60 degrees |
| `Predict.HumidityScenarioRuns` | predict.py:138 | the humidity scenario runs exactly when the lowered humidity stays above 20 % |
| `Predict.Savings` | predict.py:130-131 | the savings never exceed baseline − 0.1; they are baseline − prediction for a prediction of at least 0.1, and savings above an hour mean a prediction more than an hour below the baseline |
| `Predict.WhatIfQueries` | predict.py:124-142 | at most two model calls: none exactly when neither scenario runs, the temperature row first when it runs, and a second call only after the first returned |
| `Predict.Candidate` | predict.py:127-146 | a scenario contributes at most one recommendation, saving more than an hour and at most baseline − 0.1 |
| `Predict.RankRecommendations` | predict.py:148 | the descending sort of at most two recommendations keeps a single one and swaps two only when the second saves strictly more |
| `Predict.RankedNone` | predict.py:124-150 | with no candidate, the empty ranking meets every ranking promise |
| `Predict.RankedTempOnly` | predict.py:126-135 | a lone temperature candidate meets every ranking promise |
| `Predict.RankedHumidityOnly` | predict.py:137-146 | a lone humidity candidate meets every ranking promise |
| `Predict.RankedBoth` | predict.py:124-148 | with two candidates, the larger saving first, a tie keeping temperature first, meets every ranking promise |
| `Predict.RankCandidates` | predict.py:124-148 | sorting the candidates gives at most one recommendation per scenario, each present exactly when its scenario ran and saved more than an hour, in descending savings |
| `Predict.WhatIfOutcome` | predict.py:121-157 | a failed section had a call of a running scenario that raised; a ranked one holds at most two recommendations, each saving more than an hour and at most baseline − 0.1 |
| `Predict.WhatIfFailsOnRaise` | predict.py:125-157 | the what-if section fails exactly when one of the model calls it makes raises |
| `Predict.WhatIfOutcomeSound` | predict.py:121-157 | the what-if outcome sends exactly the scenario rows, in order; it fails exactly on a raising call, and otherwise its ranking meets every promise |
| `Predict.TryScenario` | predict.py:128-135 | one scenario fails exactly when its model call raises, and otherwise adds its candidate recommendation |
| `Predict.WhatIfAnalysis` | predict.py:121-157 | the imperative section computes that outcome and those model calls |
| `Predict.RoundAll` | predict.py:186-187 | every value of the list rounded to one decimal, in order |
| `Predict.RoundedProfile` | predict.py:184-188 | rounding the raw profile gives a curve with every promised point |
| `Predict.CurveValue` | predict.py:180 | the formula gives the initial moisture at fraction 0 and the target at fraction 1 for an exact square root, and an interior point lies between them for a board wetter than its target |
| `Predict.CurveValueBetween` | predict.py:180 | for a board wetter than its target, an interior point lies between target and initial moisture and never rises with time |
| `Predict.MoistureAt` | predict.py:180 | up to the baseline, a board wetter than its target sits between target and initial moisture |
| `Predict.ProfileLossWithinGap` | predict.py:180 | the moisture lost along the square-root profile at a fraction in [0, 1] is between 0 and the whole gap |
| `Predict.FractionOfGap` | predict.py:180 | a fraction in [0, 1] of a non-negative gap lies between 0 and the gap |
| `Predict.CurveDescends` | predict.py:178-187 | the printed curve stays between the rounded target and the rounded initial moisture and never rises |
| `Predict.TimePointRatio` | predict.py:178-179 | the k-th time point is k/9 of the baseline, and its ratio to the baseline is k/9 |
| `Predict.TimePoint` | predict.py:178 | the k-th of ten evenly spaced points is k/9 of the baseline and lies in [0, baseline] |
| `Predict.ComputedProfile` | predict.py:178-182 | the arrays the section fills form the square-root profile with both endpoints pinned |
| `Predict.DryingCurve` | predict.py:172-196 | no curve exactly when the baseline is not positive; otherwise 10 evenly spaced times from 0 to the baseline, the pinned endpoints, the square-root profile in between, all rounded to one decimal |
| `Predict.RunPredictor` | predict.py:63-196 | an unknown species is rejected with the vocabulary; otherwise the baseline row goes to the model first; a raising call gives baseline 0 and no analysis; else the baseline is clamped at 0.1 and the what-if outcome, the model calls, the thick-board note, the advice and the curve follow from it |
| `Sorting.WithKey` | app.py:142 | the elements with one key value, in list order, are no more than the list |
| `Sorting.Insert` | app.py:142 | insertion adds exactly one element |
| `Sorting.SortBy` | app.py:142 | `list.sort` keeps the length and the multiset of elements |
| `Sorting.InsertSorted` | app.py:142 | insertion into an ordered list keeps it ordered |
| `Sorting.SortBySorted` | app.py:142 | the sorted list is ordered by its key |
| `Sorting.SortByStable` | app.py:162 | elements with equal keys keep their relative order |
| `Sorting.SortByStableAll` | app.py:162 | stability for every key value at once |
| `Sorting.WithKeyInsert` | app.py:142 | inserting an element into an ordered list puts it in front of the elements with the same key |
| `Sorting.SortByKeepsMembers` | app.py:142 | sorting keeps exactly the elements of the list |
| `Sorting.SortByShort` | predict.py:148 | a list of at most one element is unchanged |
| `Sorting.SortByPair` | predict.py:148 | two elements swap exactly when the second has the strictly smaller key |
| `Text.IsSpace` | reminder_service.py:40 | `str.isspace` holds of space, tab, newline and carriage return, and never of a digit, a letter, `-` or `:`, the characters of a timestamp |
| `Text.TrimStart` | reminder_service.py:40 | `lstrip` drops exactly a leading whitespace run |
| `Text.TrimEnd` | reminder_service.py:40 | `rstrip` drops exactly a trailing whitespace run |
| `Text.Strip` | reminder_service.py:40 | `strip` never lengthens the text, and its result neither starts nor ends with whitespace |
| `Text.StripIsTrimmedInfix` | reminder_service.py:40 | `strip` gives a piece of the text with only whitespace around it, starting and ending on non-whitespace |
| `Text.StripEmpty` | reminder_service.py:40-45 | the stripped timestamp is empty exactly when the field is all whitespace |
| `Text.Decimal` | app.py:127 | `str(n)` is a non-empty digit string |
| `Text.Format03` | app.py:127 | `{n:03d}` is a digit string of at least three characters |
| `Text.DecimalValue` | app.py:127 | the decimal string reads back as `n` |
| `Text.Format03Value` | app.py:127 | the padded string reads back as `n` |
| `Text.Format03Injective` | app.py:127 | two numbers with the same padded string are equal |
| `CsvLog.Get` | app.py:105-106 | a lookup finds a missing column, a `None` field or text, each exactly when the row says so |
| `CsvLog.GetOr` | app.py:128-131 | `row.get(col, default)`: the default for a missing column, the field otherwise |
| `CsvLog.NumberOr` | app.py:106 | `float(row.get(col, default))`: the default, a `TypeError` on `None`, or the parse |
| `CsvLog.NumberAt` | app.py:158 | `float(row[col])`: an error for a missing or `None` field, else the parse |
| `CsvLog.StartOf` | app.py:105 | `strptime(row['Timestamp'])`: an error unless the field is text, else the parse |
| `CsvLog.EndSeconds` | app.py:109 | the end lies after the start exactly when the hours are positive |
| `App.SensorOr` | app.py:68-71 | the cached reading, or the fallback when it is not a number |
| `App.PredictorQuery` | app.py:67-72 | the predictor gets the request's board and the cached climate, 25 degrees and 50 % standing in for missing readings |
| `App.FallbackClimateRunsScenarios` | app.py:68-71 | with both fallbacks in use, both what-if scenarios of the predictor run |
| `App.CostRate` | app.py:96-121 | the hourly rate is at least 0.5, and exactly 0.5 when the logged temperature is at most 25 degrees |
| `App.CostRateMonotone` | app.py:119-121 | a warmer batch never costs less per hour |
| `App.LoggedTemperature` | app.py:114-117 | the logged temperature, or 25 degrees when it is missing, `None` or not a number |
| `App.UnreadableTemperatureBaseRate` | app.py:114-121 | a row without a readable temperature is charged the base rate |
| `App.BaseCostBelow` | app.py:119-122 | the cost before rounding is never below the base-rate cost |
| `App.EstimatedCost` | app.py:122 | the rounded cost is never below the rounded base-rate cost |
| `App.BatchId` | app.py:127 | the id starts with `B` and has 10 characters for a six-character date and a row below 999 |
| `App.BatchIdInjective` | app.py:127 | with six-character dates, equal ids name the same date and the same row |
| `App.ActiveHours` | app.py:106 | a row without a `Predicted_Hours` column reads as 0 hours, and positive hours come only from a present field |
| `App.ActiveEntry` | app.py:104-137 | a row yields an active job exactly when its start and its hours parse, the hours are positive and the end lies after `now`; the job carries the id, the end, the cost and the row's text fields |
| `App.ActiveScan` | app.py:103-138 | at most one job per row, appended in log order, each still running with positive hours |
| `App.ActiveScanMembers` | app.py:103-138 | a job is in the scan exactly when some row yields it; a malformed row adds nothing and stops nothing |
| `App.ActiveListFacts` | app.py:103-142 | the sorted active list holds exactly the jobs the rows yield, each still running with positive hours, soonest end first, with ties in log order |
| `App.GetActiveJobs` | app.py:93-145 | no log gives an empty list; otherwise the loop computes the scan, sorted by end |
| `App.StartMinute` | app.py:160 | the start truncated to the minute |
| `App.HistoryEntry` | app.py:157-161 | a row yields a history entry exactly when its start and its hours parse and the end is not after `now`; the entry carries the id, the raw timestamp, the start minute and the row's text fields |
| `App.ActiveOrHistory` | app.py:105-111 | a row that parses with positive hours is listed as active or as finished, never both and never neither |
| `App.NonPositiveNeverActive` | app.py:107 | a row without positive hours is never active |
| `App.HistoryScan` | app.py:156-161 | at most one entry per row, appended in log order |
| `App.HistoryScanMembers` | app.py:156-161 | an entry is in the scan exactly when some row yields it |
| `App.HistoryListFacts` | app.py:156-162 | the sorted history holds exactly the rows' entries, latest start minute first, with ties in log order |
| `App.GetHistory` | app.py:149-164 | no log gives an empty list; otherwise the loop computes the scan, sorted latest first |
| `ReminderService.FieldText` | reminder_service.py:41-43 | the f-string rendering of a field: the default for a missing column, `None` for a `None` field, the text otherwise |
| `ReminderService.TimestampText` | reminder_service.py:40 | the stripped timestamp, empty for a missing column, an error for a `None` field |
| `ReminderService.JobId` | reminder_service.py:43 | the id starts with the stripped timestamp followed by a dash |
| `ReminderService.Done` | reminder_service.py:50-56 | a done row has a `Predicted_Hours` text and a parsed start; with positive hours it started before `now`; with non-positive hours it is done once it has started |
| `ReminderService.Finished` | reminder_service.py:40-56 | a row has a finished id exactly when its stripped timestamp is non-empty, it and the hours parse, and the end is not after `now`; the id joins timestamp, species and thickness with dashes |
| `ReminderService.Step` | reminder_service.py:45-77 | a row with a finished id that is not remembered appends exactly that id to the alerts; any other row changes nothing. One row never forgets an id, the new alert is remembered afterwards when `remember` holds, and only the row's finished id can be newly remembered, only when `remember` holds |
| `ReminderService.FinishedIds` | reminder_service.py:37-56 | the finished id of every row, in order |
| `ReminderService.Remembers` | reminder_service.py:60-77 | without plyer a row's id is always remembered; with plyer exactly when its notification goes through |
| `ReminderService.Scan` | reminder_service.py:37-82 | a pass raises at most one alert per row |
| `ReminderService.ScanGrows` | reminder_service.py:16 | a pass never forgets a remembered id |
| `ReminderService.ScanAddsOnlyFinished` | reminder_service.py:37-77 | every newly remembered id is the finished id of a row whose id is remembered once it alerts |
| `ReminderService.AlertsAreNew` | reminder_service.py:47-57 | a pass never alerts for an id remembered before it |
| `ReminderService.AlertsAreFinished` | reminder_service.py:37-77 | every alert is the finished id of one of the rows stepped over |
| `ReminderService.AlertsComeFromRows` | reminder_service.py:37-77 | every alert of a pass over the log is the finished id of one of its rows |
| `ReminderService.ScanRemembersAllFinished` | reminder_service.py:73-77 | without desktop notifications, every finished id ends up remembered |
| `ReminderService.AlertsDistinctWithoutPlyer` | reminder_service.py:47-77 | without desktop notifications, every alert is remembered and no id alerts twice in one pass |
| `ReminderService.Reminder.constructor` | reminder_service.py:16 | the service starts with nothing remembered |
| `ReminderService.Reminder.CheckRow` | reminder_service.py:38-82 | the skip rules, in the service's order, and the alert and remembering of one row act as `Step` |
| `ReminderService.Reminder.CheckJobsForNotification` | reminder_service.py:24-88 | a missing log changes nothing; otherwise the new remembered set and the alerts are those of the fold over the rows; the set only grows, and no alert is for an id remembered before the pass; every alert is the finished id of a row of the log |

## Left out

- `train_model.py` is not part of this model. The regressor is the parameter `model`, and its vocabulary is the parameter `vocab`.
- `sensor_reader.py` and `read_sensor_data_loop` are left out: serial I/O, JSON parsing and threads. The cached reading is a `SensorValue`.
- The Flask routes' plumbing is left out: the request parsing, `jsonify`, the response headers, the `subprocess` call to the predictor, `log_prediction`'s CSV writing and `download_report`'s PDF. They are I/O.
- Reading the CSV file is left out, including `skipinitialspace`, quoting and the file-existence check. The model starts from the parsed rows, or `None` for a missing log.
- Command-line parsing in `predict.py` is left out, with its `IndexError` and `ValueError` exits. `RunPredictor` starts from a parsed query.
- `print` output is left out. Recommendations keep their savings and scenario but not their text; alerts are the ids they were raised for.
- The reminder service's endless loop and its 60-second sleep are left out. `CheckJobsForNotification` is one pass, and repeated passes are repeated calls on the same `Reminder`.
- Floating point is left out: NaN, infinities and binary rounding. `round` is modelled as half-even on the exact value.
- `timedelta`'s microsecond rounding is left out. Ends are exact reals.
- An `OverflowError` from a date out of range is left out. It would make `get_active_jobs` and `get_history` return `[]` through their outer handler.
- `App.EndKey`: the active list is sorted by the end instant rather than by its ISO text. The two orders agree for four-digit years, because `isoformat` only appends a fraction after the seconds.
- `App.LatestFirstKey`: the history is sorted by the start minute rather than by the `'%Y-%m-%d %H:%M'` text. The two orders agree for four-digit years.
- `strptime` and `float` are parameters, so their exact grammar is not modelled. `App.BatchIdInjective` takes as a premise that `%y%m%d` renders six characters.
- The JSON request fields are modelled as already numeric. A non-numeric `thickness` would only reach the predictor's command line as text.
- `notification.notify` is the parameter `notifyOk`. Its title, message and timeout are left out.
