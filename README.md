# Event study core in Dafny

A verified model of the bookkeeping at the heart of the `eventstudy` Python
package: the part that locates an event date in an imported return series,
slices the estimation, buffer and event windows around it, runs a normal-return
model, accumulates abnormal returns (AR) into cumulative abnormal returns (CAR)
with their variances, aggregates many single-event studies into average
abnormal returns (AAR, CAAR), sorts a batch of events into a sample and an error
list, parses comma-separated event lists, lays out the error report, and builds
the texts of the package's four exceptions.

All returns are exact `real`s. The least-squares solver, the logarithm and the
date parser are function parameters. Python's slicing rules (negative bounds
wrap, bounds clamp), numpy's broadcasting of a one-entry operand, and the
built-in exceptions that numpy, statsmodels and Python raise on the way (named by their class in `Exceptions.Failure.Builtin`) are modelled as
they are. Two pieces of single.py are modelled twice, as written and as
evidently intended (see Findings): the length test of `_get_parameters` and
the percentage change of `import_returns`. The members that fetch columns,
build the studies and convert prices use the intended versions. The lines under
"Left out" that name those members say what this leaves out.

Modules, one per source file plus two for the Python and numpy built-ins used:

- `python.dfy` — `Python`: `Option`/`Result`, slicing (`Bound`, `Slice`,
  `Take`, `Drop`), `[x] * n`, a loop that stops at its first failure
  (`MapResults`), and `str.split`, `str.strip`, `str.join`,
  `str.ljust` and `str(int)`.
- `numerics.dfy` — `Numerics`: `np.sum`, `np.mean`, `np.var` (ddof 0),
  `np.cumsum`, `np.diff`, `np.sum(axis=0)`, `np.min` and `np.max`, with the
  algebra the aggregation proofs need.
- `exceptions.dfy` — `Exceptions` (eventstudy/exception.py): the four
  exceptions. `str(e)` is the `msg` field of `Failure.Custom`.
- `utils.dfy` — `Utils` (eventstudy/utils.py): `get_index_of_date` and
  `add_asterisks`.
- `models.dfy` — `Models` (eventstudy/models.py): `Model.OLS`, `market_model`,
  `constant_mean` and both Fama-French models.
- `single.dfy` — `Single` (eventstudy/single.py): a `Single` instance as the
  value `SingleEvent`, the class-level `_parameters` store as the class
  `ParameterStore`, the window slicer, price-to-return conversion and the four
  model classmethods.
- `multiple.dfy` — `Multiple` (eventstudy/multiple.py): aggregation,
  `from_list`, `from_text` and `error_report`. eventstudy/eventStudyBatch.py
  repeats this code under the class name `EventStudyBatch`. It is modelled once,
  and rows below cite whichever of the two files is named.

`var_CAR[k]` is `(k + 1) * var_AR[k]` (single.py:113), not a running sum of
`var_AR`. The two agree only when `var_AR` is constant
(`Single.ConstantVarianceAccumulates`). As written, the slicer of
`_get_parameters` does not require the window to start inside the series: a
negative start wraps around to the end of the series (see Findings).

## Model

| member | source | states |
|---|---|---|
| `Python.Slice` | eventstudy/single.py:286 | `s[i:j]`: length and entries follow Python's clamping and wrap-around of both bounds |
| `Python.SliceHasLength` | eventstudy/single.py:286-291 | a slice has exactly `j - i` entries iff the bounds coincide, both lie inside `s`, or both are negative and inside `s` from its end |
| `Python.Drop` | eventstudy/models.py:38-40 | `s[-k:]` keeps the last k entries when 1 <= k <= len(s), the whole list when k == 0 or k > len(s) |
| `Python.Repeat` | eventstudy/models.py:56 | `[x] * n` has max(n, 0) entries, all equal to x |
| `Python.Strip` | eventstudy/multiple.py:288 | `str.strip` returns the infix left after removing leading and trailing whitespace; it starts and ends with non-space |
| `Python.Split` | eventstudy/multiple.py:288 | `str.split(sep)` yields at least one field and no field holds the separator |
| `Python.JoinSplit` | eventstudy/multiple.py:288 | joining the fields of a split with the separator gives the text back |
| `Python.LJust` | eventstudy/multiple.py:442-444 | `ljust(w)` keeps the text as prefix and pads with spaces to max(len, w) |
| `Python.MapResults` | eventstudy/single.py:283-296 | a loop that stops at the first failure yields, on success, one value per element |
| `Python.MapResultsAll` | eventstudy/single.py:283-296 | such a loop succeeds iff every element does, value i being element i's; a failure is some element's failure |
| `Python.MapResultsFirstFailure` | eventstudy/single.py:284-292 | a failure is the failure of an element all of whose predecessors succeed |
| `Python.MapResultsStops` | eventstudy/multiple.py:421-435 | once a prefix fails, the whole loop fails the same way |
| `Python.MapResultsStep` | eventstudy/single.py:283-296 | one more iteration raises the element's failure or appends its value |
| `Python.IntText` | eventstudy/multiple.py:401 | `str(n)` is a minus sign for negatives, then decimal digits |
| `Python.NatTextValue` | eventstudy/multiple.py:401 | the digits `str(n)` writes read back as n |
| `Numerics.CumSum` | eventstudy/single.py:112 | `np.cumsum`: same length, entry k is the sum of entries 0..k |
| `Numerics.DiffCumSum` | eventstudy/single.py:112 | differencing the running sum gives the vector back, less its first entry |
| `Numerics.PopVariance` | eventstudy/models.py:36 | `np.var` is never negative |
| `Numerics.ConstantHasNoVariance` | eventstudy/models.py:119-122 | a constant vector has its value as mean and variance zero |
| `Numerics.ShiftInvariance` | eventstudy/models.py:120-122 | subtracting c moves the mean by c and keeps the variance |
| `Numerics.Centred` | eventstudy/models.py:119-120 | deviations from the mean sum to zero |
| `Numerics.VecSum` | eventstudy/multiple.py:35 | `np.sum(rows, axis=0)`: entry t is the sum of column t |
| `Numerics.CumSumVecSum` | eventstudy/multiple.py:28-39 | the running sum of column sums equals the column sums of the running sums |
| `Numerics.CumSumScale` | eventstudy/multiple.py:35-39 | the running sum commutes with scaling by 1/N |
| `Numerics.SumDiff` | eventstudy/single.py:333 | the first differences of a vector sum to last minus first |
| `Numerics.MinOf` | eventstudy/multiple.py:56 | `np.min` is an entry and no entry is smaller |
| `Numerics.MaxOf` | eventstudy/multiple.py:60 | `np.max` is an entry and no entry is larger |
| `Numerics.MeanBetween` | eventstudy/multiple.py:53-60 | min <= mean <= max |
| `Utils.FirstIndex` | eventstudy/utils.py:80-82 | `np.where(data == d)[0][0]` is the smallest row holding d, and there is none iff d is absent |
| `Utils.Locate` | eventstudy/utils.py:75-87 | None iff none of date..date+n occurs; otherwise the row holds a probe date, no earlier probe date occurs, and it is the first row with that date |
| `Utils.GetIndexOfDate` | eventstudy/utils.py:79-87 | the loop that steps the date forward one day per try returns exactly `Locate` |
| `Utils.ExactMatchOnly` | eventstudy/utils.py:79 | with n == 0 only the date itself is accepted |
| `Utils.GapIsBridged` | eventstudy/utils.py:79-84 | dates [D, D+2] probed from D+1 give row 1 when n >= 1 and None when n == 0 |
| `Utils.EarlierProbeWins` | eventstudy/utils.py:79-84 | an earlier probe date wins even when a later one sits on an earlier row |
| `Utils.Stars` | eventstudy/utils.py:39-46 | three stars iff p < 0.01, at least two iff p < 0.05, at least one iff p < 0.1 |
| `Utils.StarsAntitone` | eventstudy/utils.py:39-46 | a smaller p-value never earns fewer stars |
| `Utils.AddAsterisks` | eventstudy/utils.py:35-47 | the text starts with `str(value)`, or with the p-value when no value is given, then a space and the stars when there are any |
| `Exceptions.ParameterMissingError` | eventstudy/exception.py:5-25 | fixed helper for "returns" and "FamaFrench"; otherwise msg == helper, naming the parameter iff it is truthy; msg starts with helper |
| `Exceptions.ColumnMissingError` | eventstudy/exception.py:31-53 | the column is named for "returns"/"FamaFrench"; otherwise msg == helper and without a parameter it reads "One parameter is missing." |
| `Exceptions.DateMissingError` | eventstudy/exception.py:59-77 | the helper opens with "Date (" iff the date is truthy, ends naming the parameter iff it is truthy; msg is helper plus the tip |
| `Exceptions.DateMissingOpening` | eventstudy/exception.py:63-72 | the opening of the four DateMissingError helpers is chosen by the truthiness of the date |
| `Exceptions.DateMissingEnding` | eventstudy/exception.py:63-72 | the ending of the four DateMissingError helpers is chosen by the truthiness of the parameter name |
| `Exceptions.DataMissingError` | eventstudy/exception.py:83-106 | the helper starts with the head line chosen by parameter and column, and gains the "N data retrieved over M expected." line iff both sizes are truthy |
| `Exceptions.NoSizeLineForEmptyData` | eventstudy/exception.py:100-101 | an actual size of 0 leaves the size line out |
| `Models.AddConstant` | eventstudy/models.py:32 | every design row is 1.0 followed by the regressors |
| `Models.Predict` | eventstudy/models.py:34 | `reg.predict(X)`: one fitted value per row, the row times the coefficients |
| `Models.ColumnStack` | eventstudy/models.py:89 | stacking succeeds iff all columns are equally long; row i holds entry i of each column in order; otherwise ValueError |
| `Models.BroadcastSub` | eventstudy/models.py:90 | `security - RF` elementwise, or against a one-entry operand; ValueError iff lengths cannot broadcast |
| `Models.Model.OLS` | eventstudy/models.py:30-40 | fit on the first `estimation_size` rows only; the residuals are the last `event_window_size` of `AllResiduals`; df = estimation_size - 1 whatever the regressors; the variance is the population variance of the first `estimation_size` residuals of the whole series, hence non-negative; regression kept iff keep_model; ValueError unless X and Y are equally long, or there is one estimation row and one side of length one (the fit needs as many rows as observations, the subtraction broadcasts a single entry) |
| `Models.FitRows` | eventstudy/models.py:33-34 | the first `estimation_size` rows and observations agree in number and the subtraction broadcasts iff the lengths agree, or there is one estimation row and one non-empty side of length one |
| `Models.AllResiduals` | eventstudy/models.py:33-34 | as many residuals as the longer side (the other having length one); each is its observation minus the fit on the estimation rows, a one-entry side standing for every row |
| `Models.WindowResiduals` | eventstudy/models.py:34-39 | event-window day k is the residual of row start + k, the window starting `event_window_size` rows before the end of the broadcast series |
| `Models.ExactFitHasNoVariance` | eventstudy/models.py:33-36 | when the fit reproduces every estimation row, the OLS variance is zero, whatever the event rows are |
| `Models.Centre` | eventstudy/models.py:119-120 | the residual of each row is the return minus the mean of the estimation returns |
| `Models.ConstantMean` | eventstudy/models.py:110-127 | residuals are the last `event_window_size` centred returns; df = estimation_size - 1; variance is `event_window_size` copies of the variance of all returns; the kept model is the mean |
| `Models.ConstantMeanCentred` | eventstudy/models.py:119-120 | the estimation residuals of the constant-mean model sum to zero |
| `Models.ConstantReturnsAreNormal` | eventstudy/models.py:119-122 | a constant return series gives all-zero residuals and zero variance |
| `Models.InterceptOnlyIsConstantMean` | eventstudy/models.py:33-35 | an intercept-only regression solved by the estimation mean has the constant-mean residuals and df |
| `Models.MarketModel` | eventstudy/models.py:43-65 | the OLS residuals and df, the OLS variance repeated `event_window_size` times, model kept iff asked; ValueError unless the series are equally long, or there is one estimation row and a one-entry series that broadcasts |
| `Models.FactorModel` | eventstudy/models.py:84-107 | OLS of `security - RF` on the stacked factors, variance repeated over the window; ValueError iff stacking fails, `security - RF` does not broadcast, or the excess returns and factor rows neither agree in length nor broadcast with one estimation row |
| `Models.Repeated` | eventstudy/models.py:97 | `[var_res] * event_window_size` with the OLS residuals and df |
| `Models.FactorResiduals` | eventstudy/models.py:89-107 | the factor model's residuals are the event-window part of the residuals of `security - RF` on the stacked factors |
| `Models.Stack3` | eventstudy/models.py:89 | three factor columns stack iff equally long, row i being [1, Mkt_RF, SMB, HML] once the intercept is added |
| `Models.Stack5` | eventstudy/models.py:149 | five factor columns stack iff equally long, row i being [1, Mkt_RF, SMB, HML, RMW, CMA] |
| `Models.FamaFrench3` | eventstudy/models.py:72-107 | ValueError iff the factors differ in length, `security - RF` does not broadcast, or the excess returns and factors neither agree in length nor broadcast with one estimation row; residual k is (security - RF) minus the fit on intercept, Mkt_RF, SMB, HML in that order, a one-entry side standing for every row |
| `Models.FamaFrench3Residuals` | eventstudy/models.py:89-107 | the three-factor residuals day by day, the regressors of each row being intercept, Mkt_RF, SMB, HML |
| `Models.StackedRows3` | eventstudy/models.py:89 | a residual on the stacked three factors names that row's Mkt_RF, SMB and HML, also when one row is broadcast |
| `Models.FamaFrench5` | eventstudy/models.py:130-167 | as the three-factor model with RMW and CMA as fourth and fifth regressors, with the same errors |
| `Models.FamaFrench5Residuals` | eventstudy/models.py:149-167 | the five-factor residuals day by day, the regressors of each row being intercept, Mkt_RF, SMB, HML, RMW, CMA |
| `Models.StackedRows5` | eventstudy/models.py:149 | the same for the five stacked factors |
| `Single.WindowSize` | eventstudy/single.py:92 | `event_window_size == T3 - T2 + 1` |
| `Single.VarCAR` | eventstudy/single.py:113 | `var_CAR[k] == (k + 1) * var_AR[k]`, same length |
| `Single.ConstantVarianceAccumulates` | eventstudy/single.py:113 | with a constant `var_AR`, `var_CAR` is its running sum, growing linearly |
| `Single.NewSingle` | eventstudy/single.py:35-115 | model errors propagate; ValueError iff the tuple has the wrong arity or CAR and var_CAR cannot broadcast; else the study records the event date, window, estimation and buffer sizes and description it was given, AR, df, var_AR, model unpacked in order, CAR[k] = sum of AR[0..k], var_CAR as VarCAR |
| `Single.CarStepsAreReturns` | eventstudy/single.py:112 | CAR starts at AR[0] and its steps are the later ARs |
| `Single.SliceColumn` | eventstudy/single.py:286 | slicing a column inside its bounds keeps `end - start` cells in order |
| `Single.SpanAround` | eventstudy/single.py:279-281 | `end - start == size == est + buf + ews`, and the event row is `est + buf - T2` after start |
| `Single.DataCheckAsWritten` | eventstudy/single.py:291-292 | the length test as written passes iff the slice has `size` rows |
| `Single.DataCheck` | eventstudy/single.py:291-292 | the corrected test passes iff the span starts at or after row 0 and the slice has `size` rows; it reports `size` as expected |
| `Single.ExpectedSizeCounterexample` | eventstudy/single.py:279-292 | an event 5 rows short of its window is reported as missing 471 rows instead of 351 |
| `Single.WrappedSpanCounterexample` | eventstudy/single.py:279-291 | a window starting before row 0 wraps to unrelated rows of the right length, accepted as written, refused when corrected |
| `Single.DataCheckAcceptsInside` | eventstudy/single.py:286-291 | the corrected test accepts a column iff the whole span lies inside it |
| `Single.FetchColumn` | eventstudy/single.py:284-294 | with the intended length test: ColumnMissingError for a missing column; success iff the span lies inside the column, returning its slice |
| `Single.FetchColumnAgreesAsWritten` | eventstudy/single.py:284-292 | for a span starting at or after row 0, the intended test accepts exactly the slices the test as written accepts |
| `Single.Collect` | eventstudy/single.py:283-296 | with the intended length test: succeeds iff every column can be fetched; one slice per column in request order |
| `Single.CollectStopsAtFirstFailure` | eventstudy/single.py:284-292 | a failure is the error of the first failing column, every earlier column being fetched |
| `Single.CollectColumns` | eventstudy/single.py:283-296 | the loop over the requested columns, raising ColumnMissingError or DataMissingError (intended test) at the first bad one, returns exactly `Collect` |
| `Single.Locator` | eventstudy/single.py:266-277 | ParameterMissingError when the table or its "date" column is missing; on success the table and the row `Locate` finds with `max_iteration` extra days |
| `Single.ParameterStore.LocateEvent` | eventstudy/single.py:266-277 | the lookups before the column loop return exactly `Locator` on the current store |
| `Single.Parameters` | eventstudy/single.py:255-296 | with the intended length test: on success one slice per requested column, each of est + buf + ews rows |
| `Single.ParametersSucceed` | eventstudy/single.py:266-296 | with the intended length test: success iff the store and date are found and every column holds the whole span |
| `Single.EventRowInWindow` | eventstudy/single.py:279-286 | with the intended length test: in each slice, offset `est + buf - T2` holds the row of the located event date |
| `Single.ReturnColumns` | eventstudy/single.py:433-440 | every classmethod fetches the security's column first; only the market model fetches a second column, the market's |
| `Single.StudyNeedsReturns` | eventstudy/single.py:433-440 | without imported returns every classmethod raises ParameterMissingError for "returns" |
| `Single.StudyNeedsFactors` | eventstudy/single.py:593-608 | with returns but no factors the Fama-French classmethods raise ParameterMissingError for "FamaFrench" |
| `Single.Fetched` | eventstudy/single.py:593-608 | the return columns are exactly what `_get_parameters("returns", …)` gives and the factor columns what `_get_parameters("FamaFrench", …)` gives (none without factors); the first error raised propagates; each column holds est + buf + ews rows |
| `Single.MarketStudy` | eventstudy/single.py:443-452 | `cls(market_model, …)`: a model error propagates; on success AR, df, var_AR and the kept model are `market_model`'s output on these returns; one variance per window day, one AR per window day when the rows cover the window, the market-model description |
| `Single.ConstantMeanEstimate` | eventstudy/single.py:520-529 | `cls(constant_mean, …)`: on success AR, df, var_AR and the kept model are `constant_mean`'s output on these returns; the same shape with the constant-mean description |
| `Single.FamaFrench3Study` | eventstudy/single.py:612-627 | `cls(FamaFrench_3factor, …)`: a model error propagates; on success AR, df, var_AR and the kept model are `FamaFrench_3factor`'s output on these columns; the same shape with the three-factor description |
| `Single.FamaFrench5Study` | eventstudy/single.py:710-727 | `cls(FamaFrench_5factor, …)`: a model error propagates; on success AR, df, var_AR and the kept model are `FamaFrench_5factor`'s output on these columns; the same shape with the five-factor description |
| `Single.Run` | eventstudy/single.py:443-452 | each classmethod's model run on the fetched values has that shape and the classmethod's description |
| `Single.Estimate` | eventstudy/single.py:433-452 | the study built from the fetched columns has df = est - 1, one variance per window day, one AR per window day when the rows cover it, and the model's description |
| `Single.StudyFrom` | eventstudy/single.py:433-452 | a failed fetch is re-raised unchanged; otherwise the study has the shape `Estimate` promises |
| `Single.Study` | eventstudy/single.py:376-727 | every classmethod's study has df = est - 1, one variance per window day, one AR per window day whenever the buffer does not eat into the estimation rows, and its description |
| `Single.FetchedColumns` | eventstudy/single.py:593-608 | when `_get_parameters` returns these return columns (and, for a Fama-French model, these factor columns), the classmethod's fetch returns exactly them |
| `Single.StudyOfFetched` | eventstudy/single.py:376-727 | once the fetch succeeds, a classmethod is the model run on the fetched columns, each holding at least one row |
| `Single.EstimateRuns` | eventstudy/single.py:443-452 | a fetched column of dates makes the study a TypeError; otherwise the study is the model run on the columns' values |
| `Single.EstimateMarket` | eventstudy/single.py:433-452 | `market_model` regresses the first fetched column (the security) on the second (the market); its AR, df, var_AR and kept model are the study's; a date column is a TypeError |
| `Single.EstimateConstantMean` | eventstudy/single.py:509-529 | `constant_mean` runs on the one fetched column; its AR, df, var_AR and kept model are the study's; a date column is a TypeError |
| `Single.RunFamaFrench3` | eventstudy/single.py:612-627 | `FamaFrench_3factor` gets the security's values, then Mkt-RF, SMB, HML and RF in fetched order; its output is the study's |
| `Single.EstimateFamaFrench3` | eventstudy/single.py:593-627 | `FamaFrench_3factor` runs on the security's values and the factors fetched as Mkt-RF, SMB, HML, RF; its output is the study's; a date column is a TypeError |
| `Single.RunFamaFrench5` | eventstudy/single.py:710-727 | `FamaFrench_5factor` gets the security's values, then Mkt-RF, SMB, HML, RMW, CMA and RF in fetched order; its output is the study's |
| `Single.EstimateFamaFrench5` | eventstudy/single.py:691-727 | `FamaFrench_5factor` runs on the security's values and the factors fetched as Mkt-RF, SMB, HML, RMW, CMA, RF; its output is the study's; a date column is a TypeError |
| `Single.ParameterStore.FetchStudyData` | eventstudy/single.py:593-608 | the two `_get_parameters` calls of a classmethod (intended length test) return exactly `Fetched` |
| `Single.ParameterStore.constructor` | eventstudy/single.py:31-33 | the store starts holding only `max_iteration` = 4 |
| `Single.ParameterStore.SaveParameter` | eventstudy/single.py:251-253 | the store maps the name to the data and keeps every other entry |
| `Single.ParameterStore.GetParameters` | eventstudy/single.py:255-296 | locating the event and then looping over the columns (intended length test) returns exactly `Parameters` on the current store |
| `Single.ParameterStore.RunStudy` | eventstudy/single.py:376-727 | the four classmethods fetch returns, then factors, then build the study: exactly `Study` on the current store |
| `Single.ParameterStore.ImportReturns` | eventstudy/single.py:329-339 | with `is_price` every column is converted (intended percentage change) and the result stored as "returns"; on TypeError the store is unchanged |
| `Single.LogReturns` | eventstudy/single.py:333 | one fewer entry; entry t is ln(p[t+1]) - ln(p[t]) |
| `Single.LogReturnsTelescope` | eventstudy/single.py:333 | log returns sum to ln(last) - ln(first) |
| `Single.PctChangeAsWritten` | eventstudy/single.py:335 | as written each change is divided by the later price |
| `Single.PctChange` | eventstudy/single.py:335 | corrected: compounding return t on price t gives price t + 1 |
| `Single.PctChangeCounterexample` | eventstudy/single.py:335 | prices 1 then 2 give 0.5 as written and 1.0 corrected |
| `Single.PctChangeAsWrittenDamps` | eventstudy/single.py:335 | the return as written is the intended return r damped to r / (1 + r), where 1 + r > 0 |
| `Single.ConvertColumn` | eventstudy/single.py:330-337 | the date column drops its first entry; a value column becomes its log returns or its intended percentage changes (`PctChange`), one entry shorter; a date column under another key is a TypeError |
| `Single.Converted` | eventstudy/single.py:329-339 | the converted table (intended percentage change) has the same keys |
| `Single.ConvertedColumnsAligned` | eventstudy/single.py:329-337 | equal-length columns stay equal-length (n - 1), return t dated by the later price |
| `Multiple.PutGet` | eventstudy/multiple.py:337-338 | writing a key reads back its value and leaves every other key's value |
| `Multiple.PopRemove` | eventstudy/multiple.py:428-430 | popping a present key leaves the record with exactly that entry removed |
| `Multiple.RemainingIsPopped` | eventstudy/multiple.py:426-433 | the parameters left for the report are those the three pops leave |
| `Multiple.VarCAAR` | eventstudy/multiple.py:40-42 | `event_window_size` entries, entry i is the sum of `var_AAR[:i+1]` |
| `Multiple.ColumnMeans` | eventstudy/multiple.py:35 | `AAR[t]` is the mean over the sample of `AR_e[t]` |
| `Multiple.PooledVariance` | eventstudy/multiple.py:36-38 | `var_AAR[t]` is the sum of `var_AR_e[t]` over N squared |
| `Multiple.ColumnStats` | eventstudy/multiple.py:50-62 | CAR_dist mean, variance, min and max are those of each day's column of CARs |
| `Multiple.Terminal` | eventstudy/multiple.py:26 | `self.CAR` lists each event's last CAR in sample order |
| `Multiple.NewBatch` | eventstudy/multiple.py:17-48 | IndexError on an empty sample; otherwise success iff the ARs, variances and CARs stack and broadcast, the error being ValueError or IndexError as numpy raises it; on success the aggregate |
| `Multiple.IdenticalEvents` | eventstudy/multiple.py:34-45 | N copies of one event give AAR == AR, var_AAR == var_AR / N, df == N df |
| `Multiple.TotalDFConstant` | eventstudy/multiple.py:45 | the summed df of N equal events is N times theirs |
| `Multiple.VarCAARNonDecreasing` | eventstudy/multiple.py:40-42 | with non-negative variances, var_CAAR is non-negative and non-decreasing |
| `Multiple.VarCAARRunningSum` | eventstudy/eventStudyBatch.py:39-42 | var_CAAR has `event_window_size` entries, the running sum of var_AAR |
| `Multiple.CAARFromCARs` | eventstudy/multiple.py:28-39 | CAAR equals the mean of the events' CARs |
| `Multiple.CARDistOrdered` | eventstudy/multiple.py:50-62 | at every day, Min <= Mean <= Max and the variance is non-negative |
| `Multiple.TerminalCARIsTotal` | eventstudy/eventStudyBatch.py:26 | each terminal CAR is the sum of that event's ARs, in sample order |
| `Multiple.Outcomes` | eventstudy/multiple.py:326-334 | each event is studied with the batch's window, sizes and keep flag, in order |
| `Multiple.Tagged` | eventstudy/multiple.py:335-339 | a failed event's dict gains `error_type` (class name) and `error_msg` (helper); other keys are kept |
| `Multiple.Route` | eventstudy/multiple.py:324-345 | succeeds iff every outcome is a success or, with ignore_errors, a captured kind; sample plus errors count the events |
| `Multiple.RouteOrder` | eventstudy/eventStudyBatch.py:162-183 | sample events and error records are the outcomes and tagged dicts at disjoint, increasing input positions; errors only for Date/Data/ColumnMissingError |
| `Multiple.RouteStops` | eventstudy/multiple.py:335-341 | a failing batch raises the error of the first event that is not admitted |
| `Multiple.RouteKeepsError` | eventstudy/eventStudyBatch.py:173-179 | once a prefix of the batch fails, the whole batch fails the same way |
| `Multiple.FromList` | eventstudy/multiple.py:308-345 | the loop returns the routed error or the aggregate of the sample with the error list |
| `Multiple.Fields` | eventstudy/multiple.py:288 | the comma-separated fields of a line, each stripped |
| `Multiple.RowRecord` | eventstudy/multiple.py:290 | IndexError iff a row has more fields than headers |
| `Multiple.Records` | eventstudy/multiple.py:288-290 | one record per row in order, or IndexError |
| `Multiple.EntriesPaired` | eventstudy/eventStudyBatch.py:128 | with distinct headers, field i is stored under `headers[i]`, in order |
| `Multiple.SetDate` | eventstudy/multiple.py:292-295 | KeyError without "event_date", ValueError when it does not parse, else the date replaces the text and other keys are kept |
| `Multiple.SetDates` | eventstudy/multiple.py:292-295 | all records dated in order, or the first record's failure |
| `Multiple.Rows` | eventstudy/multiple.py:288-289 | the fields of every line after the header line |
| `Multiple.ParsedEvents` | eventstudy/eventStudyBatch.py:126-133 | one record per line after the header; field i stripped under `headers[i]`, the date parsed |
| `Multiple.SetDateInPlace` | eventstudy/eventStudyBatch.py:130-133 | parsing a date keeps every other entry in its place |
| `Multiple.TrailingNewlineRefused` | eventstudy/multiple.py:288-295 | a text ending with a newline fails whenever an empty date does not parse, its last line being empty |
| `Multiple.FromText` | eventstudy/multiple.py:270-305 | the parse error, or `from_list` on the parsed events |
| `Multiple.DateEvents` | eventstudy/multiple.py:292-295 | the loop that parses each event's date returns exactly `SetDates` |
| `Multiple.ErrorCells` | eventstudy/multiple.py:426-434 | the cells are the popped type, date and message; KeyError iff one is missing |
| `Multiple.Table` | eventstudy/multiple.py:421-435 | one row of cells per error, in order, or KeyError |
| `Multiple.WidthsOf` | eventstudy/eventStudyBatch.py:259-277 | each width is at least its initial minimum (5/5/0/11) and every cell of its column, and equals one of them |
| `Multiple.MidRule` | eventstudy/multiple.py:447-453 | the rule is 2 longer than the sum of the three widths, made of dashes and spaces |
| `Multiple.Frame` | eventstudy/multiple.py:403-468 | the report opens with the title and the error count |
| `Multiple.Report` | eventstudy/multiple.py:396-473 | "No error." for None or empty errors; KeyError iff an error lacks a key; otherwise the framed table |
| `Multiple.AlignedLines` | eventstudy/eventStudyBatch.py:275-300 | every table line is exactly as long as the rules |
| `Multiple.TaggedCells` | eventstudy/multiple.py:426-434 | a tagged error reports its class, date, helper and the other parameters in order |
| `Multiple.ErrorReport` | eventstudy/eventStudyBatch.py:234-311 | the two-pass loop returns exactly `Report`; the errors are only read |
| `Multiple.GatherCells` | eventstudy/multiple.py:421-439 | the first pass returns the cells and the widths `WidthsOf` gives, or the first KeyError |
| `Multiple.WriteEntries` | eventstudy/multiple.py:454-466 | the second pass writes the entries of the table in order |

## Left out

- t-statistics and p-values (`np.sqrt`, `t.cdf`), `kurtosis` and the quantiles of `CAR_dist`: floating-point library numerics. Only the ValueError that the t-statistic's broadcast can raise is kept.
- `results`, `get_CAR_dist`, `to_table`, the plots, `from_csv`, `read_csv`, `excelExporter.py` and the file reading in `import_returns` and `import_FamaFrench`: formatting and I/O.
- `import_FamaFrench`: its `/100` rescale is float numerics. Storing its table is `SaveParameter("FamaFrench", …)`.
- `import_returns_from_API`, `sign_test` and `rank_test` are empty stubs. `__warn_errors` only logs.
- The statsmodels fit is the parameter `fit`. `sm.add_constant` skips the intercept when a regressor column is already constant; the model always adds it.
- `np.log` is the parameter `ln`, and `datetime.strptime` is the parameter `parse`. Dates are day numbers paired with their printed text, and a date is falsy only at day 0 (the epoch).
- Models.Model.OLS: requires a non-empty estimation window, because numpy returns NaN (not an error) for the variance of an empty one, and NaN has no real counterpart.
- Models.ConstantMean: requires a non-empty estimation window, for the same NaN reason.
- Single.Study: requires `estimation_size >= 1` and `estimation_size + buffer_size + event_window_size != 0`, because a span of zero rows slices to empty columns that pass the length test and then give NaN. A negative span size fails the length test with DataMissingError, which is modelled. A negative `estimation_size`, which no caller in the repository passes (they pass 200 or 300), is also excluded: with it `[:estimation_size]` keeps all but the last rows and the source builds a study.
- Single.StudyFrom: requires the same as `Single.Study`.
- Single.StudyOfFetched: requires the same as `Single.Study`.
- Single.ParameterStore.RunStudy: requires the same as `Single.Study`.
- Single.Estimate: requires at least one fetched row and `estimation_size >= 1`. Zero gives NaN; a negative `estimation_size`, which no caller passes, is also excluded.
- Single.Run: requires at least one fetched row and `estimation_size >= 1`. Zero gives NaN; a negative `estimation_size`, which no caller passes, is also excluded.
- Single.MarketStudy: requires a non-empty security column and `estimation_size >= 1`. Zero gives NaN; a negative `estimation_size`, which no caller passes, is also excluded.
- Single.ConstantMeanEstimate: requires a non-empty security column and `estimation_size >= 1`. Zero gives NaN; a negative `estimation_size`, which no caller passes, is also excluded.
- Single.FamaFrench3Study: requires a non-empty security column as long as RF, as every fetched column is, and `estimation_size >= 1`. Zero gives NaN; a negative `estimation_size`, which no caller passes, is also excluded.
- Single.FamaFrench5Study: requires the same as `Single.FamaFrench3Study`.
- Single.ParameterStore.ImportReturns: requires positive prices for percentage changes, so zero and negative prices are excluded. A zero price gives inf, which reals cannot represent. A price series holds no negative prices, and the facts proved about the two percentage changes (1 + r > 0 for every intended return r, `Single.PctChangeAsWrittenDamps`) hold only for positive ones.
- Single.FetchColumn: uses the intended length test `Single.DataCheck`. As written, a span starting before row 0 whose wrapped slice has `size` rows is accepted, and a rejected slice reports `start + end` as the expected size (`Single.DataCheckAsWritten`). The two tests accept the same slices when the span starts at or after row 0 (`Single.FetchColumnAgreesAsWritten`).
- Single.Collect: inherits the intended length test of `Single.FetchColumn`.
- Single.CollectColumns: inherits the intended length test of `Single.FetchColumn`.
- Single.Parameters: inherits the intended length test of `Single.FetchColumn`.
- Single.ParametersSucceed: inherits the intended length test of `Single.FetchColumn`.
- Single.EventRowInWindow: inherits the intended length test of `Single.FetchColumn`.
- Single.Fetched: inherits the intended length test of `Single.FetchColumn`.
- Single.FetchedColumns: inherits the intended length test of `Single.FetchColumn`.
- Single.ParameterStore.GetParameters: inherits the intended length test of `Single.FetchColumn`.
- Single.ParameterStore.FetchStudyData: inherits the intended length test of `Single.FetchColumn`.
- Single.Study: inherits the intended length test of `Single.FetchColumn`.
- Single.ParameterStore.RunStudy: inherits the intended length test of `Single.FetchColumn`.
- Single.ConvertColumn: divides each price change by the earlier price (`Single.PctChange`). As written, `import_returns` divides by the later price (`Single.PctChangeAsWritten`), which gives r / (1 + r) for an intended return r (`Single.PctChangeAsWrittenDamps`).
- Single.Converted: inherits the intended percentage change of `Single.ConvertColumn`.
- Single.ParameterStore.ImportReturns: inherits the intended percentage change of `Single.ConvertColumn`.
- `from_list` writes `error_type` and `error_msg` into the caller's own dicts. The model returns tagged copies, so the aliasing of the caller's event list is not captured.
- The class-level `_parameters` dict shared by all instances is one `ParameterStore` object passed explicitly.
- `model_func(**model_data, …)` and `event_study_model(**event_params, …)` become function values. A keyword that does not fit is one of the failures such a function may return.
- `str.split` is modelled for one-character separators only, which is all the source uses.

## Findings

| source | as written | input that shows it | evidently intended | confidence | as-written member | corrected member |
|---|---|---|---|---|---|---|
| eventstudy/single.py:292 | DataMissingError reports `start + end` as the expected size | event at row 400 of 405 rows, window (-10, +10), 300 estimation and 30 buffer rows: reports 471 expected instead of 351 | report `size` | not executed; high | Single.DataCheckAsWritten, Single.ExpectedSizeCounterexample | Single.DataCheck |
| eventstudy/single.py:279-291 | a negative `start` wraps around, so a slice of the right length from the end of the series is accepted | event at row 5 of 400 rows, window (-20, -10), 300 and 30: `[-345:-4]` yields 341 rows starting at row 55, accepted | DataMissingError when the window starts before row 0 | not executed; high | Single.DataCheckAsWritten, Single.WrappedSpanCounterexample | Single.DataCheck, Single.DataCheckAcceptsInside |
| eventstudy/single.py:335 | percentage change divides each price change by the later price | prices 1 then 2: return 0.5 instead of 1.0 | divide by the earlier price, `p[:-1]` | not executed; medium | Single.PctChangeAsWritten, Single.PctChangeCounterexample | Single.PctChange |
