/** The single-event study of eventstudy/single.py: the class-level store of
    imported data (`Single._parameters`), the window slicer that fetches the
    estimation, buffer and event rows around an event date, the conversion of
    imported prices to returns, the construction of one event study from a
    model's output (abnormal returns, cumulative abnormal returns and their
    variances), and the four classmethods that wire them together. */
module Single {
  import opened Python
  import opened Numerics
  import opened Exceptions
  import opened Utils
  import opened Models

  // ---------------------------------------------------------------------
  // The event study of one security
  // ---------------------------------------------------------------------

  /** `event_window = (T2, T3)`, relative to the event day. */
  datatype Window = Window(start: int, end: int)

  /** `event_window_size`: the days from T2 to T3, both included. */
  function WindowSize(w: Window): (n: int)
    ensures n == w.end - w.start + 1
  {
    -w.start + w.end + 1
  }

  /** `var_CAR`: the variance of the k-th cumulative abnormal return is k + 1
      times that of the k-th abnormal return (days counted from 1). */
  function VarCAR(varAR: seq<real>): (r: seq<real>)
    ensures |r| == |varAR|
    ensures forall k :: 0 <= k < |r| ==> r[k] == (k + 1) as real * varAR[k]
  {
    seq(|varAR|, k requires 0 <= k < |varAR| => (k + 1) as real * varAR[k])
  }

  /** With the same variance on every day, as every model here returns, the
      variance of the CAR grows linearly: it is the running sum of the
      daily variances. */
  lemma ConstantVarianceAccumulates(varAR: seq<real>)
    requires forall k :: 0 <= k < |varAR| ==> varAR[k] == varAR[0]
    ensures VarCAR(varAR) == CumSum(varAR)
  {
    var v, c := VarCAR(varAR), CumSum(varAR);
    forall k | 0 <= k < |varAR| ensures v[k] == c[k] {
      ConstantPrefixSum(varAR, k);
    }
  }

  lemma ConstantPrefixSum(s: seq<real>, k: nat)
    requires k < |s|
    requires forall i :: 0 <= i < |s| ==> s[i] == s[0]
    ensures Sum(s[..k + 1]) == (k + 1) as real * s[k]
  {
    SumConstant(s[..k + 1], s[0]);
  }

  /** A model function bound to its data (`model_func(**model_data, ...)`):
      it takes the estimation size, the event window size and the keep flag. */
  type ModelFn = (int, int, bool) --> Result<ModelOutput, Failure>

  /** The attributes of a `Single` instance. The t-statistics and p-values
      are not part of the model. */
  datatype SingleEvent = SingleEvent(
    eventDate: Option<Date>,
    eventWindow: Window,
    eventWindowSize: int,
    estimationSize: int,
    bufferSize: int,
    description: Option<string>,
    ar: seq<real>,
    df: int,
    varAR: seq<real>,
    model: Option<Kept>,
    car: seq<real>,
    varCAR: seq<real>)

  /** numpy can combine two vectors elementwise when they are equally long
      or one of them has a single entry. */
  predicate Broadcastable(m: nat, n: nat)
  {
    m == n || m == 1 || n == 1
  }

  /** `Single(model_func, model_data, event_date, event_window,
      estimation_size, buffer_size, keep_model, description)`: runs the model
      with the window size, unpacks three values, or four with keep_model
      (ValueError when the model returns the other count), and computes the
      CAR as the running sum of the ARs with variance VarCAR. The t-statistic
      divides CAR by the root of var_CAR, so lengths numpy cannot broadcast
      raise ValueError. Errors of the model propagate. */
  function NewSingle(modelFn: ModelFn, eventDate: Option<Date>, window: Window, est: int, buf: int,
                     keep: bool, description: Option<string>): (r: Result<SingleEvent, Failure>)
    requires modelFn.requires(est, WindowSize(window), keep)
    ensures modelFn(est, WindowSize(window), keep).Err? ==> r == Err(modelFn(est, WindowSize(window), keep).error)
    ensures modelFn(est, WindowSize(window), keep).Ok? ==>
      var out := modelFn(est, WindowSize(window), keep).value;
      && (r.Ok? <==> out.kept.Some? == keep && Broadcastable(|out.residuals|, |out.variance|))
      && (r.Err? ==> r.error == Builtin("ValueError"))
    ensures r.Ok? ==>
      var out := modelFn(est, WindowSize(window), keep).value;
      && r.value.eventDate == eventDate
      && r.value.eventWindow == window
      && r.value.eventWindowSize == window.end - window.start + 1
      && r.value.estimationSize == est
      && r.value.bufferSize == buf
      && r.value.description == description
      && r.value.ar == out.residuals
      && r.value.df == out.df
      && r.value.varAR == out.variance
      && r.value.model == out.kept
      && |r.value.car| == |r.value.ar|
      && (forall k :: 0 <= k < |r.value.car| ==> r.value.car[k] == Sum(r.value.ar[..k + 1]))
      && |r.value.varCAR| == |r.value.varAR|
      && (forall k :: 0 <= k < |r.value.varCAR| ==> r.value.varCAR[k] == (k + 1) as real * r.value.varAR[k])
  {
    var ews := WindowSize(window);
    var out :- modelFn(est, ews, keep);
    if out.kept.Some? != keep then Err(Builtin("ValueError"))
    else
      var car := CumSum(out.residuals);
      var varCar := VarCAR(out.variance);
      if !Broadcastable(|car|, |varCar|) then Err(Builtin("ValueError"))
      else
        Ok(SingleEvent(eventDate, window, ews, est, buf, description,
                       out.residuals, out.df, out.variance, out.kept, car, varCar))
  }

  /** Each day's abnormal return is the step of the CAR into that day. */
  lemma CarStepsAreReturns(e: SingleEvent, modelFn: ModelFn, eventDate: Option<Date>, window: Window,
                           est: int, buf: int, keep: bool, description: Option<string>)
    requires modelFn.requires(est, WindowSize(window), keep)
    requires NewSingle(modelFn, eventDate, window, est, buf, keep, description) == Ok(e)
    requires e.ar != []
    ensures e.car[0] == e.ar[0]
    ensures Diff(e.car) == e.ar[1..]
  {
    assert e.car == CumSum(e.ar);
    assert e.ar[..1][..0] == [];
    assert Sum(e.ar[..1]) == e.ar[0];
    DiffCumSum(e.ar);
  }

  // ---------------------------------------------------------------------
  // The store of imported data and the window slicer
  // ---------------------------------------------------------------------

  /** A column of an imported table: the dates (as day numbers) or values. */
  datatype Column = DateColumn(days: seq<int>) | ValueColumn(values: seq<real>)

  /** One entry of a column. */
  datatype Cell = Day(day: int) | Value(value: real)

  type Table = map<string, Column>

  /** An entry of `_parameters`: the `max_iteration` number or a table. */
  datatype Param = Limit(n: int) | Data(table: Table)

  function ColumnLength(c: Column): nat
  {
    if c.DateColumn? then |c.days| else |c.values|
  }

  function CellAt(c: Column, i: nat): Cell
    requires i < ColumnLength(c)
  {
    if c.DateColumn? then Day(c.days[i]) else Value(c.values[i])
  }

  /** `column[start:end]` */
  function SliceColumn(c: Column, start: int, end: int): (r: Column)
    ensures r.DateColumn? == c.DateColumn?
    ensures 0 <= start <= end <= ColumnLength(c) ==>
      ColumnLength(r) == end - start &&
      forall k :: 0 <= k < end - start ==> CellAt(r, k) == CellAt(c, start + k)
  {
    match c
    case DateColumn(days) => DateColumn(Slice(days, start, end))
    case ValueColumn(values) => ValueColumn(Slice(values, start, end))
  }

  /** The rows the date probe compares with the event date; a date column
      holding numbers matches no date. */
  function DateRows(c: Column): seq<int>
  {
    if c.DateColumn? then c.days else []
  }

  /** The rows fetched around an event found at row `index`: the estimation
      rows, the buffer rows and the event window, in that order. */
  datatype Span = Span(start: int, end: int) {
    /** `size`, the number of rows the span should hold. */
    function Size(): int { end - start }
  }

  function SpanAround(index: int, window: Window, est: int, buf: int): (s: Span)
    ensures s.Size() == est + buf + WindowSize(window)
    ensures index - s.start == est + buf - window.start
  {
    Span(index - (-window.start + buf + est), index + window.end + 1)
  }

  /** The length test of `_get_parameters` as written: a slice of the
      expected length is accepted, whatever its start, and a rejected slice
      reports `start + end` as the expected size. */
  function DataCheckAsWritten(paramName: string, column: string, length: int, span: Span): (e: Option<Failure>)
    ensures e.None? <==> length == span.Size()
  {
    if length != span.Size() then
      Some(DataMissingError(Some(paramName), Some(column), Some(length), Some(span.start + span.end)))
    else None
  }

  /** The length test as intended: the slice must start inside the column
      (a negative start would wrap around to its end) and hold `size` rows;
      a rejected slice reports `size` as the expected size. */
  function DataCheck(paramName: string, column: string, length: int, span: Span): (e: Option<Failure>)
    ensures e.None? <==> span.start >= 0 && length == span.Size()
    ensures e.Some? ==> e.value == DataMissingError(Some(paramName), Some(column), Some(length), Some(span.Size()))
  {
    if span.start < 0 || length != span.Size() then
      Some(DataMissingError(Some(paramName), Some(column), Some(length), Some(span.Size())))
    else None
  }

  /** An event at row 400 of a 405-row column, with a window of (-10, +10),
      300 estimation rows and 30 buffer rows, spans rows 60 to 410 (351 rows)
      but finds only 345: as written the error claims 60 + 411 = 471 rows were
      expected; as intended it says 351. */
  lemma ExpectedSizeCounterexample()
    ensures SpanAround(400, Window(-10, 10), 300, 30) == Span(60, 411)
    ensures ColumnLength(SliceColumn(ValueColumn(Repeat(0.0, 405)), 60, 411)) == 345
    ensures DataCheckAsWritten("returns", "AAPL", 345, Span(60, 411))
         == Some(DataMissingError(Some("returns"), Some("AAPL"), Some(345), Some(471)))
    ensures DataCheck("returns", "AAPL", 345, Span(60, 411))
         == Some(DataMissingError(Some("returns"), Some("AAPL"), Some(345), Some(351)))
  {
  }

  /** An event at row 5 of a 400-row column, with a window of (-20, -10),
      300 estimation rows and 30 buffer rows, starts 345 rows before the
      first row. Python's slice [-345:-4] wraps around to rows 55 to 395,
      which have the expected 341 rows, so the test as written accepts data
      that is not around the event; the intended test rejects it. */
  lemma WrappedSpanCounterexample()
    ensures SpanAround(5, Window(-20, -10), 300, 30) == Span(-345, -4)
    ensures var c := ValueColumn(seq(400, i => i as real));
      && ColumnLength(SliceColumn(c, -345, -4)) == 341
      && CellAt(SliceColumn(c, -345, -4), 0) == Value(55.0)
      && DataCheckAsWritten("returns", "AAPL", 341, Span(-345, -4)).None?
      && DataCheck("returns", "AAPL", 341, Span(-345, -4)).Some?
  {
    var c := ValueColumn(seq(400, i => i as real));
    assert SliceColumn(c, -345, -4) == ValueColumn(c.values[55..396]);
  }

  /** A column is accepted exactly when the whole span lies inside it. */
  lemma DataCheckAcceptsInside(paramName: string, column: string, c: Column, span: Span)
    ensures DataCheck(paramName, column, ColumnLength(SliceColumn(c, span.start, span.end)), span).None?
        <==> Covers(span, ColumnLength(c))
  {
    var n := ColumnLength(c);
    if c.DateColumn? {
      SliceHasLength(c.days, span.start, span.end);
    } else {
      SliceHasLength(c.values, span.start, span.end);
    }
  }

  /** The span lies inside a column of n rows: it starts at or after the
      first row and, unless it is empty, ends at or before the last. */
  predicate Covers(span: Span, n: nat)
  {
    0 <= span.start <= span.end && (span.start == span.end || span.end <= n)
  }

  /** One requested column: ColumnMissingError when the table lacks it,
      DataMissingError when its slice fails the test. */
  function FetchColumn(table: Table, paramName: string, column: string, span: Span): (r: Result<Column, Failure>)
    ensures r.Ok? <==> column in table && Covers(span, ColumnLength(table[column]))
    ensures column !in table ==> r == Err(ColumnMissingError(Some(paramName), Some(column)))
    ensures r.Ok? ==> r.value == SliceColumn(table[column], span.start, span.end)
  {
    if column !in table then Err(ColumnMissingError(Some(paramName), Some(column)))
    else
      var result := SliceColumn(table[column], span.start, span.end);
      DataCheckAcceptsInside(paramName, column, table[column], span);
      match DataCheck(paramName, column, ColumnLength(result), span)
      case Some(e) => Err(e)
      case None => Ok(result)
  }

  /** Where the span starts at or after the first row, the intended test
      accepts exactly the slices the test as written accepts: the two
      differ only on spans that start before the first row. */
  lemma FetchColumnAgreesAsWritten(table: Table, paramName: string, column: string, span: Span)
    requires span.start >= 0 && column in table
    ensures FetchColumn(table, paramName, column, span).Ok? <==>
      DataCheckAsWritten(paramName, column, ColumnLength(SliceColumn(table[column], span.start, span.end)), span).None?
  {
    FetchColumnCases(table, paramName, column, span);
  }

  /** The two tests of the fetch loop, in the order it makes them. */
  lemma FetchColumnCases(table: Table, paramName: string, column: string, span: Span)
    ensures column in table ==>
      var result := SliceColumn(table[column], span.start, span.end);
      FetchColumn(table, paramName, column, span)
      == if span.start < 0 || ColumnLength(result) != span.Size()
         then Err(DataMissingError(Some(paramName), Some(column), Some(ColumnLength(result)), Some(span.Size())))
         else Ok(result)
  {
  }

  /** `FetchColumn` for the columns of one table and span. */
  function Fetcher(table: Table, paramName: string, span: Span): string -> Result<Column, Failure>
  {
    column => FetchColumn(table, paramName, column, span)
  }

  /** The requested columns in order, stopping at the first that fails. */
  function Collect(table: Table, paramName: string, columns: seq<string>, span: Span): (r: Result<seq<Column>, Failure>)
    ensures r.Ok? <==> forall j :: 0 <= j < |columns| ==> FetchColumn(table, paramName, columns[j], span).Ok?
    ensures r.Ok? ==> |r.value| == |columns|
    ensures r.Ok? ==> forall j :: 0 <= j < |columns| ==> r.value[j] == FetchColumn(table, paramName, columns[j], span).value
  {
    MapResultsAll(columns, Fetcher(table, paramName, span));
    MapResults(columns, Fetcher(table, paramName, span))
  }

  /** A failed request reports the error of the first column that fails,
      at position j; every column before it was fetched. */
  lemma CollectStopsAtFirstFailure(table: Table, paramName: string, columns: seq<string>, span: Span)
    returns (j: nat)
    requires Collect(table, paramName, columns, span).Err?
    ensures j < |columns|
    ensures FetchColumn(table, paramName, columns[j], span).Err?
    ensures Collect(table, paramName, columns, span).error == FetchColumn(table, paramName, columns[j], span).error
    ensures forall i :: 0 <= i < j ==> FetchColumn(table, paramName, columns[i], span).Ok?
  {
    j := MapResultsFirstFailure(columns, Fetcher(table, paramName, span));
  }

  /** The second half of `_get_parameters`: the loop over the requested
      columns, slicing each and raising at the first that is missing or
      falls short of the span. */
  method CollectColumns(table: Table, paramName: string, columns: seq<string>, span: Span)
    returns (r: Result<seq<Column>, Failure>)
    ensures r == Collect(table, paramName, columns, span)
  {
    var fetch := Fetcher(table, paramName, span);
    var results: seq<Column> := [];
    var k := 0;
    while k < |columns|
      invariant 0 <= k <= |columns|
      invariant MapResults(columns[..k], fetch) == Ok(results)
    {
      var column := columns[k];
      MapResultsStep(columns, k, fetch);
      assert fetch(column) == FetchColumn(table, paramName, column, span);
      FetchColumnCases(table, paramName, column, span);
      if column !in table {
        return Err(ColumnMissingError(Some(paramName), Some(column)));
      }
      var result := SliceColumn(table[column], span.start, span.end);
      if span.start < 0 || ColumnLength(result) != span.Size() {
        return Err(DataMissingError(Some(paramName), Some(column), Some(ColumnLength(result)), Some(span.Size())));
      }
      results := results + [result];
      k := k + 1;
    }
    assert columns[..k] == columns;
    return Ok(results);
  }

  /** The table of `param_name` and the row of the event date in it, with the
      errors `_get_parameters` raises on the way: a missing table or date
      column (or a missing `max_iteration`, looked up in the same `try`) is a
      ParameterMissingError, a number stored where a table is expected (or
      the reverse) is a TypeError, and no probe date present is a
      DateMissingError. */
  function Locator(store: map<string, Param>, paramName: string, eventDate: Date): (r: Result<(Table, nat), Failure>)
    ensures r.Ok? ==>
      && paramName in store && store[paramName].Data?
      && r.value.0 == store[paramName].table
      && "date" in r.value.0
      && "max_iteration" in store && store["max_iteration"].Limit?
      && Locate(DateRows(r.value.0["date"]), eventDate.day, store["max_iteration"].n) == Some(r.value.1)
    ensures paramName !in store ==> r == Err(ParameterMissingError(Some(paramName)))
    ensures paramName in store && store[paramName].Data? && "date" !in store[paramName].table ==>
      r == Err(ParameterMissingError(Some(paramName)))
  {
    if paramName !in store then Err(ParameterMissingError(Some(paramName)))
    else if store[paramName].Limit? then Err(Builtin("TypeError"))
    else
      var table := store[paramName].table;
      if "date" !in table then Err(ParameterMissingError(Some(paramName)))
      else if "max_iteration" !in store then Err(ParameterMissingError(Some(paramName)))
      else if store["max_iteration"].Data? then Err(Builtin("TypeError"))
      else
        match Locate(DateRows(table["date"]), eventDate.day, store["max_iteration"].n)
        case None => Err(DateMissingError(Some(eventDate), Some(paramName)))
        case Some(i) => Ok((table, i))
  }

  /** `Single._get_parameters(param_name, columns, event_date, event_window,
      estimation_size, buffer_size)` with the intended length test: one slice
      per requested column, in request order, each of `size` rows. */
  function Parameters(store: map<string, Param>, paramName: string, columns: seq<string>, eventDate: Date,
                      window: Window, est: int, buf: int): (r: Result<seq<Column>, Failure>)
    ensures r.Ok? ==> |r.value| == |columns|
    ensures r.Ok? ==> forall j :: 0 <= j < |columns| ==> ColumnLength(r.value[j]) == est + buf + WindowSize(window)
  {
    var located :- Locator(store, paramName, eventDate);
    var span := SpanAround(located.1, window, est, buf);
    Collect(located.0, paramName, columns, span)
  }

  /** Fetching succeeds exactly when the table and its dates are there, a
      probe date is found, and every requested column holds the whole span
      around the event row. */
  lemma ParametersSucceed(store: map<string, Param>, paramName: string, columns: seq<string>, eventDate: Date,
                          window: Window, est: int, buf: int)
    ensures Parameters(store, paramName, columns, eventDate, window, est, buf).Ok? <==>
      && Locator(store, paramName, eventDate).Ok?
      && var span := SpanAround(Locator(store, paramName, eventDate).value.1, window, est, buf);
         var table := Locator(store, paramName, eventDate).value.0;
         forall j :: 0 <= j < |columns| ==>
           columns[j] in table && Covers(span, ColumnLength(table[columns[j]]))
  {
  }

  /** In every fetched column, the row at offset est + buf - T2 is the row of
      the event date found. */
  lemma EventRowInWindow(store: map<string, Param>, paramName: string, columns: seq<string>, eventDate: Date,
                         window: Window, est: int, buf: int, j: nat)
    requires Parameters(store, paramName, columns, eventDate, window, est, buf).Ok?
    requires j < |columns|
    requires 0 <= est + buf - window.start < est + buf + WindowSize(window)
    ensures var located := Locator(store, paramName, eventDate).value;
      CellAt(Parameters(store, paramName, columns, eventDate, window, est, buf).value[j], est + buf - window.start)
      == CellAt(located.0[columns[j]], located.1)
  {
    var located := Locator(store, paramName, eventDate).value;
    var span := SpanAround(located.1, window, est, buf);
    assert FetchColumn(located.0, paramName, columns[j], span).Ok?;
  }

  // ---------------------------------------------------------------------
  // The model classmethods
  // ---------------------------------------------------------------------

  /** `Single.market_model`, `Single.constant_mean`,
      `Single.FamaFrench_3factor` and `Single.FamaFrench_5factor`. */
  datatype StudyModel =
    | MarketModelStudy(marketTicker: string)
    | ConstantMeanStudy
    | FamaFrench3Study
    | FamaFrench5Study

  /** The columns each classmethod fetches from the "returns" table. */
  function ReturnColumns(model: StudyModel, security: string): (cols: seq<string>)
    ensures |cols| >= 1 && cols[0] == security
    ensures model.MarketModelStudy? <==> |cols| == 2
    ensures model.MarketModelStudy? ==> cols[1] == model.marketTicker
  {
    if model.MarketModelStudy? then [security, model.marketTicker] else [security]
  }

  /** The columns each classmethod fetches from the "FamaFrench" table. */
  function FactorColumns(model: StudyModel): seq<string>
  {
    match model
    case FamaFrench3Study => ["Mkt-RF", "SMB", "HML", "RF"]
    case FamaFrench5Study => ["Mkt-RF", "SMB", "HML", "RMW", "CMA", "RF"]
    case _ => []
  }

  /** The description each classmethod gives its event. */
  function Description(model: StudyModel, security: string): string
  {
    match model
    case MarketModelStudy(market) => "Market model estimation, Security: " + security + ", Market: " + market
    case ConstantMeanStudy => "Constant mean estimation, Security: " + security
    case FamaFrench3Study => "Fama-French 3-factor model estimation, Security: " + security
    case FamaFrench5Study => "Fama-French 5-factor model estimation, Security: " + security
  }

  /** The values of fetched columns; a date column handed to a model cannot
      take part in its arithmetic (TypeError). */
  function AllValues(cols: seq<Column>): (r: Result<seq<seq<real>>, Failure>)
    ensures r.Ok? <==> forall j :: 0 <= j < |cols| ==> cols[j].ValueColumn?
    ensures r.Err? ==> r.error == Builtin("TypeError")
    ensures r.Ok? ==> |r.value| == |cols| && forall j :: 0 <= j < |cols| ==> r.value[j] == cols[j].values
  {
    if exists j :: 0 <= j < |cols| && cols[j].DateColumn? then Err(Builtin("TypeError"))
    else Ok(seq(|cols|, j requires 0 <= j < |cols| => cols[j].values))
  }

  /** A study carries the output of the model it ran: the abnormal returns,
      the degrees of freedom, the variances and the kept model. */
  predicate Ran(e: SingleEvent, out: ModelOutput)
  {
    e.ar == out.residuals && e.df == out.df && e.varAR == out.variance && e.model == out.kept
  }

  /** The event study a classmethod builds from the fetched rows, each
      column holding n >= 1 of them. Whatever the model, the study has
      estimation_size - 1 degrees of freedom, one variance per window day,
      one abnormal return per window day when the rows cover the window, and
      the description of its classmethod. */
  function Estimate(model: StudyModel, security: string, fetched: seq<Column>, factors: seq<Column>,
                    n: nat, eventDate: Date, window: Window, est: int, buf: int, keep: bool, fit: Fitter): (r: Result<SingleEvent, Failure>)
    requires est >= 1 && n >= 1
    requires |fetched| == |ReturnColumns(model, security)| && |factors| == |FactorColumns(model)|
    requires forall j :: 0 <= j < |fetched| ==> ColumnLength(fetched[j]) == n
    requires forall j :: 0 <= j < |factors| ==> ColumnLength(factors[j]) == n
    ensures r.Ok? ==> r.value.df == est - 1
    ensures r.Ok? ==> |r.value.varAR| == (if WindowSize(window) < 0 then 0 else WindowSize(window))
    ensures r.Ok? && 1 <= WindowSize(window) <= n ==> |r.value.ar| == WindowSize(window)
    ensures r.Ok? ==> r.value.description == Some(Description(model, security))
  {
    var r :- AllValues(fetched);
    var f :- AllValues(factors);
    assert forall j :: 0 <= j < |r| ==> |r[j]| == n by {
      assert forall j :: 0 <= j < |r| ==> ColumnLength(fetched[j]) == |r[j]|;
    }
    assert forall j :: 0 <= j < |f| ==> |f[j]| == n by {
      assert forall j :: 0 <= j < |f| ==> ColumnLength(factors[j]) == |f[j]|;
    }
    Run(model, security, r, f, n, eventDate, window, est, buf, keep, fit)
  }

  /** The model of a classmethod run on the values of the fetched columns. */
  function Run(model: StudyModel, security: string, r: seq<seq<real>>, f: seq<seq<real>>,
               n: nat, eventDate: Date, window: Window, est: int, buf: int, keep: bool, fit: Fitter): (e: Result<SingleEvent, Failure>)
    requires est >= 1 && n >= 1
    requires |r| == |ReturnColumns(model, security)| && |f| == |FactorColumns(model)|
    requires forall j :: 0 <= j < |r| ==> |r[j]| == n
    requires forall j :: 0 <= j < |f| ==> |f[j]| == n
    ensures e.Ok? ==> e.value.df == est - 1
    ensures e.Ok? ==> |e.value.varAR| == (if WindowSize(window) < 0 then 0 else WindowSize(window))
    ensures e.Ok? && 1 <= WindowSize(window) <= n ==> |e.value.ar| == WindowSize(window)
    ensures e.Ok? ==> e.value.description == Some(Description(model, security))
  {
    var description := Description(model, security);
    assert |r[0]| == n;
    match model
    case MarketModelStudy(_) =>
      MarketStudy(r[0], r[1], description, eventDate, window, est, buf, keep, fit)
    case ConstantMeanStudy =>
      ConstantMeanEstimate(r[0], description, eventDate, window, est, buf, keep)
    case FamaFrench3Study =>
      assert |f[3]| == n;
      FamaFrench3Study(r[0], f[0], f[1], f[2], f[3], description, eventDate, window, est, buf, keep, fit)
    case FamaFrench5Study =>
      assert |f[5]| == n;
      FamaFrench5Study(r[0], f[0], f[1], f[2], f[3], f[4], f[5], description, eventDate, window, est, buf, keep, fit)
  }

  /** `Single.market_model` once the returns are fetched. */
  function MarketStudy(sec: seq<real>, market: seq<real>, description: string, eventDate: Date, window: Window,
                       est: int, buf: int, keep: bool, fit: Fitter): (r: Result<SingleEvent, Failure>)
    requires est >= 1 && |sec| >= 1
    ensures r.Ok? ==> r.value.df == est - 1
    ensures r.Ok? ==> |r.value.varAR| == (if WindowSize(window) < 0 then 0 else WindowSize(window))
    ensures r.Ok? && 1 <= WindowSize(window) <= |sec| ==> |r.value.ar| == WindowSize(window)
    ensures r.Ok? ==> r.value.description == Some(description)
    ensures var m := MarketModel(sec, market, est, WindowSize(window), keep, fit);
      && (m.Err? ==> r == Err(m.error))
      && (r.Ok? ==> m.Ok? && Ran(r.value, m.value))
  {
    NewSingle((e: int, w: int, k: bool) requires Take(sec, e) != [] => MarketModel(sec, market, e, w, k, fit),
              Some(eventDate), window, est, buf, keep, Some(description))
  }

  /** `Single.constant_mean` once the returns are fetched. */
  function ConstantMeanEstimate(sec: seq<real>, description: string, eventDate: Date, window: Window,
                                est: int, buf: int, keep: bool): (r: Result<SingleEvent, Failure>)
    requires est >= 1 && |sec| >= 1
    ensures r.Ok? ==> r.value.df == est - 1
    ensures r.Ok? ==> |r.value.varAR| == (if WindowSize(window) < 0 then 0 else WindowSize(window))
    ensures r.Ok? && 1 <= WindowSize(window) <= |sec| ==> |r.value.ar| == WindowSize(window)
    ensures r.Ok? ==> r.value.description == Some(description)
    ensures r.Ok? ==> Ran(r.value, ConstantMean(sec, est, WindowSize(window), keep))
  {
    NewSingle((e: int, w: int, k: bool) requires Take(sec, e) != [] => Ok(ConstantMean(sec, e, w, k)),
              Some(eventDate), window, est, buf, keep, Some(description))
  }

  /** `Single.FamaFrench_3factor` once the returns and factors are fetched. */
  function FamaFrench3Study(sec: seq<real>, mktRf: seq<real>, smb: seq<real>, hml: seq<real>, rf: seq<real>,
                            description: string, eventDate: Date, window: Window,
                            est: int, buf: int, keep: bool, fit: Fitter): (r: Result<SingleEvent, Failure>)
    requires est >= 1 && |sec| >= 1 && |rf| == |sec|
    ensures r.Ok? ==> r.value.df == est - 1
    ensures r.Ok? ==> |r.value.varAR| == (if WindowSize(window) < 0 then 0 else WindowSize(window))
    ensures r.Ok? && 1 <= WindowSize(window) <= |sec| ==> |r.value.ar| == WindowSize(window)
    ensures r.Ok? ==> r.value.description == Some(description)
    ensures var m := FamaFrench3(sec, mktRf, smb, hml, rf, est, WindowSize(window), keep, fit);
      && (m.Err? ==> r == Err(m.error))
      && (r.Ok? ==> m.Ok? && Ran(r.value, m.value))
  {
    NewSingle((e: int, w: int, k: bool)
                requires BroadcastSub(sec, rf).Ok? ==> Take(BroadcastSub(sec, rf).value, e) != [] =>
                FamaFrench3(sec, mktRf, smb, hml, rf, e, w, k, fit),
              Some(eventDate), window, est, buf, keep, Some(description))
  }

  /** `Single.FamaFrench_5factor` once the returns and factors are fetched. */
  function FamaFrench5Study(sec: seq<real>, mktRf: seq<real>, smb: seq<real>, hml: seq<real>,
                            rmw: seq<real>, cma: seq<real>, rf: seq<real>,
                            description: string, eventDate: Date, window: Window,
                            est: int, buf: int, keep: bool, fit: Fitter): (r: Result<SingleEvent, Failure>)
    requires est >= 1 && |sec| >= 1 && |rf| == |sec|
    ensures r.Ok? ==> r.value.df == est - 1
    ensures r.Ok? ==> |r.value.varAR| == (if WindowSize(window) < 0 then 0 else WindowSize(window))
    ensures r.Ok? && 1 <= WindowSize(window) <= |sec| ==> |r.value.ar| == WindowSize(window)
    ensures r.Ok? ==> r.value.description == Some(description)
    ensures var m := FamaFrench5(sec, mktRf, smb, hml, rmw, cma, rf, est, WindowSize(window), keep, fit);
      && (m.Err? ==> r == Err(m.error))
      && (r.Ok? ==> m.Ok? && Ran(r.value, m.value))
  {
    NewSingle((e: int, w: int, k: bool)
                requires BroadcastSub(sec, rf).Ok? ==> Take(BroadcastSub(sec, rf).value, e) != [] =>
                FamaFrench5(sec, mktRf, smb, hml, rmw, cma, rf, e, w, k, fit),
              Some(eventDate), window, est, buf, keep, Some(description))
  }

  /** The rows a classmethod fetches: the security's (and the market's)
      returns, then the Fama-French factors when the model needs them, each
      column holding the estimation, buffer and event rows. */
  function Fetched(store: map<string, Param>, model: StudyModel, security: string, eventDate: Date,
                   window: Window, est: int, buf: int): (r: Result<(seq<Column>, seq<Column>), Failure>)
    ensures r.Ok? ==> |r.value.0| == |ReturnColumns(model, security)| && |r.value.1| == |FactorColumns(model)|
    ensures r.Ok? ==> forall j :: 0 <= j < |r.value.0| ==> ColumnLength(r.value.0[j]) == est + buf + WindowSize(window)
    ensures r.Ok? ==> forall j :: 0 <= j < |r.value.1| ==> ColumnLength(r.value.1[j]) == est + buf + WindowSize(window)
    ensures var p := Parameters(store, "returns", ReturnColumns(model, security), eventDate, window, est, buf);
      && (p.Err? ==> r == Err(p.error))
      && (r.Ok? ==> p.Ok? && r.value.0 == p.value)
    ensures FactorColumns(model) == [] ==> (r.Ok? ==> r.value.1 == [])
    ensures FactorColumns(model) != [] ==>
      var p := Parameters(store, "returns", ReturnColumns(model, security), eventDate, window, est, buf);
      var q := Parameters(store, "FamaFrench", FactorColumns(model), eventDate, window, est, buf);
      && (p.Ok? && q.Err? ==> r == Err(q.error))
      && (r.Ok? ==> q.Ok? && r.value.1 == q.value)
  {
    var fetched :- Parameters(store, "returns", ReturnColumns(model, security), eventDate, window, est, buf);
    var factors :- if FactorColumns(model) == [] then Ok([])
                   else Parameters(store, "FamaFrench", FactorColumns(model), eventDate, window, est, buf);
    Ok((fetched, factors))
  }

  /** A classmethod: fetch the rows, then run the model on them. An empty
      estimation window, whose statistics are NaN, is outside the model. A
      study that succeeds has the shape `Estimate` promises, its rows
      covering the window whenever the window has a day and the buffer does
      not eat into the estimation rows. */
  function Study(store: map<string, Param>, model: StudyModel, security: string, eventDate: Date,
                 window: Window, est: int, buf: int, keep: bool, fit: Fitter): (r: Result<SingleEvent, Failure>)
    requires est >= 1 && est + buf + WindowSize(window) != 0
    ensures r.Ok? ==> r.value.df == est - 1
    ensures r.Ok? ==> |r.value.varAR| == (if WindowSize(window) < 0 then 0 else WindowSize(window))
    ensures r.Ok? && WindowSize(window) >= 1 && est + buf >= 0 ==> |r.value.ar| == WindowSize(window)
    ensures r.Ok? ==> r.value.description == Some(Description(model, security))
  {
    StudyFrom(Fetched(store, model, security, eventDate, window, est, buf), model, security, eventDate,
              window, est, buf, keep, fit)
  }

  /** A classmethod once its fetch is done: the fetch's error, or the model
      run on the rows fetched. */
  function StudyFrom(data: Result<(seq<Column>, seq<Column>), Failure>, model: StudyModel, security: string,
                     eventDate: Date, window: Window, est: int, buf: int, keep: bool, fit: Fitter): (r: Result<SingleEvent, Failure>)
    requires est >= 1 && est + buf + WindowSize(window) != 0
    requires data.Ok? ==> |data.value.0| == |ReturnColumns(model, security)| && |data.value.1| == |FactorColumns(model)|
    requires data.Ok? ==> forall j :: 0 <= j < |data.value.0| ==> ColumnLength(data.value.0[j]) == est + buf + WindowSize(window)
    requires data.Ok? ==> forall j :: 0 <= j < |data.value.1| ==> ColumnLength(data.value.1[j]) == est + buf + WindowSize(window)
    ensures data.Err? ==> r == Err(data.error)
    ensures r.Ok? ==> r.value.df == est - 1
    ensures r.Ok? ==> |r.value.varAR| == (if WindowSize(window) < 0 then 0 else WindowSize(window))
    ensures r.Ok? && WindowSize(window) >= 1 && est + buf >= 0 ==> |r.value.ar| == WindowSize(window)
    ensures r.Ok? ==> r.value.description == Some(Description(model, security))
  {
    if data.Err? then Err(data.error)
    else
      assert ColumnLength(data.value.0[0]) == est + buf + WindowSize(window);
      Estimate(model, security, data.value.0, data.value.1, est + buf + WindowSize(window),
                  eventDate, window, est, buf, keep, fit)
  }

  /** Without imported returns every classmethod fails, naming the returns,
      before looking at any factor. */
  lemma StudyNeedsReturns(store: map<string, Param>, model: StudyModel, security: string, eventDate: Date,
                          window: Window, est: int, buf: int, keep: bool, fit: Fitter)
    requires est >= 1 && est + buf + WindowSize(window) != 0
    requires "returns" !in store
    ensures Study(store, model, security, eventDate, window, est, buf, keep, fit).Err?
    ensures Study(store, model, security, eventDate, window, est, buf, keep, fit).error.helper == "Returns are missing."
  {
  }

  /** With the returns fetched but no factors imported, the Fama-French
      classmethods fail naming the factors. */
  lemma StudyNeedsFactors(store: map<string, Param>, model: StudyModel, security: string, eventDate: Date,
                          window: Window, est: int, buf: int, keep: bool, fit: Fitter)
    requires est >= 1 && est + buf + WindowSize(window) != 0
    requires model.FamaFrench3Study? || model.FamaFrench5Study?
    requires Parameters(store, "returns", [security], eventDate, window, est, buf).Ok?
    requires "FamaFrench" !in store
    ensures Study(store, model, security, eventDate, window, est, buf, keep, fit).Err?
    ensures Study(store, model, security, eventDate, window, est, buf, keep, fit).error.helper == "Fama-French factors are missing."
  {
  }

  /** The fetch succeeds with the columns fetched from "returns" and, for a
      Fama-French model, from "FamaFrench". */
  lemma FetchedColumns(store: map<string, Param>, model: StudyModel, security: string, eventDate: Date,
                       window: Window, est: int, buf: int, cols: seq<Column>, factors: seq<Column>)
    requires Parameters(store, "returns", ReturnColumns(model, security), eventDate, window, est, buf) == Ok(cols)
    requires FactorColumns(model) == [] ==> factors == []
    requires FactorColumns(model) != [] ==>
      Parameters(store, "FamaFrench", FactorColumns(model), eventDate, window, est, buf) == Ok(factors)
    ensures Fetched(store, model, security, eventDate, window, est, buf) == Ok((cols, factors))
  {
  }

  /** Once the fetch succeeds, a classmethod is the model run on the rows
      fetched, each column holding est + buf + T3 - T2 + 1 >= 1 of them. */
  lemma StudyOfFetched(store: map<string, Param>, model: StudyModel, security: string, eventDate: Date,
                       window: Window, est: int, buf: int, keep: bool, fit: Fitter, cols: seq<Column>, factors: seq<Column>)
    requires est >= 1 && est + buf + WindowSize(window) != 0
    requires Fetched(store, model, security, eventDate, window, est, buf) == Ok((cols, factors))
    ensures est + buf + WindowSize(window) >= 1
    ensures Study(store, model, security, eventDate, window, est, buf, keep, fit)
         == Estimate(model, security, cols, factors, est + buf + WindowSize(window), eventDate, window, est, buf, keep, fit)
  {
    var data := Fetched(store, model, security, eventDate, window, est, buf);
    assert ColumnLength(data.value.0[0]) == est + buf + WindowSize(window);
  }

  /** Some fetched column holds dates. */
  predicate HasDates(cols: seq<Column>)
  {
    exists j :: 0 <= j < |cols| && cols[j].DateColumn?
  }

  /** A classmethod's fetched rows are a TypeError when a column holds
      dates, and otherwise the model run on the columns' values. */
  lemma EstimateRuns(model: StudyModel, security: string, fetched: seq<Column>, factors: seq<Column>,
                     n: nat, eventDate: Date, window: Window, est: int, buf: int, keep: bool, fit: Fitter)
    requires est >= 1 && n >= 1
    requires |fetched| == |ReturnColumns(model, security)| && |factors| == |FactorColumns(model)|
    requires forall j :: 0 <= j < |fetched| ==> ColumnLength(fetched[j]) == n
    requires forall j :: 0 <= j < |factors| ==> ColumnLength(factors[j]) == n
    ensures HasDates(fetched) || HasDates(factors) ==>
      Estimate(model, security, fetched, factors, n, eventDate, window, est, buf, keep, fit) == Err(Builtin("TypeError"))
    ensures !HasDates(fetched) && !HasDates(factors) ==>
      && AllValues(fetched).Ok? && AllValues(factors).Ok?
      && (forall j :: 0 <= j < |fetched| ==> |AllValues(fetched).value[j]| == n)
      && (forall j :: 0 <= j < |factors| ==> |AllValues(factors).value[j]| == n)
      && Estimate(model, security, fetched, factors, n, eventDate, window, est, buf, keep, fit)
         == Run(model, security, AllValues(fetched).value, AllValues(factors).value, n, eventDate, window, est, buf, keep, fit)
  {
    if !HasDates(fetched) && !HasDates(factors) {
      assert forall j :: 0 <= j < |fetched| ==> ColumnLength(fetched[j]) == |AllValues(fetched).value[j]|;
      assert forall j :: 0 <= j < |factors| ==> ColumnLength(factors[j]) == |AllValues(factors).value[j]|;
    }
  }

  /** The market model runs on the values of the two fetched "returns"
      columns, the security's first and the market's second; a column of
      dates raises TypeError. */
  lemma EstimateMarket(market: string, security: string, fetched: seq<Column>, n: nat, eventDate: Date,
                       window: Window, est: int, buf: int, keep: bool, fit: Fitter)
    requires est >= 1 && n >= 1 && |fetched| == 2
    requires ColumnLength(fetched[0]) == n && ColumnLength(fetched[1]) == n
    ensures var e := Estimate(MarketModelStudy(market), security, fetched, [], n, eventDate, window, est, buf, keep, fit);
      && (fetched[0].DateColumn? || fetched[1].DateColumn? ==> e == Err(Builtin("TypeError")))
      && (e.Ok? ==>
            && fetched[0].ValueColumn? && fetched[1].ValueColumn?
            && var m := MarketModel(fetched[0].values, fetched[1].values, est, WindowSize(window), keep, fit);
               m.Ok? && Ran(e.value, m.value))
  {
    EstimateRuns(MarketModelStudy(market), security, fetched, [], n, eventDate, window, est, buf, keep, fit);
    if !HasDates(fetched) {
      assert AllValues([]).value == [];
      assert Run(MarketModelStudy(market), security, AllValues(fetched).value, [], n, eventDate, window, est, buf, keep, fit)
          == MarketStudy(fetched[0].values, fetched[1].values, Description(MarketModelStudy(market), security),
                         eventDate, window, est, buf, keep, fit);
    }
  }

  /** The constant-mean model runs on the values of the one fetched
      "returns" column; a column of dates raises TypeError. */
  lemma EstimateConstantMean(security: string, fetched: seq<Column>, n: nat, eventDate: Date,
                             window: Window, est: int, buf: int, keep: bool, fit: Fitter)
    requires est >= 1 && n >= 1 && |fetched| == 1 && ColumnLength(fetched[0]) == n
    ensures var e := Estimate(ConstantMeanStudy, security, fetched, [], n, eventDate, window, est, buf, keep, fit);
      && (fetched[0].DateColumn? ==> e == Err(Builtin("TypeError")))
      && (e.Ok? ==> fetched[0].ValueColumn? && Ran(e.value, ConstantMean(fetched[0].values, est, WindowSize(window), keep)))
  {
    EstimateRuns(ConstantMeanStudy, security, fetched, [], n, eventDate, window, est, buf, keep, fit);
    if !HasDates(fetched) {
      assert AllValues([]).value == [];
      assert Run(ConstantMeanStudy, security, AllValues(fetched).value, [], n, eventDate, window, est, buf, keep, fit)
          == ConstantMeanEstimate(fetched[0].values, Description(ConstantMeanStudy, security),
                                  eventDate, window, est, buf, keep);
    }
  }

  /** The three-factor classmethod regresses on the factors in the order
      fetched. */
  lemma RunFamaFrench3(security: string, r: seq<seq<real>>, f: seq<seq<real>>, n: nat, eventDate: Date,
                       window: Window, est: int, buf: int, keep: bool, fit: Fitter)
    requires est >= 1 && n >= 1 && |r| == 1 && |f| == 4
    requires |r[0]| == n && forall j :: 0 <= j < 4 ==> |f[j]| == n
    ensures var e := Run(StudyModel.FamaFrench3Study, security, r, f, n, eventDate, window, est, buf, keep, fit);
      var m := FamaFrench3(r[0], f[0], f[1], f[2], f[3], est, WindowSize(window), keep, fit);
      e.Ok? ==> m.Ok? && Ran(e.value, m.value)
  {
    assert Run(StudyModel.FamaFrench3Study, security, r, f, n, eventDate, window, est, buf, keep, fit)
        == FamaFrench3Study(r[0], f[0], f[1], f[2], f[3], Description(StudyModel.FamaFrench3Study, security),
                            eventDate, window, est, buf, keep, fit);
  }

  /** The five-factor classmethod regresses on the factors in the order
      fetched. */
  lemma RunFamaFrench5(security: string, r: seq<seq<real>>, f: seq<seq<real>>, n: nat, eventDate: Date,
                       window: Window, est: int, buf: int, keep: bool, fit: Fitter)
    requires est >= 1 && n >= 1 && |r| == 1 && |f| == 6
    requires |r[0]| == n && forall j :: 0 <= j < 6 ==> |f[j]| == n
    ensures var e := Run(StudyModel.FamaFrench5Study, security, r, f, n, eventDate, window, est, buf, keep, fit);
      var m := FamaFrench5(r[0], f[0], f[1], f[2], f[3], f[4], f[5], est, WindowSize(window), keep, fit);
      e.Ok? ==> m.Ok? && Ran(e.value, m.value)
  {
    assert Run(StudyModel.FamaFrench5Study, security, r, f, n, eventDate, window, est, buf, keep, fit)
        == FamaFrench5Study(r[0], f[0], f[1], f[2], f[3], f[4], f[5], Description(StudyModel.FamaFrench5Study, security),
                            eventDate, window, est, buf, keep, fit);
  }

  /** The three-factor model runs on the security's "returns" values and the
      fetched factors in the order Mkt-RF, SMB, HML, RF; a column of dates
      raises TypeError. */
  lemma EstimateFamaFrench3(security: string, fetched: seq<Column>, factors: seq<Column>, n: nat, eventDate: Date,
                            window: Window, est: int, buf: int, keep: bool, fit: Fitter)
    requires est >= 1 && n >= 1 && |fetched| == 1 && |factors| == 4
    requires ColumnLength(fetched[0]) == n && forall j :: 0 <= j < 4 ==> ColumnLength(factors[j]) == n
    ensures var e := Estimate(StudyModel.FamaFrench3Study, security, fetched, factors, n, eventDate, window, est, buf, keep, fit);
      && (HasDates(fetched) || HasDates(factors) ==> e == Err(Builtin("TypeError")))
      && (e.Ok? ==>
            && !HasDates(fetched) && !HasDates(factors) && |fetched[0].values| == n
            && var m := FamaFrench3(fetched[0].values, factors[0].values, factors[1].values, factors[2].values,
                                    factors[3].values, est, WindowSize(window), keep, fit);
               m.Ok? && Ran(e.value, m.value))
  {
    EstimateRuns(StudyModel.FamaFrench3Study, security, fetched, factors, n, eventDate, window, est, buf, keep, fit);
    if !HasDates(fetched) && !HasDates(factors) {
      RunFamaFrench3(security, AllValues(fetched).value, AllValues(factors).value, n, eventDate, window, est, buf, keep, fit);
    }
  }

  /** The five-factor model runs on the security's "returns" values and the
      fetched factors in the order Mkt-RF, SMB, HML, RMW, CMA, RF; a column
      of dates raises TypeError. */
  lemma EstimateFamaFrench5(security: string, fetched: seq<Column>, factors: seq<Column>, n: nat, eventDate: Date,
                            window: Window, est: int, buf: int, keep: bool, fit: Fitter)
    requires est >= 1 && n >= 1 && |fetched| == 1 && |factors| == 6
    requires ColumnLength(fetched[0]) == n && forall j :: 0 <= j < 6 ==> ColumnLength(factors[j]) == n
    ensures var e := Estimate(StudyModel.FamaFrench5Study, security, fetched, factors, n, eventDate, window, est, buf, keep, fit);
      && (HasDates(fetched) || HasDates(factors) ==> e == Err(Builtin("TypeError")))
      && (e.Ok? ==>
            && !HasDates(fetched) && !HasDates(factors) && |fetched[0].values| == n
            && var m := FamaFrench5(fetched[0].values, factors[0].values, factors[1].values, factors[2].values,
                                    factors[3].values, factors[4].values, factors[5].values,
                                    est, WindowSize(window), keep, fit);
               m.Ok? && Ran(e.value, m.value))
  {
    EstimateRuns(StudyModel.FamaFrench5Study, security, fetched, factors, n, eventDate, window, est, buf, keep, fit);
    if !HasDates(fetched) && !HasDates(factors) {
      RunFamaFrench5(security, AllValues(fetched).value, AllValues(factors).value, n, eventDate, window, est, buf, keep, fit);
    }
  }

  /** The class-level `_parameters` dictionary, shared by every `Single`. */
  class ParameterStore {
    var parameters: map<string, Param>

    /** The initial content: only `max_iteration`, 4. */
    constructor ()
      ensures parameters == map["max_iteration" := Limit(4)]
    {
      parameters := map["max_iteration" := Limit(4)];
    }

    /** `_save_parameter(param_name, data)` */
    method SaveParameter(paramName: string, data: Param)
      modifies this
      ensures parameters == old(parameters)[paramName := data]
    {
      parameters := parameters[paramName := data];
    }

    /** `_get_parameters(...)`: locates the event date with at most
        `max_iteration` extra days, then slices the requested columns one
        after the other, raising at the first failure. */
    method GetParameters(paramName: string, columns: seq<string>, eventDate: Date,
                         window: Window, est: int, buf: int) returns (r: Result<seq<Column>, Failure>)
      ensures r == Parameters(parameters, paramName, columns, eventDate, window, est, buf)
    {
      var located := LocateEvent(paramName, eventDate);
      if located.Err? {
        return Err(located.error);
      }
      var span := SpanAround(located.value.1, window, est, buf);
      r := CollectColumns(located.value.0, paramName, columns, span);
    }

    /** The first half of `_get_parameters`: the table of `param_name` and
        the row of the event date in it. */
    method LocateEvent(paramName: string, eventDate: Date) returns (r: Result<(Table, nat), Failure>)
      ensures r == Locator(parameters, paramName, eventDate)
    {
      if paramName !in parameters {
        return Err(ParameterMissingError(Some(paramName)));
      }
      var entry := parameters[paramName];
      if entry.Limit? {
        return Err(Builtin("TypeError"));
      }
      var table := entry.table;
      if "date" !in table {
        return Err(ParameterMissingError(Some(paramName)));
      }
      if "max_iteration" !in parameters {
        return Err(ParameterMissingError(Some(paramName)));
      }
      var limit := parameters["max_iteration"];
      if limit.Data? {
        return Err(Builtin("TypeError"));
      }
      var index := GetIndexOfDate(DateRows(table["date"]), eventDate.day, limit.n);
      if index.None? {
        return Err(DateMissingError(Some(eventDate), Some(paramName)));
      }
      return Ok((table, index.value));
    }

    /** The two `_get_parameters` calls of a classmethod: the returns, then
        the factors when the model needs them. */
    method FetchStudyData(model: StudyModel, security: string, eventDate: Date, window: Window,
                          est: int, buf: int) returns (r: Result<(seq<Column>, seq<Column>), Failure>)
      ensures r == Fetched(parameters, model, security, eventDate, window, est, buf)
    {
      var fetched := GetParameters("returns", ReturnColumns(model, security), eventDate, window, est, buf);
      if fetched.Err? {
        return Err(fetched.error);
      }
      var factors: seq<Column> := [];
      if FactorColumns(model) != [] {
        var fetchedFactors := GetParameters("FamaFrench", FactorColumns(model), eventDate, window, est, buf);
        if fetchedFactors.Err? {
          return Err(fetchedFactors.error);
        }
        factors := fetchedFactors.value;
      }
      return Ok((fetched.value, factors));
    }

    /** The classmethods `market_model`, `constant_mean`,
        `FamaFrench_3factor` and `FamaFrench_5factor`. */
    method RunStudy(model: StudyModel, security: string, eventDate: Date, window: Window,
                    est: int, buf: int, keep: bool, fit: Fitter) returns (r: Result<SingleEvent, Failure>)
      requires est >= 1 && est + buf + WindowSize(window) != 0
      ensures r == Study(parameters, model, security, eventDate, window, est, buf, keep, fit)
    {
      var data := FetchStudyData(model, security, eventDate, window, est, buf);
      r := StudyFrom(data, model, security, eventDate, window, est, buf, keep, fit);
    }

    /** `import_returns(path, is_price, log_return)` once the file is read:
        with `is_price`, every column but the dates becomes the returns
        between consecutive prices and the date column loses its first date;
        the table is then stored as "returns". A date column under another
        name cannot be differenced (TypeError) and leaves the store as it
        was. */
    method ImportReturns(data: Table, isPrice: bool, logReturn: bool, ln: real -> real) returns (r: Result<(), Failure>)
      requires isPrice && !logReturn ==> PositivePrices(data)
      modifies this
      ensures r.Ok? <==> Converted(data, isPrice, logReturn, ln).Ok?
      ensures r.Err? ==> r.error == Converted(data, isPrice, logReturn, ln).error
      ensures r.Ok? ==> parameters == old(parameters)["returns" := Data(Converted(data, isPrice, logReturn, ln).value)]
      ensures r.Err? ==> parameters == old(parameters)
    {
      if isPrice {
        var out := data;
        var keys := data.Keys;
        while keys != {}
          invariant keys <= data.Keys
          invariant out.Keys == data.Keys
          invariant forall key :: key in keys ==> out[key] == data[key]
          invariant forall key :: key in data && key !in keys ==>
            ConvertColumn(key, data[key], logReturn, ln) == Ok(out[key])
          decreases keys
        {
          var key :| key in keys;
          var converted := ConvertColumn(key, data[key], logReturn, ln);
          if converted.Err? {
            return Err(converted.error);
          }
          out := out[key := converted.value];
          keys := keys - {key};
        }
        assert out == map key | key in data :: ConvertColumn(key, data[key], logReturn, ln).value;
        SaveParameter("returns", Data(out));
      } else {
        SaveParameter("returns", Data(data));
      }
      return Ok(());
    }
  }

  // ---------------------------------------------------------------------
  // Prices to returns
  // ---------------------------------------------------------------------

  /** Every price is positive: percentage changes divide by prices. */
  predicate PositivePrices(data: Table)
  {
    forall key :: key in data && data[key].ValueColumn? ==>
      forall t :: 0 <= t < |data[key].values| ==> data[key].values[t] > 0.0
  }

  /** `np.diff(np.log(p))` for a logarithm `ln`. */
  function LogReturns(p: seq<real>, ln: real -> real): (r: seq<real>)
    ensures |r| == if p == [] then 0 else |p| - 1
    ensures forall t :: 0 <= t < |r| ==> r[t] == ln(p[t + 1]) - ln(p[t])
  {
    Diff(seq(|p|, t requires 0 <= t < |p| => ln(p[t])))
  }

  /** Log returns add up over time: their sum is the log of the last price
      minus that of the first. */
  lemma LogReturnsTelescope(p: seq<real>, ln: real -> real)
    requires p != []
    ensures Sum(LogReturns(p, ln)) == ln(p[|p| - 1]) - ln(p[0])
  {
    SumDiff(seq(|p|, t requires 0 <= t < |p| => ln(p[t])));
  }

  /** `np.diff(p) / p[1:]` as written: each price change is divided by the
      later price. */
  function PctChangeAsWritten(p: seq<real>): (r: seq<real>)
    requires forall t :: 0 <= t < |p| ==> p[t] > 0.0
    ensures |r| == if p == [] then 0 else |p| - 1
    ensures forall t :: 0 <= t < |r| ==> r[t] * p[t + 1] == p[t + 1] - p[t]
  {
    seq(if p == [] then 0 else |p| - 1, t requires 0 <= t < |p| - 1 => (p[t + 1] - p[t]) / p[t + 1])
  }

  /** The percentage change as intended: each price change divided by the
      earlier price. */
  function PctChange(p: seq<real>): (r: seq<real>)
    requires forall t :: 0 <= t < |p| ==> p[t] > 0.0
    ensures |r| == if p == [] then 0 else |p| - 1
    ensures forall t :: 0 <= t < |r| ==> p[t + 1] == p[t] * (1.0 + r[t])
  {
    seq(if p == [] then 0 else |p| - 1, t requires 0 <= t < |p| - 1 => (p[t + 1] - p[t]) / p[t])
  }

  /** From a to b, the change relative to b is the change r relative to a
      divided by 1 + r. */
  lemma ReturnDamped(a: real, b: real)
    requires a > 0.0 && b > 0.0
    ensures 1.0 + (b - a) / a > 0.0
    ensures (b - a) / b == ((b - a) / a) / (1.0 + (b - a) / a)
  {
    var r := (b - a) / a;
    assert r * a == b - a;
    assert (1.0 + r) * a == b;
    assert 1.0 + r > 0.0;
    var q := r / (1.0 + r);
    assert q * (1.0 + r) == r;
    assert q * b == b - a by {
      calc {
        q * b;
        q * ((1.0 + r) * a);
        (q * (1.0 + r)) * a;
        r * a;
      }
    }
    var d := (b - a) / b;
    assert d * b == b - a;
    assert (q - d) * b == 0.0;
  }

  /** The return as written is the intended return r damped to r / (1 + r):
      the two agree only where the price does not move. */
  lemma PctChangeAsWrittenDamps(p: seq<real>)
    requires forall t :: 0 <= t < |p| ==> p[t] > 0.0
    ensures |PctChangeAsWritten(p)| == |PctChange(p)|
    ensures forall t :: 0 <= t < |PctChange(p)| ==>
      1.0 + PctChange(p)[t] > 0.0 && PctChangeAsWritten(p)[t] == PctChange(p)[t] / (1.0 + PctChange(p)[t])
  {
    forall t | 0 <= t < |PctChange(p)|
      ensures 1.0 + PctChange(p)[t] > 0.0 && PctChangeAsWritten(p)[t] == PctChange(p)[t] / (1.0 + PctChange(p)[t])
    {
      ReturnDamped(p[t], p[t + 1]);
    }
  }

  /** Prices 1 then 2 double: the intended return is 100%, the return as
      written is 50%, and compounding the written return does not give the
      second price back. */
  lemma PctChangeCounterexample()
    ensures PctChange([1.0, 2.0]) == [1.0]
    ensures PctChangeAsWritten([1.0, 2.0]) == [0.5]
    ensures 1.0 * (1.0 + PctChangeAsWritten([1.0, 2.0])[0]) != 2.0
  {
    assert PctChange([1.0, 2.0])[0] == 1.0;
    assert PctChangeAsWritten([1.0, 2.0])[0] * 2.0 == 1.0;
  }

  /** How one column of an imported price table is converted. */
  function ConvertColumn(key: string, c: Column, logReturn: bool, ln: real -> real): (r: Result<Column, Failure>)
    requires !logReturn && key != "date" && c.ValueColumn? ==> forall t :: 0 <= t < |c.values| ==> c.values[t] > 0.0
    ensures r.Err? <==> key != "date" && c.DateColumn?
    ensures r.Err? ==> r.error == Builtin("TypeError")
    ensures r.Ok? ==> ColumnLength(r.value) == if ColumnLength(c) == 0 then 0 else ColumnLength(c) - 1
    ensures r.Ok? && key == "date" ==> r.value.DateColumn? == c.DateColumn?
    ensures r.Ok? && key == "date" ==> forall t :: 0 <= t < ColumnLength(r.value) ==> CellAt(r.value, t) == CellAt(c, t + 1)
  {
    if key == "date" then
      match c
      case DateColumn(days) => Ok(DateColumn(Drop(days, 1)))
      case ValueColumn(values) => Ok(ValueColumn(Drop(values, 1)))
    else
      match c
      case DateColumn(_) => Err(Builtin("TypeError"))
      case ValueColumn(p) => Ok(ValueColumn(if logReturn then LogReturns(p, ln) else PctChange(p)))
  }

  /** The table `import_returns` stores, or the error it raises. */
  function Converted(data: Table, isPrice: bool, logReturn: bool, ln: real -> real): (r: Result<Table, Failure>)
    requires isPrice && !logReturn ==> PositivePrices(data)
    ensures r.Ok? ==> r.value.Keys == data.Keys
  {
    if !isPrice then Ok(data)
    else if exists key :: key in data && key != "date" && data[key].DateColumn? then Err(Builtin("TypeError"))
    else Ok(map key | key in data :: ConvertColumn(key, data[key], logReturn, ln).value)
  }

  /** Converting prices keeps the columns aligned: when every column holds
      the same number n of rows, each converted column holds n - 1, and the
      t-th return is dated by the later of its two prices. */
  lemma ConvertedColumnsAligned(data: Table, logReturn: bool, ln: real -> real, n: nat)
    requires !logReturn ==> PositivePrices(data)
    requires n >= 1
    requires forall key :: key in data ==> ColumnLength(data[key]) == n
    requires Converted(data, true, logReturn, ln).Ok?
    ensures forall key :: key in data ==> ColumnLength(Converted(data, true, logReturn, ln).value[key]) == n - 1
    ensures "date" in data ==> forall t :: 0 <= t < n - 1 ==>
      CellAt(Converted(data, true, logReturn, ln).value["date"], t) == CellAt(data["date"], t + 1)
  {
  }
}
