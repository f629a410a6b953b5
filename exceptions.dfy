/** The four event-study exceptions (eventstudy/exception.py). Each carries a
    short `helper` text, which the batch runner records, and a full `msg`,
    which `str()` of the exception returns; the constructors choose the texts
    by the truthiness of their arguments. A Python built-in exception that the
    core lets escape (IndexError, ValueError, KeyError, TypeError) is named by
    its class only. */
module Exceptions {
  import opened Python

  datatype CustomKind = ParameterMissing | ColumnMissing | DateMissing | DataMissing

  datatype Failure =
    | Custom(kind: CustomKind, helper: string, msg: string)
    | Builtin(name: string)

  /** A numpy date at day resolution: its day number (days since
      1970-01-01) and the text `str()` prints for it. */
  datatype Date = Date(day: int, text: string)

  /** `e.__class__.__name__` */
  function ClassName(f: Failure): string
  {
    match f
    case Builtin(name) => name
    case Custom(ParameterMissing, _, _) => "ParameterMissingError"
    case Custom(ColumnMissing, _, _) => "ColumnMissingError"
    case Custom(DateMissing, _, _) => "DateMissingError"
    case Custom(DataMissing, _, _) => "DataMissingError"
  }

  /** Python truthiness of an optional string, int or date argument: None,
      the empty string, 0 and the epoch date are false. */
  predicate Truthy(o: Option<string>) { o.Some? && o.value != "" }
  predicate IntTruthy(o: Option<int>) { o.Some? && o.value != 0 }
  predicate DateTruthy(o: Option<Date>) { o.Some? && o.value.day != 0 }

  /** `str(x)` of an optional string: None prints as "None". */
  function Str(o: Option<string>): string
  {
    if o.None? then "None" else o.value
  }

  function IntStr(o: Option<int>): string
  {
    if o.None? then "None" else IntText(o.value)
  }

  function DateStr(o: Option<Date>): string
  {
    if o.None? then "None" else o.value.text
  }

  predicate EndsWith(s: string, suffix: string)
  {
    |suffix| <= |s| && s[|s| - |suffix|..] == suffix
  }

  lemma EndsWithAppended(a: string, b: string)
    ensures EndsWith(a + b, b)
  {
    assert (a + b)[|a + b| - |b|..] == b;
  }

  const ReturnsTip := "\nTips: Import returns first using: "
    + "EventStudy.Single.import_returns() or EventStudy.Single.import_returns_from_API()"
  const FamaFrenchTip := "\nTips: Import Fama-French factors first using: "
    + "EventStudy.Single.import_FamaFrench() or EventStudy.Single.import_FamaFrench_from_API()"
  const ReimportReturnsTip := "\nTips: Re-import returns with this ticker using: "
    + "EventStudy.Single.import_returns() or EventStudy.Single.import_returns_from_API()"
  const ReimportFamaFrenchTip := "\nTips: Re-import Fama-French factors using: "
    + "EventStudy.Single.import_FamaFrench() or EventStudy.Single.import_FamaFrench_from_API()"
  const CheckTip := "\nTips: Check if parameters are up-to-date and contain all needed value."

  /** ParameterMissingError(param_name): fixed texts for the "returns" and
      "FamaFrench" stores, otherwise a one-line message that names the
      parameter when one is given and is its own helper. */
  function ParameterMissingError(paramName: Option<string>): (e: Failure)
    ensures e.Custom? && e.kind == ParameterMissing
    ensures e.helper <= e.msg
    ensures paramName == Some("returns") ==> e.helper == "Returns are missing." && e.msg == e.helper + ReturnsTip
    ensures paramName == Some("FamaFrench") ==> e.helper == "Fama-French factors are missing." && e.msg == e.helper + FamaFrenchTip
    ensures paramName != Some("returns") && paramName != Some("FamaFrench") ==>
      e.helper == e.msg &&
      (Truthy(paramName) <==> e.msg != "One parameter is missing.") &&
      (Truthy(paramName) ==> EndsWith(e.msg, ": " + paramName.value + "."))
  {
    if paramName == Some("returns") then
      Custom(ParameterMissing, "Returns are missing.", "Returns are missing." + ReturnsTip)
    else if paramName == Some("FamaFrench") then
      Custom(ParameterMissing, "Fama-French factors are missing.", "Fama-French factors are missing." + FamaFrenchTip)
    else
      var msg := if Truthy(paramName) then "One parameter is missing: " + Str(paramName) + "." else "One parameter is missing.";
      Custom(ParameterMissing, msg, msg)
  }

  /** ColumnMissingError(param_name, column): the column is named for the
      "returns" and "FamaFrench" stores; otherwise the parameter is named
      when given, and without one the text is that of a missing parameter. */
  function ColumnMissingError(paramName: Option<string>, column: Option<string>): (e: Failure)
    ensures e.Custom? && e.kind == ColumnMissing
    ensures e.helper <= e.msg
    ensures paramName == Some("returns") ==>
      e.helper == Str(column) + " ticker is not available in returns parameter." && e.msg == e.helper + ReimportReturnsTip
    ensures paramName == Some("FamaFrench") ==>
      e.helper == Str(column) + " factor is not available in Fama-French factors parameter." && e.msg == e.helper + ReimportFamaFrenchTip
    ensures paramName != Some("returns") && paramName != Some("FamaFrench") ==>
      e.helper == e.msg &&
      (!Truthy(paramName) <==> e.msg == "One parameter is missing.")
  {
    if paramName == Some("returns") then
      var helper := Str(column) + " ticker is not available in returns parameter.";
      Custom(ColumnMissing, helper, helper + ReimportReturnsTip)
    else if paramName == Some("FamaFrench") then
      var helper := Str(column) + " factor is not available in Fama-French factors parameter.";
      Custom(ColumnMissing, helper, helper + ReimportFamaFrenchTip)
    else
      var msg := if Truthy(paramName) then "One column is missing in parameter: " + Str(paramName) + "." else "One parameter is missing.";
      Custom(ColumnMissing, msg, msg)
  }

  /** The four DateMissingError helpers share their shape: the date when
      one is given ("Date (<date>)", else "A date"), then " is missing in",
      then the parameter when one is given (" parameter: <name>.", else
      " parameters."). */
  function DateMissingHelper(date: Option<Date>, paramName: Option<string>): string
  {
    DateSubject(date) + " is missing in" + DatePlace(paramName)
  }

  function DateSubject(date: Option<Date>): string
  {
    if DateTruthy(date) then "Date (" + DateStr(date) + ")" else "A date"
  }

  function DatePlace(paramName: Option<string>): string
  {
    if Truthy(paramName) then " parameter: " + Str(paramName) + "." else " parameters."
  }

  /** DateMissingError(date, param_name): one of four helpers, chosen by
      whether a date and a parameter name are given; the message adds a tip. */
  function DateMissingError(date: Option<Date>, paramName: Option<string>): (e: Failure)
    ensures e.Custom? && e.kind == DateMissing
    ensures e.msg == e.helper + CheckTip
    ensures DateTruthy(date) <==> "Date (" <= e.helper
    ensures !DateTruthy(date) <==> "A date is missing in parameter" <= e.helper
    ensures Truthy(paramName) ==> EndsWith(e.helper, " parameter: " + paramName.value + ".")
    ensures !Truthy(paramName) ==> EndsWith(e.helper, " parameters.")
  {
    var helper := DateMissingHelper(date, paramName);
    DateMissingOpening(date, paramName);
    DateMissingEnding(date, paramName);
    Custom(DateMissing, helper, helper + CheckTip)
  }

  lemma DateMissingOpening(date: Option<Date>, paramName: Option<string>)
    ensures DateTruthy(date) <==> "Date (" <= DateMissingHelper(date, paramName)
    ensures !DateTruthy(date) <==> "A date is missing in parameter" <= DateMissingHelper(date, paramName)
  {
    if DateTruthy(date) {
      DatedOpening(date, paramName);
    } else {
      UndatedOpening(date, paramName);
    }
  }

  lemma DatedOpening(date: Option<Date>, paramName: Option<string>)
    requires DateTruthy(date)
    ensures "Date (" <= DateMissingHelper(date, paramName)
    ensures DateMissingHelper(date, paramName)[0] == 'D'
  {
    var subject := DateSubject(date);
    PrefixAppended("Date (", DateStr(date));
    PrefixExtended("Date (", "Date (" + DateStr(date), ")");
    PrefixExtended("Date (", subject, " is missing in");
    PrefixExtended("Date (", subject + " is missing in", DatePlace(paramName));
  }

  lemma UndatedOpening(date: Option<Date>, paramName: Option<string>)
    requires !DateTruthy(date)
    ensures "A date is missing in parameter" <= DateMissingHelper(date, paramName)
    ensures DateMissingHelper(date, paramName)[0] == 'A'
  {
    var place := DatePlace(paramName);
    if Truthy(paramName) {
      PrefixAppended(" parameter", ": ");
      PrefixExtended(" parameter", " parameter: ", Str(paramName));
      PrefixExtended(" parameter", " parameter: " + Str(paramName), ".");
    } else {
      PrefixAppended(" parameter", "s.");
    }
    assert "A date" + " is missing in" == "A date is missing in";
    PrefixJoined("A date is missing in", " parameter", place);
    assert "A date is missing in" + " parameter" == "A date is missing in parameter";
  }

  lemma PrefixAppended(a: string, b: string)
    ensures a <= a + b
  {
    assert (a + b)[..|a|] == a;
  }

  lemma PrefixExtended(a: string, b: string, c: string)
    requires a <= b
    ensures a <= b + c
  {
    assert (b + c)[..|b|] == b;
  }

  lemma PrefixJoined(a: string, b: string, c: string)
    requires b <= c
    ensures a + b <= a + c
  {
    assert (a + c)[..|a + b|] == a + c[..|b|];
  }

  lemma DateMissingEnding(date: Option<Date>, paramName: Option<string>)
    ensures Truthy(paramName) ==> EndsWith(DateMissingHelper(date, paramName), " parameter: " + paramName.value + ".")
    ensures !Truthy(paramName) ==> EndsWith(DateMissingHelper(date, paramName), " parameters.")
  {
    EndsWithAppended(DateSubject(date) + " is missing in", DatePlace(paramName));
  }

  /** The first line of a DataMissingError helper. */
  function DataMissingHead(paramName: Option<string>, column: Option<string>): string
  {
    if Truthy(paramName) && Truthy(column) then
      "Some data are missing for (" + Str(column) + ") in '" + Str(paramName) + "''."
    else if Truthy(paramName) then
      "Some data are missing in '" + Str(paramName) + "''."
    else if Truthy(column) then
      "Some data are missing for (" + Str(column) + ") in parameters."
    else
      "Some data are missing in parameters."
  }

  /** DataMissingError(param_name, column, actual_size, expected_size): the
      helper names the parameter and column when given, and gains the line
      "<actual> data retrieved over <expected> expected." exactly when both
      sizes are truthy, so an actual size of 0 leaves it out. */
  function DataMissingError(paramName: Option<string>, column: Option<string>,
                            actualSize: Option<int>, expectedSize: Option<int>): (e: Failure)
    ensures e.Custom? && e.kind == DataMissing
    ensures e.msg == e.helper + CheckTip
    ensures DataMissingHead(paramName, column) <= e.helper
    ensures IntTruthy(actualSize) && IntTruthy(expectedSize) <==>
      |e.helper| > |DataMissingHead(paramName, column)|
    ensures IntTruthy(actualSize) && IntTruthy(expectedSize) ==>
      EndsWith(e.helper, "\n" + IntStr(actualSize) + " data retrieved over " + IntStr(expectedSize) + " expected.")
  {
    var head := DataMissingHead(paramName, column);
    if IntTruthy(actualSize) && IntTruthy(expectedSize) then
      var line := "\n" + IntStr(actualSize) + " data retrieved over " + IntStr(expectedSize) + " expected.";
      EndsWithAppended(head, line);
      Custom(DataMissing, head + line, head + line + CheckTip)
    else
      Custom(DataMissing, head, head + CheckTip)
  }

  /** An actual size of 0 is falsy, so no size line is written even though
      nothing was retrieved. */
  lemma NoSizeLineForEmptyData(paramName: Option<string>, column: Option<string>, expected: int)
    ensures DataMissingError(paramName, column, Some(0), Some(expected)).helper == DataMissingHead(paramName, column)
  {
  }
}
