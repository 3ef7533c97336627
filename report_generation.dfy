/*
 * Report generation (getGeneratedReportXmlString): every indicator of every
 * dataset of a report is evaluated with the period and the location bound to
 * the placeholders its SQL script mentions, and the values are gathered into
 * one run per dataset. Running a script is an evaluator given as a
 * parameter, and so is the set of named parameters the query parser finds
 * in a script; the XML serialisation of the result is not modelled.
 */
module ReportGeneration {
  import opened Common
  import opened Calendar
  import opened JavaText

  datatype Location = Location(locationId: int, uuid: string)
  datatype Indicator = Indicator(uuid: string, templateCode: string, sqlScript: string)
  datatype Dataset = Dataset(uuid: string, code: string, indicators: seq<Indicator>)
  datatype Report = Report(datasets: seq<Dataset>)

  /** A value bound to a named parameter; a Java null binds NULL. */
  datatype Arg = DateArg(day: Day) | IdArg(id: int) | NullArg

  type Bindings = map<string, Arg>

  /** The single value a script returns under some bindings, as text (None for a NULL result). */
  type Evaluator = (string, Bindings) -> Option<string>

  /** The names of the named parameters the query parser finds in a script. */
  type PlaceholderParser = string -> set<string>

  /**
   * What a report run depends on besides the report: the period, the id of
   * the location (NULL when its name is unknown), the query parser and the
   * database.
   */
  datatype Context = Context(
    startDate: Option<Day>,
    endDate: Option<Day>,
    locationId: Option<int>,
    placeholders: PlaceholderParser,
    evaluate: Evaluator)

  datatype IndicatorValue = IndicatorValue(indicatorUuid: string, code: string, value: int)
  datatype DatasetRun = DatasetRun(dataSetUuid: string, values: seq<IndicatorValue>)

  datatype ReportValues = ReportValues(
    generationDate: Moment,
    reportStartDate: Option<Day>,
    reportEndDate: Option<Day>,
    locationUuid: Option<string>,
    runs: seq<DatasetRun>)

  /**
   * Why a run stops: there is no report with the id; the parameters bound
   * for a script are not exactly its named parameters (Hibernate rejects a
   * name the script does not declare and a declared name left unbound); a
   * script returned NULL; or it returned text Integer.parseInt rejects.
   */
  datatype ReportError =
    | NoReport
    | ParameterMismatch(code: string)
    | NullValue(code: string)
    | NotAnInteger(code: string, text: string)

  function DateArgOf(d: Option<Day>): Arg {
    if d.Some? then DateArg(d.value) else NullArg
  }

  function IdArgOf(id: Option<int>): Arg {
    if id.Some? then IdArg(id.value) else NullArg
  }

  /** The parameters bound for a script: each one whose placeholder the script contains. */
  function ScriptBindings(script: string, ctx: Context): (b: Bindings)
    ensures b.Keys <= {"startDate", "endDate", "locationId"}
    ensures "startDate" in b <==> Contains(script, ":startDate")
    ensures "endDate" in b <==> Contains(script, ":endDate")
    ensures "locationId" in b <==> Contains(script, ":locationId")
    ensures "startDate" in b ==> b["startDate"] == DateArgOf(ctx.startDate)
    ensures "endDate" in b ==> b["endDate"] == DateArgOf(ctx.endDate)
    ensures "locationId" in b ==> b["locationId"] == IdArgOf(ctx.locationId)
  {
    var b: Bindings := map[];
    var b := if Contains(script, ":startDate") then b["startDate" := DateArgOf(ctx.startDate)] else b;
    var b := if Contains(script, ":endDate") then b["endDate" := DateArgOf(ctx.endDate)] else b;
    if Contains(script, ":locationId") then b["locationId" := IdArgOf(ctx.locationId)] else b
  }

  /** The code of an indicator value: the dataset code, a dot, the indicator's template code. */
  function ValueCode(dataset: Dataset, indicator: Indicator): (code: string)
    ensures |code| == |dataset.code| + 1 + |indicator.templateCode|
    ensures code[..|dataset.code|] == dataset.code && code[|dataset.code|] == '.'
    ensures code[|dataset.code| + 1..] == indicator.templateCode
  {
    dataset.code + "." + indicator.templateCode
  }

  /** The value of one indicator of a dataset. */
  function IndicatorResult(dataset: Dataset, indicator: Indicator, ctx: Context): (r: Result<IndicatorValue, ReportError>)
    ensures r.Success? <==>
      var bindings := ScriptBindings(indicator.sqlScript, ctx);
      var text := ctx.evaluate(indicator.sqlScript, bindings);
      bindings.Keys == ctx.placeholders(indicator.sqlScript) && text.Some? && ParseInt(text.value).Some?
    ensures ScriptBindings(indicator.sqlScript, ctx).Keys != ctx.placeholders(indicator.sqlScript) ==>
      r == Failure(ParameterMismatch(ValueCode(dataset, indicator)))
    ensures r.Success? ==>
      r.value.indicatorUuid == indicator.uuid && r.value.code == ValueCode(dataset, indicator) &&
      Some(r.value.value) == ParseInt(ctx.evaluate(indicator.sqlScript, ScriptBindings(indicator.sqlScript, ctx)).value)
  {
    var bindings := ScriptBindings(indicator.sqlScript, ctx);
    var text := ctx.evaluate(indicator.sqlScript, bindings);
    var code := ValueCode(dataset, indicator);
    if bindings.Keys != ctx.placeholders(indicator.sqlScript) then Failure(ParameterMismatch(code))
    else if text.None? then Failure(NullValue(code))
    else
      match ParseInt(text.value)
      case None => Failure(NotAnInteger(code, text.value))
      case Some(v) => Success(IndicatorValue(indicator.uuid, code, v))
  }

  /** The values of the first indicators of a dataset, in order, or the first failure among them. */
  function IndicatorResults(dataset: Dataset, indicators: seq<Indicator>, ctx: Context): Result<seq<IndicatorValue>, ReportError> {
    if |indicators| == 0 then Success([])
    else
      match IndicatorResults(dataset, indicators[..|indicators| - 1], ctx)
      case Failure(e) => Failure(e)
      case Success(values) =>
        match IndicatorResult(dataset, indicators[|indicators| - 1], ctx)
        case Failure(e) => Failure(e)
        case Success(v) => Success(values + [v])
  }

  /** The runs of the first datasets, in order, or the first failure among them. */
  function DatasetRuns(datasets: seq<Dataset>, ctx: Context): Result<seq<DatasetRun>, ReportError> {
    if |datasets| == 0 then Success([])
    else
      var last := datasets[|datasets| - 1];
      match DatasetRuns(datasets[..|datasets| - 1], ctx)
      case Failure(e) => Failure(e)
      case Success(runs) =>
        match IndicatorResults(last, last.indicators, ctx)
        case Failure(e) => Failure(e)
        case Success(values) => Success(runs + [DatasetRun(last.uuid, values)])
  }

  /** The values of a dataset are those of its indicators, one each, in order, when all of them succeed. */
  lemma {:induction false} IndicatorResultsInOrder(dataset: Dataset, indicators: seq<Indicator>, ctx: Context)
    ensures IndicatorResults(dataset, indicators, ctx).Success? <==>
      forall j :: 0 <= j < |indicators| ==> IndicatorResult(dataset, indicators[j], ctx).Success?
    ensures IndicatorResults(dataset, indicators, ctx).Success? ==>
      var values := IndicatorResults(dataset, indicators, ctx).value;
      |values| == |indicators| &&
      forall j :: 0 <= j < |indicators| ==> IndicatorResult(dataset, indicators[j], ctx) == Success(values[j])
  {
    if |indicators| > 0 {
      var init := indicators[..|indicators| - 1];
      IndicatorResultsInOrder(dataset, init, ctx);
      assert forall j :: 0 <= j < |init| ==> init[j] == indicators[j];
    }
  }

  /** The runs of a report are those of its datasets, one each, in order, when all of them succeed. */
  lemma {:induction false} DatasetRunsInOrder(datasets: seq<Dataset>, ctx: Context)
    ensures DatasetRuns(datasets, ctx).Success? <==>
      forall i :: 0 <= i < |datasets| ==> IndicatorResults(datasets[i], datasets[i].indicators, ctx).Success?
    ensures DatasetRuns(datasets, ctx).Success? ==>
      var runs := DatasetRuns(datasets, ctx).value;
      |runs| == |datasets| &&
      forall i :: 0 <= i < |datasets| ==>
        runs[i] == DatasetRun(datasets[i].uuid, IndicatorResults(datasets[i], datasets[i].indicators, ctx).value)
  {
    if |datasets| > 0 {
      var init := datasets[..|datasets| - 1];
      DatasetRunsInOrder(init, ctx);
      assert forall i :: 0 <= i < |init| ==> init[i] == datasets[i];
    }
  }

  /** Once the values of some first indicators fail, the whole dataset fails the same way. */
  lemma {:induction false} IndicatorFailureStays(dataset: Dataset, indicators: seq<Indicator>, k: nat, ctx: Context)
    requires k <= |indicators|
    requires IndicatorResults(dataset, indicators[..k], ctx).Failure?
    ensures IndicatorResults(dataset, indicators, ctx) == IndicatorResults(dataset, indicators[..k], ctx)
    decreases |indicators| - k
  {
    if k < |indicators| {
      assert indicators[..k + 1][..k] == indicators[..k];
      IndicatorFailureStays(dataset, indicators, k + 1, ctx);
    } else {
      assert indicators[..k] == indicators;
    }
  }

  /** Once the runs of some first datasets fail, the whole report fails the same way. */
  lemma {:induction false} DatasetFailureStays(datasets: seq<Dataset>, k: nat, ctx: Context)
    requires k <= |datasets|
    requires DatasetRuns(datasets[..k], ctx).Failure?
    ensures DatasetRuns(datasets, ctx) == DatasetRuns(datasets[..k], ctx)
    decreases |datasets| - k
  {
    if k < |datasets| {
      assert datasets[..k + 1][..k] == datasets[..k];
      DatasetFailureStays(datasets, k + 1, ctx);
    } else {
      assert datasets[..k] == datasets;
    }
  }

  /** The location context: its id and uuid when the name is known, NULL otherwise. */
  function LocationIdOf(location: Option<Location>): (id: Option<int>)
    ensures id.None? <==> location.None?
  {
    if location.Some? then Some(location.value.locationId) else None
  }

  /**
   * The whole report, as getGeneratedReportXmlString assembles it before
   * serialising; `report` is what getReportById returns (None for null).
   */
  function ReportResult(startDate: Option<Day>, endDate: Option<Day>, report: Option<Report>, location: Option<Location>,
                        now: Moment, placeholders: PlaceholderParser, evaluate: Evaluator): Result<ReportValues, ReportError> {
    var ctx := Context(startDate, endDate, LocationIdOf(location), placeholders, evaluate);
    if report.None? then Failure(NoReport)
    else
    match DatasetRuns(report.value.datasets, ctx)
    case Failure(e) => Failure(e)
    case Success(runs) =>
      Success(ReportValues(now, startDate, endDate, if location.Some? then Some(location.value.uuid) else None, runs))
  }

  /**
   * The inner loop of getGeneratedReportXmlString: one value per indicator
   * of a dataset, in order, stopping at the first indicator whose parameters
   * do not match or whose value is NULL or not an integer (where the Java
   * code throws).
   */
  method DatasetValues(dataset: Dataset, ctx: Context) returns (r: Result<seq<IndicatorValue>, ReportError>)
    ensures r == IndicatorResults(dataset, dataset.indicators, ctx)
  {
    var values: seq<IndicatorValue> := [];
    var j := 0;
    while j < |dataset.indicators|
      invariant 0 <= j <= |dataset.indicators|
      invariant IndicatorResults(dataset, dataset.indicators[..j], ctx) == Success(values)
    {
      var indicator := dataset.indicators[j];
      var bindings := ScriptBindings(indicator.sqlScript, ctx);
      var text := ctx.evaluate(indicator.sqlScript, bindings);
      var code := ValueCode(dataset, indicator);
      assert dataset.indicators[..j + 1][..j] == dataset.indicators[..j];
      if bindings.Keys != ctx.placeholders(indicator.sqlScript) {
        IndicatorFailureStays(dataset, dataset.indicators, j + 1, ctx);
        return Failure(ParameterMismatch(code));
      }
      if text.None? {
        IndicatorFailureStays(dataset, dataset.indicators, j + 1, ctx);
        return Failure(NullValue(code));
      }
      var parsed := ParseInt(text.value);
      if parsed.None? {
        IndicatorFailureStays(dataset, dataset.indicators, j + 1, ctx);
        return Failure(NotAnInteger(code, text.value));
      }
      values := values + [IndicatorValue(indicator.uuid, code, parsed.value)];
      j := j + 1;
    }
    assert dataset.indicators[..j] == dataset.indicators;
    r := Success(values);
  }

  /**
   * getGeneratedReportXmlString up to serialisation: the location, then one
   * run per dataset, in order, stopping at the first failing indicator.
   */
  method GenerateReport(startDate: Option<Day>, endDate: Option<Day>, report: Option<Report>, location: Option<Location>,
                        now: Moment, placeholders: PlaceholderParser, evaluate: Evaluator)
    returns (r: Result<ReportValues, ReportError>)
    ensures r == ReportResult(startDate, endDate, report, location, now, placeholders, evaluate)
  {
    var locationUuid: Option<string> := None;
    var locationId: Option<int> := None;
    if location.Some? {
      locationUuid := Some(location.value.uuid);
      locationId := Some(location.value.locationId);
    }
    var ctx := Context(startDate, endDate, locationId, placeholders, evaluate);
    if report.None? {
      return Failure(NoReport);
    }
    var datasets := report.value.datasets;
    var runs: seq<DatasetRun> := [];
    var i := 0;
    while i < |datasets|
      invariant 0 <= i <= |datasets|
      invariant DatasetRuns(datasets[..i], ctx) == Success(runs)
    {
      var dataset := datasets[i];
      var values := DatasetValues(dataset, ctx);
      assert datasets[..i + 1][..i] == datasets[..i];
      if values.Failure? {
        DatasetFailureStays(datasets, i + 1, ctx);
        return Failure(values.error);
      }
      runs := runs + [DatasetRun(dataset.uuid, values.value)];
      i := i + 1;
    }
    assert datasets[..i] == datasets;
    r := Success(ReportValues(now, startDate, endDate, locationUuid, runs));
  }

  /**
   * A report run fails when there is no report. Otherwise it succeeds
   * exactly when every indicator binds its parameters and yields an integer;
   * it then holds one run per dataset, in report order, each with one value
   * per indicator, in dataset order, coded "<dataset code>.<template code>",
   * and names the location only when its name was known.
   */
  lemma ReportRunsInOrder(startDate: Option<Day>, endDate: Option<Day>, report: Option<Report>, location: Option<Location>,
                          now: Moment, placeholders: PlaceholderParser, evaluate: Evaluator)
    ensures report.None? ==> ReportResult(startDate, endDate, report, location, now, placeholders, evaluate) == Failure(NoReport)
    ensures report.Some? ==>
      var ctx := Context(startDate, endDate, LocationIdOf(location), placeholders, evaluate);
      var datasets := report.value.datasets;
      var r := ReportResult(startDate, endDate, report, location, now, placeholders, evaluate);
      (r.Success? <==>
         forall i, j :: 0 <= i < |datasets| && 0 <= j < |datasets[i].indicators| ==>
           IndicatorResult(datasets[i], datasets[i].indicators[j], ctx).Success?) &&
      (r.Success? ==>
         r.value.generationDate == now &&
         r.value.reportStartDate == startDate && r.value.reportEndDate == endDate &&
         (r.value.locationUuid.Some? <==> location.Some?) &&
         (location.Some? ==> r.value.locationUuid == Some(location.value.uuid)) &&
         |r.value.runs| == |datasets| &&
         forall i :: 0 <= i < |datasets| ==>
           r.value.runs[i].dataSetUuid == datasets[i].uuid &&
           |r.value.runs[i].values| == |datasets[i].indicators| &&
           forall j :: 0 <= j < |datasets[i].indicators| ==>
             var v := r.value.runs[i].values[j];
             v.code == ValueCode(datasets[i], datasets[i].indicators[j]) &&
             v.indicatorUuid == datasets[i].indicators[j].uuid &&
             IndicatorResult(datasets[i], datasets[i].indicators[j], ctx) == Success(v))
  {
    if report.Some? {
    var ctx := Context(startDate, endDate, LocationIdOf(location), placeholders, evaluate);
    var datasets := report.value.datasets;
    DatasetRunsInOrder(datasets, ctx);
    forall i | 0 <= i < |datasets|
      ensures IndicatorResults(datasets[i], datasets[i].indicators, ctx).Success? <==>
        forall j :: 0 <= j < |datasets[i].indicators| ==> IndicatorResult(datasets[i], datasets[i].indicators[j], ctx).Success?
      ensures IndicatorResults(datasets[i], datasets[i].indicators, ctx).Success? ==>
        var values := IndicatorResults(datasets[i], datasets[i].indicators, ctx).value;
        |values| == |datasets[i].indicators| &&
        forall j :: 0 <= j < |datasets[i].indicators| ==>
          IndicatorResult(datasets[i], datasets[i].indicators[j], ctx) == Success(values[j])
    {
      IndicatorResultsInOrder(datasets[i], datasets[i].indicators, ctx);
    }
    }
  }

  /**
   * With an unknown location every script that mentions :locationId gets
   * NULL for it; a script binds only the placeholders it mentions.
   */
  lemma UnknownLocationBindsNull(script: string, startDate: Option<Day>, endDate: Option<Day>,
                                 placeholders: PlaceholderParser, evaluate: Evaluator)
    ensures
      var b := ScriptBindings(script, Context(startDate, endDate, LocationIdOf(None), placeholders, evaluate));
      ("locationId" in b <==> Contains(script, ":locationId")) &&
      ("locationId" in b ==> b["locationId"] == NullArg)
  {
  }

  /** A text that contains a string also contains every prefix of it. */
  lemma {:induction false} ContainsPrefix(s: string, sub: string, longer: string)
    requires |sub| <= |longer| && longer[..|sub|] == sub
    requires Contains(s, longer)
    ensures Contains(s, sub)
  {
    if s[..|longer|] == longer {
      assert s[..|sub|] == longer[..|sub|];
    } else {
      ContainsPrefix(s[1..], sub, longer);
    }
  }

  /**
   * The binding test is a substring test: a script whose named parameter
   * merely starts with "startDate" (":startDateFrom", say) also gets
   * "startDate" bound, which Hibernate rejects, so the indicator fails.
   */
  lemma LongerNameIsMismatch(dataset: Dataset, indicator: Indicator, ctx: Context, suffix: string)
    requires Contains(indicator.sqlScript, ":startDate" + suffix)
    requires "startDate" !in ctx.placeholders(indicator.sqlScript)
    ensures IndicatorResult(dataset, indicator, ctx) == Failure(ParameterMismatch(ValueCode(dataset, indicator)))
  {
    ContainsPrefix(indicator.sqlScript, ":startDate", ":startDate" + suffix);
  }
}
