/*
 * Assembly of the optional filters of the follow-up list queries: the query
 * text grows clause by clause, and named parameters are bound afterwards.
 * A clause is kept as data (the column it tests and the placeholders it
 * names); what it selects is given by Holds. A query can run only when the
 * bound names are exactly the placeholders its text contains: binding a name
 * the text lacks, or leaving a placeholder unbound, makes Hibernate throw.
 */
module QueryFilters {
  import opened Common
  import opened Calendar
  import opened ChildFollowupRules
  import opened MotherFollowupRules

  /** The named parameters the list queries use. */
  datatype Param = StartDateParam | EndDateParam | StatusParam | OutcomeParam

  function ParamName(p: Param): string {
    match p
    case StartDateParam => "startDate"
    case EndDateParam => "endDate"
    case StatusParam => "status"
    case OutcomeParam => "pregnancyOutcome"
  }

  /** The columns the optional clauses test. */
  datatype Column =
    | ChildStatus         // pcf.status
    | ChildResultDate     // pcf.followup_result_date
    | MotherStartDate     // pmf.start_date
    | MotherEndDate       // pmf.end_date
    | MotherStatusColumn  // pmf.Status
    | MotherOutcome       // pmf.pregnancy_outcome
    | DerivedStatus       // status, the computed column

  function ColumnName(c: Column): string {
    match c
    case ChildStatus => "pcf.status"
    case ChildResultDate => "pcf.followup_result_date"
    case MotherStartDate => "pmf.start_date"
    case MotherEndDate => "pmf.end_date"
    case MotherStatusColumn => "pmf.Status"
    case MotherOutcome => "pmf.pregnancy_outcome"
    case DerivedStatus => "status"
  }

  /** A non-NULL column or parameter value. */
  datatype Value = DateValue(day: Day) | TextValue(text: string) | IntValue(n: int)

  /** The non-NULL columns of a result row; a missing column is NULL. */
  type Row = map<Column, Value>

  /** Bound parameters; None binds NULL. */
  type Params = map<Param, Option<Value>>

  datatype Clause =
    | Equals(column: Column, param: Param)               // AND column = :param
    | Between(column: Column, low: Param, high: Param)   // AND column BETWEEN :low AND :high
    | HavingEquals(column: Column, param: Param)         // HAVING column = :param

  /**
   * A query: the optional clauses appended to its fixed text, the
   * placeholders that the fixed text itself contains, and the bindings.
   */
  datatype Query = Query(clauses: seq<Clause>, fixedPlaceholders: set<Param>, params: Params)

  function ClausePlaceholders(c: Clause): set<Param> {
    match c
    case Equals(_, p) => {p}
    case Between(_, lo, hi) => {lo, hi}
    case HavingEquals(_, p) => {p}
  }

  /** The placeholders named by a sequence of clauses. */
  function ClausesPlaceholders(cs: seq<Clause>): set<Param> {
    if |cs| == 0 then {} else ClausePlaceholders(cs[0]) + ClausesPlaceholders(cs[1..])
  }

  function Placeholders(q: Query): set<Param> {
    q.fixedPlaceholders + ClausesPlaceholders(q.clauses)
  }

  /** Every placeholder is bound and nothing else is. */
  predicate Bound(q: Query) {
    q.params.Keys == Placeholders(q)
  }

  /** A comparison with NULL, on either side, selects nothing. */
  predicate Holds(c: Clause, row: Row, params: Params) {
    match c
    case Equals(col, p) =>
      col in row && p in params && params[p] == Some(row[col])
    case Between(col, lo, hi) =>
      col in row && lo in params && hi in params && row[col].DateValue? &&
      params[lo].Some? && params[lo].value.DateValue? &&
      params[hi].Some? && params[hi].value.DateValue? &&
      params[lo].value.day <= row[col].day <= params[hi].value.day
    case HavingEquals(col, p) =>
      col in row && p in params && params[p] == Some(row[col])
  }

  /** Every clause holds of the row. */
  predicate AllHold(cs: seq<Clause>, row: Row, params: Params) {
    |cs| == 0 || (Holds(cs[0], row, params) && AllHold(cs[1..], row, params))
  }

  /** The rows the optional clauses let through. */
  predicate Selects(q: Query, row: Row) {
    AllHold(q.clauses, row, q.params)
  }

  /** A clause appended only when `given`. */
  function Opt(given: bool, c: Clause): seq<Clause> {
    if given then [c] else []
  }

  /** Clauses appended one after another name the placeholders of each. */
  lemma {:induction false} PlaceholdersConcat(a: seq<Clause>, b: seq<Clause>)
    ensures ClausesPlaceholders(a + b) == ClausesPlaceholders(a) + ClausesPlaceholders(b)
  {
    if |a| > 0 {
      assert (a + b)[1..] == a[1..] + b;
      PlaceholdersConcat(a[1..], b);
    } else {
      assert a + b == b;
    }
  }

  /** Clauses appended one after another select the rows that pass each. */
  lemma {:induction false} AllHoldConcat(a: seq<Clause>, b: seq<Clause>, row: Row, params: Params)
    ensures AllHold(a + b, row, params) <==> AllHold(a, row, params) && AllHold(b, row, params)
  {
    if |a| > 0 {
      assert (a + b)[1..] == a[1..] + b;
      AllHoldConcat(a[1..], b, row, params);
    } else {
      assert a + b == b;
    }
  }

  /** A clause appended only when `given` constrains the rows only then. */
  lemma AllHoldOpt(given: bool, c: Clause, row: Row, params: Params)
    ensures AllHold(Opt(given, c), row, params) <==> (given ==> Holds(c, row, params))
  {
    if given {
      assert Opt(given, c)[1..] == [];
    }
  }

  predicate HasValue(row: Row, col: Column, v: Value) {
    col in row && row[col] == v
  }

  predicate InRange(row: Row, col: Column, low: Day, high: Day) {
    col in row && row[col].DateValue? && low <= row[col].day <= high
  }

  // ---------------------------------------------------------------- child list

  /**
   * The child follow-up list's filter: the status always; for closed
   * follow-ups, the result date within the given range, or equal to the one
   * date given.
   */
  predicate ChildListFilter(status: string, startDate: Option<Day>, endDate: Option<Day>, row: Row) {
    HasValue(row, ChildStatus, TextValue(status)) &&
    (status == "Off" ==>
      if startDate.Some? && endDate.Some? then InRange(row, ChildResultDate, startDate.value, endDate.value)
      else if startDate.Some? then HasValue(row, ChildResultDate, DateValue(startDate.value))
      else if endDate.Some? then HasValue(row, ChildResultDate, DateValue(endDate.value))
      else true)
  }

  /**
   * getChildFollowupList: the status test is fixed; a date test is appended
   * only for "Off". A null status fails (None) at the test for "Off".
   */
  method ChildFollowupListQuery(status: Option<string>, startDate: Option<Day>, endDate: Option<Day>)
    returns (r: Option<Query>)
    ensures r.None? <==> status.None?
    ensures r.Some? ==> Bound(r.value)
    ensures r.Some? ==> forall row :: Selects(r.value, row) <==> ChildListFilter(status.value, startDate, endDate, row)
    ensures r.Some? ==>
      |r.value.clauses| == if status.value == "Off" && (startDate.Some? || endDate.Some?) then 2 else 1
  {
    if status.None? {
      return None;
    }
    var status := status.value;
    var clauses := [Equals(ChildStatus, StatusParam)];
    if status == "Off" {
      if startDate.Some? && endDate.Some? {
        clauses := clauses + [Between(ChildResultDate, StartDateParam, EndDateParam)];
      } else if startDate.Some? {
        clauses := clauses + [Equals(ChildResultDate, StartDateParam)];
      } else if endDate.Some? {
        clauses := clauses + [Equals(ChildResultDate, EndDateParam)];
      }
    }
    var params: Params := map[StatusParam := Some(TextValue(status))];
    if status == "Off" {
      if startDate.Some? && endDate.Some? {
        params := params[StartDateParam := Some(DateValue(startDate.value))][EndDateParam := Some(DateValue(endDate.value))];
      } else if startDate.Some? {
        params := params[StartDateParam := Some(DateValue(startDate.value))];
      } else if endDate.Some? {
        params := params[EndDateParam := Some(DateValue(endDate.value))];
      }
    }
    var q := Query(clauses, {}, params);
    assert clauses == [clauses[0]] + clauses[1..];
    PlaceholdersConcat([clauses[0]], clauses[1..]);
    forall row | true
      ensures Selects(q, row) <==> ChildListFilter(status, startDate, endDate, row)
    {
      AllHoldConcat([clauses[0]], clauses[1..], row, params);
    }
    r := Some(q);
  }

  /** The filtered columns of a child follow-up row. */
  function ChildFollowupRow(f: ChildFollowup): Row {
    var status := map[ChildStatus := TextValue(FollowupStatus(f))];
    if f.followupResultDate.Some?
    then status[ChildResultDate := DateValue(f.followupResultDate.value)]
    else status
  }

  /** Asking for "On" lists the open follow-ups, whatever dates are given. */
  lemma ChildListOn(f: ChildFollowup, startDate: Option<Day>, endDate: Option<Day>)
    ensures ChildListFilter("On", startDate, endDate, ChildFollowupRow(f)) <==> f.followupResult.None?
  {
  }

  /** Asking for "Off" between two dates lists the follow-ups closed with a result dated in that range. */
  lemma ChildListOffBetween(f: ChildFollowup, startDate: Day, endDate: Day)
    ensures ChildListFilter("Off", Some(startDate), Some(endDate), ChildFollowupRow(f)) <==>
      f.followupResult.Some? && f.followupResultDate.Some? &&
      startDate <= f.followupResultDate.value <= endDate
  {
  }

  // ------------------------------------------------- mother currently-on list

  const StartDateIs: Clause := Equals(MotherStartDate, StartDateParam)
  const StatusIs: Clause := Equals(MotherStatusColumn, StatusParam)
  const EndDateIs: Clause := Equals(MotherEndDate, EndDateParam)
  const OutcomeIs: Clause := Equals(MotherOutcome, OutcomeParam)

  function TextParam(s: Option<string>): Option<Value> {
    if s.Some? then Some(TextValue(s.value)) else None
  }

  function IntParam(n: Option<int>): Option<Value> {
    if n.Some? then Some(IntValue(n.value)) else None
  }

  function DateParam(d: Option<Day>): Option<Value> {
    if d.Some? then Some(DateValue(d.value)) else None
  }

  /** A binding made only when `given`. */
  function BindIf(params: Params, given: bool, p: Param, v: Option<Value>): Params {
    if given then params[p := v] else params
  }

  /** Each filter that is given must match its column exactly. */
  predicate MotherCurrentlyOnFilter(startDate: Option<Day>, status: Option<string>, pregnancyOutcome: Option<int>,
                                    endDate: Option<Day>, row: Row) {
    (startDate.Some? ==> HasValue(row, MotherStartDate, DateValue(startDate.value))) &&
    (status.Some? ==> HasValue(row, MotherStatusColumn, TextValue(status.value))) &&
    (endDate.Some? ==> HasValue(row, MotherEndDate, DateValue(endDate.value))) &&
    (pregnancyOutcome.Some? ==> HasValue(row, MotherOutcome, IntValue(pregnancyOutcome.value)))
  }

  /** The clauses getMotherFollowupCurrentlyOnList appends, in its order. */
  function CurrentlyOnClauses(startDate: Option<Day>, status: Option<string>, pregnancyOutcome: Option<int>,
                              endDate: Option<Day>): seq<Clause> {
    Opt(startDate.Some?, StartDateIs) + Opt(status.Some?, StatusIs) +
    Opt(endDate.Some?, EndDateIs) + Opt(pregnancyOutcome.Some?, OutcomeIs)
  }

  /** The bindings getMotherFollowupCurrentlyOnList makes, in its order. */
  function CurrentlyOnParams(startDate: Option<Day>, status: Option<string>, pregnancyOutcome: Option<int>,
                             endDate: Option<Day>): Params {
    var p := BindIf(map[], startDate.Some?, StartDateParam, DateParam(startDate));
    var p := BindIf(p, endDate.Some?, EndDateParam, DateParam(endDate));
    var p := BindIf(p, status.Some?, StatusParam, TextParam(status));
    BindIf(p, pregnancyOutcome.Some?, OutcomeParam, IntParam(pregnancyOutcome))
  }

  lemma CurrentlyOnBound(startDate: Option<Day>, status: Option<string>, pregnancyOutcome: Option<int>,
                         endDate: Option<Day>)
    ensures Bound(Query(CurrentlyOnClauses(startDate, status, pregnancyOutcome, endDate), {},
                        CurrentlyOnParams(startDate, status, pregnancyOutcome, endDate)))
  {
    var a, b, c, d := Opt(startDate.Some?, StartDateIs), Opt(status.Some?, StatusIs),
                      Opt(endDate.Some?, EndDateIs), Opt(pregnancyOutcome.Some?, OutcomeIs);
    PlaceholdersConcat(a, b);
    PlaceholdersConcat(a + b, c);
    PlaceholdersConcat(a + b + c, d);
  }

  lemma CurrentlyOnSelects(startDate: Option<Day>, status: Option<string>, pregnancyOutcome: Option<int>,
                           endDate: Option<Day>, row: Row)
    ensures AllHold(CurrentlyOnClauses(startDate, status, pregnancyOutcome, endDate), row,
                    CurrentlyOnParams(startDate, status, pregnancyOutcome, endDate)) <==>
      MotherCurrentlyOnFilter(startDate, status, pregnancyOutcome, endDate, row)
  {
    var params := CurrentlyOnParams(startDate, status, pregnancyOutcome, endDate);
    var a, b, c, d := Opt(startDate.Some?, StartDateIs), Opt(status.Some?, StatusIs),
                      Opt(endDate.Some?, EndDateIs), Opt(pregnancyOutcome.Some?, OutcomeIs);
    AllHoldConcat(a, b, row, params);
    AllHoldConcat(a + b, c, row, params);
    AllHoldConcat(a + b + c, d, row, params);
    AllHoldOpt(startDate.Some?, StartDateIs, row, params);
    AllHoldOpt(status.Some?, StatusIs, row, params);
    AllHoldOpt(endDate.Some?, EndDateIs, row, params);
    AllHoldOpt(pregnancyOutcome.Some?, OutcomeIs, row, params);
  }

  /** getMotherFollowupCurrentlyOnList: one equality clause and one binding per filter given. */
  method MotherCurrentlyOnQuery(startDate: Option<Day>, status: Option<string>, pregnancyOutcome: Option<int>,
                                endDate: Option<Day>) returns (q: Query)
    ensures Bound(q)
    ensures forall row :: Selects(q, row) <==> MotherCurrentlyOnFilter(startDate, status, pregnancyOutcome, endDate, row)
  {
    var clauses: seq<Clause> := [];
    if startDate.Some? {
      clauses := clauses + [StartDateIs];
    }
    assert clauses == Opt(startDate.Some?, StartDateIs);
    if status.Some? {
      clauses := clauses + [StatusIs];
    }
    assert clauses == Opt(startDate.Some?, StartDateIs) + Opt(status.Some?, StatusIs);
    if endDate.Some? {
      clauses := clauses + [EndDateIs];
    }
    assert clauses == Opt(startDate.Some?, StartDateIs) + Opt(status.Some?, StatusIs) + Opt(endDate.Some?, EndDateIs);
    if pregnancyOutcome.Some? {
      clauses := clauses + [OutcomeIs];
    }
    assert clauses == CurrentlyOnClauses(startDate, status, pregnancyOutcome, endDate);
    var params: Params := map[];
    if startDate.Some? {
      params := params[StartDateParam := Some(DateValue(startDate.value))];
    }
    ghost var p1 := BindIf(map[], startDate.Some?, StartDateParam, DateParam(startDate));
    assert params == p1;
    if endDate.Some? {
      params := params[EndDateParam := Some(DateValue(endDate.value))];
    }
    ghost var p2 := BindIf(p1, endDate.Some?, EndDateParam, DateParam(endDate));
    assert params == p2;
    if status.Some? {
      params := params[StatusParam := Some(TextValue(status.value))];
    }
    ghost var p3 := BindIf(p2, status.Some?, StatusParam, TextParam(status));
    assert params == p3;
    if pregnancyOutcome.Some? {
      params := params[OutcomeParam := Some(IntValue(pregnancyOutcome.value))];
    }
    assert params == CurrentlyOnParams(startDate, status, pregnancyOutcome, endDate);
    q := Query(clauses, {}, params);
    CurrentlyOnBound(startDate, status, pregnancyOutcome, endDate);
    forall row | true
      ensures Selects(q, row) <==> MotherCurrentlyOnFilter(startDate, status, pregnancyOutcome, endDate, row)
    {
      CurrentlyOnSelects(startDate, status, pregnancyOutcome, endDate, row);
    }
  }

  // ------------------------------------------------------- mother follow-up list

  /** The date column a range applies to: the start date when asked for, the end date otherwise. */
  function RangeColumn(startOrEnd: string): Column {
    if startOrEnd == "startDate" then MotherStartDate else MotherEndDate
  }

  /** The range clause of getMotherFollowupList on the chosen column. */
  function RangeIs(startOrEnd: string): Clause {
    Between(RangeColumn(startOrEnd), StartDateParam, EndDateParam)
  }

  const StatusHaving: Clause := HavingEquals(DerivedStatus, StatusParam)

  /**
   * The mother follow-up list's filters: the recorded outcome, a date range
   * on the chosen column (nothing passes when either bound is missing), and
   * the derived status.
   */
  predicate MotherListFilter(startDate: Option<Day>, endDate: Option<Day>, status: Option<string>,
                             pregnancyOutcome: Option<int>, startOrEnd: Option<string>, row: Row) {
    (pregnancyOutcome.Some? ==> HasValue(row, MotherOutcome, IntValue(pregnancyOutcome.value))) &&
    (startOrEnd.Some? ==>
       startDate.Some? && endDate.Some? && InRange(row, RangeColumn(startOrEnd.value), startDate.value, endDate.value)) &&
    (status.Some? ==> HasValue(row, DerivedStatus, TextValue(status.value)))
  }

  /** The clauses getMotherFollowupList appends, in its order. */
  function MotherListClauses(status: Option<string>, pregnancyOutcome: Option<int>, startOrEnd: Option<string>): seq<Clause> {
    Opt(pregnancyOutcome.Some?, OutcomeIs) + Opt(startOrEnd.Some?, RangeIs(startOrEnd.GetOr(""))) +
    Opt(status.Some?, StatusHaving)
  }

  /** The death join compares with :endDate when an end date is given, and with NOW() otherwise. */
  function MotherListFixed(endDate: Option<Day>): set<Param> {
    if endDate.Some? then {EndDateParam} else {}
  }

  /** The placeholders of getMotherFollowupList's text. */
  lemma MotherListPlaceholders(endDate: Option<Day>, status: Option<string>, pregnancyOutcome: Option<int>,
                               startOrEnd: Option<string>, params: Params)
    ensures Placeholders(Query(MotherListClauses(status, pregnancyOutcome, startOrEnd), MotherListFixed(endDate), params)) ==
      MotherListKeys(endDate, status, pregnancyOutcome, startOrEnd)
  {
    var a, b, c := Opt(pregnancyOutcome.Some?, OutcomeIs), Opt(startOrEnd.Some?, RangeIs(startOrEnd.GetOr(""))),
                   Opt(status.Some?, StatusHaving);
    PlaceholdersConcat(a, b);
    PlaceholdersConcat(a + b, c);
  }

  /** The rows getMotherFollowupList's clauses select, once every parameter they use is bound as given. */
  lemma MotherListSelects(startDate: Option<Day>, endDate: Option<Day>, status: Option<string>,
                          pregnancyOutcome: Option<int>, startOrEnd: Option<string>, params: Params, row: Row)
    requires status.Some? ==> StatusParam in params && params[StatusParam] == TextParam(status)
    requires pregnancyOutcome.Some? ==> OutcomeParam in params && params[OutcomeParam] == IntParam(pregnancyOutcome)
    requires startOrEnd.Some? ==>
      StartDateParam in params && params[StartDateParam] == DateParam(startDate) &&
      EndDateParam in params && params[EndDateParam] == DateParam(endDate)
    ensures AllHold(MotherListClauses(status, pregnancyOutcome, startOrEnd), row, params) <==>
      MotherListFilter(startDate, endDate, status, pregnancyOutcome, startOrEnd, row)
  {
    var a, b, c := Opt(pregnancyOutcome.Some?, OutcomeIs), Opt(startOrEnd.Some?, RangeIs(startOrEnd.GetOr(""))),
                   Opt(status.Some?, StatusHaving);
    AllHoldConcat(a, b, row, params);
    AllHoldConcat(a + b, c, row, params);
    AllHoldOpt(pregnancyOutcome.Some?, OutcomeIs, row, params);
    AllHoldOpt(startOrEnd.Some?, RangeIs(startOrEnd.GetOr("")), row, params);
    AllHoldOpt(status.Some?, StatusHaving, row, params);
  }

  /** Appends getMotherFollowupList's clauses in its order. */
  method AppendMotherListClauses(status: Option<string>, pregnancyOutcome: Option<int>, startOrEnd: Option<string>)
    returns (clauses: seq<Clause>)
    ensures clauses == MotherListClauses(status, pregnancyOutcome, startOrEnd)
  {
    clauses := [];
    if pregnancyOutcome.Some? {
      clauses := clauses + [OutcomeIs];
    }
    if startOrEnd.Some? {
      if startOrEnd.value == "startDate" {
        clauses := clauses + [Between(MotherStartDate, StartDateParam, EndDateParam)];
      } else {
        clauses := clauses + [Between(MotherEndDate, StartDateParam, EndDateParam)];
      }
    }
    if status.Some? {
      clauses := clauses + [StatusHaving];
    }
  }

  /** The placeholders of getMotherFollowupList's text: the death join's end date and one per filter given. */
  function MotherListKeys(endDate: Option<Day>, status: Option<string>, pregnancyOutcome: Option<int>,
                          startOrEnd: Option<string>): set<Param> {
    MotherListFixed(endDate) + (if pregnancyOutcome.Some? then {OutcomeParam} else {}) +
    (if startOrEnd.Some? then {StartDateParam, EndDateParam} else {}) + (if status.Some? then {StatusParam} else {})
  }

  /**
   * Binds getMotherFollowupList's parameters in its order; `startDateAlone`
   * says whether a given start date is bound even without a range.
   */
  method BindMotherListParams(startDateAlone: bool, startDate: Option<Day>, endDate: Option<Day>,
                              status: Option<string>, pregnancyOutcome: Option<int>, startOrEnd: Option<string>)
    returns (params: Params)
    ensures params.Keys == MotherListKeys(endDate, status, pregnancyOutcome, startOrEnd) +
      (if startDateAlone && startDate.Some? then {StartDateParam} else {})
    ensures StatusParam in params ==> params[StatusParam] == TextParam(status)
    ensures OutcomeParam in params ==> params[OutcomeParam] == IntParam(pregnancyOutcome)
    ensures StartDateParam in params ==> params[StartDateParam] == DateParam(startDate)
    ensures EndDateParam in params ==> params[EndDateParam] == DateParam(endDate)
  {
    params := map[];
    if startDateAlone && startDate.Some? {
      params := params[StartDateParam := DateParam(startDate)];
    }
    if endDate.Some? {
      params := params[EndDateParam := DateParam(endDate)];
    }
    if status.Some? {
      params := params[StatusParam := Some(TextValue(status.value))];
    }
    if pregnancyOutcome.Some? {
      params := params[OutcomeParam := Some(IntValue(pregnancyOutcome.value))];
    }
    if startOrEnd.Some? {
      params := params[StartDateParam := DateParam(startDate)][EndDateParam := DateParam(endDate)];
    }
  }

  /**
   * getMotherFollowupList as written: a start date is bound whenever it is
   * given, although its placeholder only exists when a range is asked for.
   */
  method MotherListQueryAsWritten(startDate: Option<Day>, endDate: Option<Day>, status: Option<string>,
                                  pregnancyOutcome: Option<int>, startOrEnd: Option<string>) returns (q: Query)
    ensures Bound(q) <==> startDate.None? || startOrEnd.Some?
    ensures forall row :: Selects(q, row) <==> MotherListFilter(startDate, endDate, status, pregnancyOutcome, startOrEnd, row)
  {
    var clauses := AppendMotherListClauses(status, pregnancyOutcome, startOrEnd);
    var params := BindMotherListParams(true, startDate, endDate, status, pregnancyOutcome, startOrEnd);
    q := Query(clauses, MotherListFixed(endDate), params);
    MotherListPlaceholders(endDate, status, pregnancyOutcome, startOrEnd, params);
    if startDate.Some? && startOrEnd.None? {
      assert StartDateParam in q.params.Keys && StartDateParam !in Placeholders(q);
    }
    forall row | true
      ensures Selects(q, row) <==> MotherListFilter(startDate, endDate, status, pregnancyOutcome, startOrEnd, row)
    {
      MotherListSelects(startDate, endDate, status, pregnancyOutcome, startOrEnd, params, row);
    }
  }

  /** getMotherFollowupList with the start date bound only together with the range that uses it. */
  method MotherListQuery(startDate: Option<Day>, endDate: Option<Day>, status: Option<string>,
                         pregnancyOutcome: Option<int>, startOrEnd: Option<string>) returns (q: Query)
    ensures Bound(q)
    ensures forall row :: Selects(q, row) <==> MotherListFilter(startDate, endDate, status, pregnancyOutcome, startOrEnd, row)
  {
    var clauses := AppendMotherListClauses(status, pregnancyOutcome, startOrEnd);
    var params := BindMotherListParams(false, startDate, endDate, status, pregnancyOutcome, startOrEnd);
    q := Query(clauses, MotherListFixed(endDate), params);
    MotherListPlaceholders(endDate, status, pregnancyOutcome, startOrEnd, params);
    forall row | true
      ensures Selects(q, row) <==> MotherListFilter(startDate, endDate, status, pregnancyOutcome, startOrEnd, row)
    {
      MotherListSelects(startDate, endDate, status, pregnancyOutcome, startOrEnd, params, row);
    }
  }

  /** The filtered columns of a mother follow-up list row. */
  function MotherRow(r: MotherListRow): Row {
    var cols := map[DerivedStatus := TextValue(r.status)];
    var cols := if r.recordedOutcome.Some? then cols[MotherOutcome := IntValue(r.recordedOutcome.value)] else cols;
    var cols := if r.startDate.Some? then cols[MotherStartDate := DateValue(r.startDate.value)] else cols;
    if r.endDate.Some? then cols[MotherEndDate := DateValue(r.endDate.value)] else cols
  }

  /** Asking for status 'On' lists only follow-ups that report no outcome. */
  lemma MotherListOnHasNoOutcome(rec: MotherRecord, endDate: Option<Day>, now: Moment, startDate: Option<Day>,
                                 pregnancyOutcome: Option<int>, startOrEnd: Option<string>)
    requires MotherListRowOf(rec, endDate, now).Some?
    requires MotherListFilter(startDate, endDate, Some("On"), pregnancyOutcome, startOrEnd,
                              MotherRow(MotherListRowOf(rec, endDate, now).value))
    ensures MotherListRowOf(rec, endDate, now).value.pregnancyOutcome.None?
  {
    var r := MotherListRowOf(rec, endDate, now).value;
    assert MotherRow(r)[DerivedStatus] == TextValue(r.status);
  }

  /**
   * The outcome filter tests the recorded outcome, not the reported one: a
   * follow-up reported as deceased (6) because of a death observation is not
   * listed when outcome 6 is asked for.
   */
  lemma OutcomeFilterIgnoresDerivedOutcome(rec: MotherRecord, endDate: Option<Day>, now: Moment)
    requires MotherListRowOf(rec, endDate, now).Some?
    requires rec.pregnancyOutcome.None?
    ensures !MotherListFilter(None, endDate, None, Some(DeceasedOutcome), None,
                              MotherRow(MotherListRowOf(rec, endDate, now).value))
  {
    var r := MotherListRowOf(rec, endDate, now).value;
    assert MotherOutcome !in MotherRow(r);
  }
}
