/** The check that runs after execution: result shape, distinct groups, metric domains
    and duration arithmetic. */
module AnalyticsValidator {
  import opened Basics
  import opened AnalyticsPlan
  import opened AnalyticsData
  import opened AnalyticsSql

  datatype Request = Single(plan: Plan) | Independent(queries: seq<Plan>)

  /** A row as a dictionary: its names in order, and its cells. */
  datatype ResultRow = ResultRow(names: seq<Output>, cells: Row)

  /** An execution result; `None` stands for malformed columns and rows. */
  datatype Executed = Executed(columns: seq<Option<Output>>, rows: seq<Option<ResultRow>>, returned: int,
    truncated: bool)

  function DimensionsOf(r: Request): seq<Output> { if r.Single? then GroupOutputs(r.plan) else [] }

  function MetricsOf(r: Request): seq<Metric> {
    if r.Single? then r.plan.metrics else AllMetrics(r.queries)
  }

  function Expected(r: Request): seq<Output> {
    if r.Single? then Outputs(r.plan) else MeasuresOf(MetricsOf(r))
  }

  function RowBudget(r: Request): int { if r.Single? && r.plan.limit.Some? then r.plan.limit.value else 1000 }

  /** Counts; the rate and the average have their own domains. */
  predicate Counts(m: Metric) { m != RecoveryRatePercent && m != AvgDurationMinutes }

  /** Dictionary keys compare numbers by value. */
  function Canonical(v: Value): Value {
    if v.Real? && v.exact == v.exact.Floor as real then Int(v.exact.Floor) else v
  }

  function GroupKey(dimensions: seq<Output>, row: Row): seq<Value> {
    Map(dimensions, (o: Output) => Canonical(At(row, o)))
  }

  // ---- What the check promises ---------------------------------------------------------------------

  predicate CountSound(row: Row, m: Metric) {
    At(row, Measure(m)).Int? && At(row, Measure(m)).whole >= 0
  }

  predicate RateSound(row: Row) {
    var rate := At(row, Measure(RecoveryRatePercent));
    rate == Null || (Numeric(rate) && 0.0 <= Number(rate) <= 100.0)
  }

  predicate DurationSound(row: Row) {
    var average, matched := At(row, Measure(AvgDurationMinutes)), At(row, Measure(MatchedCount));
    var valid, excluded := At(row, Measure(ValidDurationCount)), At(row, Measure(ExcludedDurationCount));
    && matched.Int? && valid.Int? && excluded.Int?
    && matched.whole == valid.whole + excluded.whole
    && (average == Null <==> valid.whole == 0)
    && (average != Null ==> Numeric(average) && Number(average) >= 0.0)
  }

  predicate MeasuresSound(metrics: seq<Metric>, row: Row) {
    && (forall i | 0 <= i < |metrics| :: Counts(metrics[i]) ==> CountSound(row, metrics[i]))
    && (RecoveryRatePercent in metrics ==> RateSound(row))
    && (AvgDurationMinutes in metrics ==> DurationSound(row))
  }

  predicate RowSound(r: Request, names: seq<Output>, row: Option<ResultRow>) {
    row.Some? && row.value.names == names && MeasuresSound(MetricsOf(r), row.value.cells)
  }

  predicate ShapeSound(r: Request, x: Executed) {
    && (forall i | 0 <= i < |x.columns| :: x.columns[i].Some?)
    && NoDuplicates(x.columns)
    && x.returned == |x.rows|
    && !x.truncated
    && x.columns == Map(Expected(r), (o: Output) => Some(o))
  }

  /** No two of the first rows are the same group, when there are group columns. */
  predicate GroupsSound(r: Request, rows: seq<Option<ResultRow>>) {
    DimensionsOf(r) != [] ==>
      forall i, j | 0 <= i < j < |rows| && rows[i].Some? && rows[j].Some? ::
        GroupKey(DimensionsOf(r), rows[i].value.cells) != GroupKey(DimensionsOf(r), rows[j].value.cells)
  }

  predicate Sound(r: Request, x: Executed) {
    && ShapeSound(r, x)
    && (forall i | 0 <= i < |x.rows| :: RowSound(r, Expected(r), x.rows[i]))
    && GroupsSound(r, x.rows)
    && |x.rows| <= RowBudget(r)
  }

  // ---- The check itself ----------------------------------------------------------------------------------

  method CheckShape(r: Request, x: Executed) returns (report: Result<()>)
    ensures report.Success? <==> ShapeSound(r, x)
  {
    if exists i | 0 <= i < |x.columns| :: x.columns[i].None? {
      return Failure("Executed result has malformed column metadata");
    }
    if !NoDuplicates(x.columns) { return Failure("Executed result contains duplicate output aliases"); }
    if x.returned != |x.rows| { return Failure("Returned-row metadata contradicts the result rows"); }
    if x.truncated { return Failure("Strict compiled result exceeded its declared row limit"); }
    if x.columns != Map(Expected(r), (o: Output) => Some(o)) {
      return Failure("Executed result columns do not match the compiled semantic plan");
    }
    return Success(());
  }

  method CheckCounts(metrics: seq<Metric>, row: Row) returns (report: Result<()>)
    ensures report.Success? <==> forall i | 0 <= i < |metrics| :: Counts(metrics[i]) ==> CountSound(row, metrics[i])
  {
    for i := 0 to |metrics|
      invariant forall k | 0 <= k < i :: Counts(metrics[k]) ==> CountSound(row, metrics[k])
    {
      var value := At(row, Measure(metrics[i]));
      if Counts(metrics[i]) && (!value.Int? || value.whole < 0) { return Failure("must be a nonnegative integer"); }
    }
    return Success(());
  }

  method CheckDuration(row: Row) returns (report: Result<()>)
    ensures report.Success? <==> DurationSound(row)
  {
    var average, matched := At(row, Measure(AvgDurationMinutes)), At(row, Measure(MatchedCount));
    var valid, excluded := At(row, Measure(ValidDurationCount)), At(row, Measure(ExcludedDurationCount));
    if !matched.Int? || !valid.Int? || !excluded.Int? { return Failure("Duration counts are missing"); }
    if matched.whole != valid.whole + excluded.whole {
      return Failure("Duration counts must satisfy matched = valid + excluded");
    }
    if average == Null && valid.whole != 0 { return Failure("Duration average is NULL despite valid duration rows"); }
    if average != Null && (!Numeric(average) || Number(average) < 0.0 || valid.whole == 0) {
      return Failure("Duration average contradicts valid-duration evidence");
    }
    return Success(());
  }

  method CheckMeasures(metrics: seq<Metric>, row: Row) returns (report: Result<()>)
    ensures report.Success? <==> MeasuresSound(metrics, row)
  {
    report := CheckCounts(metrics, row);
    if report.Failure? { return; }
    if RecoveryRatePercent in metrics && !RateSound(row) {
      return Failure("recovery_rate_percent must be NULL or between 0 and 100");
    }
    if AvgDurationMinutes in metrics { report := CheckDuration(row); }
  }

  /** The groups of rows, one after the other. */
  ghost predicate Lists(r: Request, rows: seq<Option<ResultRow>>, groups: seq<seq<Value>>) {
    |groups| == |rows| && forall i | 0 <= i < |rows| ::
      rows[i].Some? && groups[i] == GroupKey(DimensionsOf(r), rows[i].value.cells)
  }

  lemma DistinctKeys(r: Request, rows: seq<Option<ResultRow>>, groups: seq<seq<Value>>)
    requires Lists(r, rows, groups) && (DimensionsOf(r) != [] ==> NoDuplicates(groups))
    ensures GroupsSound(r, rows)
  {
    hide GroupKey, DimensionsOf;
    forall i, j | 0 <= i < j < |rows| && DimensionsOf(r) != []
      ensures GroupKey(DimensionsOf(r), rows[i].value.cells) != GroupKey(DimensionsOf(r), rows[j].value.cells)
    {
      assert groups[i] != groups[j];
    }
  }

  lemma RepeatedKey(r: Request, rows: seq<Option<ResultRow>>, groups: seq<seq<Value>>, n: nat)
    requires n < |rows| && rows[n].Some? && Lists(r, rows[..n], groups) && DimensionsOf(r) != []
    requires GroupKey(DimensionsOf(r), rows[n].value.cells) in groups
    ensures !GroupsSound(r, rows)
  {
    hide GroupKey, DimensionsOf;
    var i :| 0 <= i < n && groups[i] == GroupKey(DimensionsOf(r), rows[n].value.cells);
    assert rows[..n][i] == rows[i];
  }

  method ValidateResult(r: Request, x: Executed) returns (report: Result<()>)
    ensures report.Success? <==> Sound(r, x)
  {
    hide ShapeSound, MeasuresSound, GroupKey, DimensionsOf, MetricsOf, Expected, GroupsSound, RowBudget, Lists;
    report := CheckShape(r, x);
    if report.Failure? { return; }
    var dimensions, names := DimensionsOf(r), Expected(r);
    var seenGroups: set<seq<Value>> := {};
    ghost var groups: seq<seq<Value>> := [];
    assert Lists(r, x.rows[..0], groups) by { NoKeys(r); }
    for n := 0 to |x.rows|
      invariant forall i | 0 <= i < n :: RowSound(r, names, x.rows[i])
      invariant Lists(r, x.rows[..n], groups) && (dimensions != [] ==> NoDuplicates(groups))
      invariant forall g :: g in seenGroups <==> g in groups
    {
      var row := x.rows[n];
      if row.None? || row.value.names != names {
        return Failure("Executed result row shape contradicts column metadata");
      }
      var group := GroupKey(dimensions, row.value.cells);
      if dimensions != [] && group in seenGroups {
        RepeatedKey(r, x.rows, groups, n);
        return Failure("Grouped result contains duplicate dimension grain");
      }
      seenGroups := seenGroups + {group};
      MoreKeys(r, x.rows, groups, n);
      groups := groups + [group];
      report := CheckMeasures(MetricsOf(r), row.value.cells);
      if report.Failure? { return; }
    }
    assert x.rows[..|x.rows|] == x.rows;
    DistinctKeys(r, x.rows, groups);
    if |x.rows| > RowBudget(r) { return Failure("Executed result exceeds the semantic plan limit"); }
    return Success(());
  }

  lemma NoKeys(r: Request)
    ensures Lists(r, [], [])
  {
  }

  lemma MoreKeys(r: Request, rows: seq<Option<ResultRow>>, groups: seq<seq<Value>>, n: nat)
    requires n < |rows| && rows[n].Some? && Lists(r, rows[..n], groups)
    ensures Lists(r, rows[..n + 1], groups + [GroupKey(DimensionsOf(r), rows[n].value.cells)])
  {
    hide GroupKey, DimensionsOf;
    assert forall i | 0 <= i < n :: rows[..n + 1][i] == rows[..n][i];
  }
}
