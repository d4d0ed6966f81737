/** The plan compiler: every check a plan passes through, and the query it becomes. */
module AnalyticsCompiler {
  import opened Basics
  import opened AnalyticsPlan
  import opened AnalyticsData
  import opened AnalyticsSql

  const INT64_LIMIT := 0x8000_0000_0000_0000

  predicate FitsInt64(n: int) { -INT64_LIMIT <= n < INT64_LIMIT }

  // ---- Checks, in the order in which they are made ---------------------------------------

  predicate SelectsOnce(p: Plan) {
    NoDuplicates(p.dimensions) && NoDuplicates(p.metrics) && (p.dimensions != [] || p.metrics != [])
  }

  predicate FieldsAvailable(p: Plan, s: Snapshot) { forall f | f in p.dimensions :: s.Available(f) }

  predicate MeasuresEntity(p: Plan, s: Snapshot) { forall m | m in p.metrics :: s.Measurable(m) && Measures(m,
          p.entity) }

  /** An average never stands without the counts that qualify it. */
  predicate AveragesExplained(p: Plan) {
    AvgDurationMinutes in p.metrics ==> forall m | m in DURATION :: m in p.metrics
  }

  function CheckSelection(p: Plan, s: Snapshot): Result<()> {
    hide SelectsOnce, FieldsAvailable, MeasuresEntity, AveragesExplained;
    var _ :- Require(|p.dimensions| <= 8 && |p.metrics| <= 6, "Expected bounded list");
    var _ :- Require(SelectsOnce(p), "Select unique dimensions/metrics");
    var _ :- Require(FieldsAvailable(p, s), "Unknown or unavailable dimension");
    var _ :- Require(MeasuresEntity(p, s), "Metric unavailable or incompatible with entity grain");
    Require(AveragesExplained(p),
            "Duration average requires matched_count, valid_duration_count and excluded_duration_count")
  }

  function TimeField(e: Entity): Field { if e == Incidents then ReceivedAt else EventAt }

  predicate BucketsTime(p: Plan) {
    p.timeBucket.Some? ==> p.timeBucket.value.field == TimeField(p.entity) && p.metrics != []
  }

  predicate RanksByRoot(p: Plan) {
    p.latestStatus ==> p.dimensions == [Root] && p.metrics != [] && p.entity == Incidents && p.timeBucket.None?
  }

  predicate KnowsStatus(p: Plan, s: Snapshot) {
    p.latestStatus ==>
      s.Available(Root) && s.Available(QueueStatus) && s.Available(ReceivedAt) && s.Available(IncidentId)
  }

  function CheckWindow(p: Plan, s: Snapshot): Result<()> {
    hide BucketsTime, RanksByRoot, KnowsStatus, LimitOf;
    var _ :- Require(BucketsTime(p),
                     "time_bucket requires the entity time field, day/week/month, a supported timezone and a metric");
    var _ :- Require(RanksByRoot(p), "Latest status requires incident aggregation by root only");
    var _ :- Require(KnowsStatus(p, s), "Latest-status source fields unavailable");
    Require(1 <= LimitOf(p, s) <= s.rowLimit, "Limit exceeds snapshot result budget")
  }

  function LimitOf(p: Plan, s: Snapshot): int { if p.limit.Some? then p.limit.value else s.rowLimit }

  /** The identities every count relies on. */
  function CheckSources(p: Plan, s: Snapshot): Result<()> {
    var _ :- Require(Queue in s.allowed && s.Available(IncidentId), "Incident identity unavailable");
    var _ :- Require(s.Key(Queue) == ["QueueId"],
                     "Strict mode requires a proven unique QueueId primary key for grain/JOIN safety");
    var _ :- Require(s.NeverNull(Queue, "QueueId"),
                     "QueueId must be a non-null identity; nullable SQLite primary keys are unsafe");
    var needsLogs := p.entity == Events || LogCount in p.metrics;
    var _ :- Require(needsLogs ==> s.Key(Logs) == ["Id"], "Strict event counting requires a unique Id primary key");
    var _ :- Require(needsLogs ==> s.NeverNull(Logs, "Id"), "Event Id must be a non-null identity");
    Require(p.entity == Events ==> Logs in s.allowed && s.HasColumn(Logs, "QueueId"),
            "Documented event-to-incident relationship unavailable")
  }

  /** A field the entity may use; event fields would fan out the incidents. */
  function CheckField(e: Entity, s: Snapshot, f: Field): Result<Field> {
    var _ :- Require(s.Available(f), "Unknown or unavailable field");
    var _ :- Require(TableOf(f) == Logs ==> e == Events,
                     "Event dimensions/filters require events entity; do not fan out incident measures");
    Success(f)
  }

  // ---- Filters -----------------------------------------------------------------------------

  function Literal(f: Field, value: Json): Result<Value> {
    if KindOf(f) == Integral then
      if value.Whole? && FitsInt64(value.whole) then Success(Int(value.whole))
      else Failure("Integer filter requires integer value")
    else if value.Word? && |value.text| <= 255 then Success(Text(value.text))
    else Failure("Text/timestamp filter requires bounded string")
  }

  function CompileFilter(e: Entity, s: Snapshot, cal: Calendar, c: Criterion): Result<Test> {
    var f :- CheckField(e, s, c.field);
    match c.op
    case IsNull | NotNull =>
      var _ :- Require(c.value.None?, "NULL predicates do not take values");
      Success(NullTest(f, c.op == NotNull))
    case Comparing(op) =>
      if c.value.None? then Failure("Unsupported filter operator or missing value")
      else
        var literal :- Literal(f, c.value.value);
        var _ :- Require(EnumOf(f).Some? ==> literal.Text? && literal.text in EnumOf(f).value,
                         "Value outside business enum");
        if KindOf(f) != Timestamp then Success(ValueTest(f, op, literal))
        else match cal.utc(literal.text)
          case None => Failure("Timestamp filter must be valid ISO-8601 with timezone")
          case Some(moment) => Success(InstantTest(f, op, moment))
  }

  function CompileFilters(p: Plan, s: Snapshot, cal: Calendar): Result<seq<Test>> {
    var _ :- Require(|p.filters| <= 20, "Expected bounded list");
    Traverse(p.filters, (c: Criterion) => CompileFilter(p.entity, s, cal, c))
  }

  predicate Conflicts(c: Criterion, f: Field, value: string) {
    c.field == f && !(c.op == Comparing(Eq) && c.value == Some(Word(value)))
  }

  function CompileSuccess(p: Plan, s: Snapshot): Result<seq<Test>> {
    if !p.successOnly then Success([])
    else
      var _ :- Require(!exists c | c in p.filters :: Conflicts(c, QueueStatus, "COMPLETED"),
                       "Explicit status/outcome filter conflicts with success_only");
      var status :- CheckField(p.entity, s, QueueStatus);
      var _ :- Require(!exists c | c in p.filters :: Conflicts(c, Outcome, "RECOVERED"),
                       "Explicit status/outcome filter conflicts with success_only");
      var outcome :- CheckField(p.entity, s, Outcome);
      Success([ValueTest(status, Eq, Text("COMPLETED")), ValueTest(outcome, Eq, Text("RECOVERED"))])
  }

  // ---- Metrics -------------------------------------------------------------------------------

  function Tally(f: Field, value: string): Aggregate { Count(Case(ValueTest(f, Eq, Text(value)), One)) }

  const VALID_DURATIONS := Count(Case(NonnegativeDuration, One))

  function AggregateOf(m: Metric, e: Entity): Aggregate {
    match m
    case IncidentCount => CountDistinct(Column(IncidentId))
    case LogCount => if e == Events then Count(Column(EventId)) else SumOrZero(RelatedLogs)
    case ConfirmedFailureCount => Tally(EventType, "HEALTH_FAILED_CONFIRMED")
    case TaskRestartCount => Tally(EventType, "TASK_RESTART")
    case ConnectorRestartCount => Tally(EventType, "CONNECTOR_RESTART")
    case RecoveryCount => Tally(Outcome, "RECOVERED")
    case RecoveryRatePercent =>
      RoundedPercent(Tally(Outcome, "RECOVERED"),
        Count(Case(OneOf(Outcome, ["RECOVERED", "FAILED", "ESCALATED"]), One)))
    case EscalationCount => Tally(Outcome, "ESCALATED")
    case AvgDurationMinutes => RoundedAverage(Case(NonnegativeDuration, Duration))
    case MatchedCount => CountRows
    case ValidDurationCount => VALID_DURATIONS
    case ExcludedDurationCount => Minus(CountRows, VALID_DURATIONS)
  }

  function BucketExprs(p: Plan): seq<Expr> {
    if p.timeBucket.Some? then [LocalBucket(p.timeBucket.value)] else []
  }

  function CheckColumns(p: Plan, s: Snapshot): Result<()> {
    var _ :- Traverse(if p.timeBucket.Some? then [p.timeBucket.value.field] else [],
                      (f: Field) => CheckField(p.entity, s, f));
    var _ :- Traverse(p.dimensions, (f: Field) => CheckField(p.entity, s, f));
    Require(LogCount in p.metrics ==> s.HasColumn(Logs, "QueueId"), "Log-to-incident key unavailable")
  }

  function GroupExprs(p: Plan): seq<Expr> { BucketExprs(p) + Map(p.dimensions, (f: Field) => Column(f)) }

  function Columns(p: Plan): seq<Selected> {
    (if p.timeBucket.Some? then [Scalar(Bucket, LocalBucket(p.timeBucket.value))] else [])
    + Map(p.dimensions, (f: Field) => Scalar(Dimension(f), Column(f)))
    + Map(p.metrics, (m: Metric) => Aggregated(Measure(m), AggregateOf(m, p.entity)))
  }

  // ---- Conditions on groups and order -----------------------------------------------------------

  function CompileHaving(p: Plan, h: Having): Result<HavingTest> {
    var _ :- Require(h.metric in p.metrics, "Having requires selected metric and supported comparison");
    if h.compareTo.Some? then
      var _ :- Require(h.compareTo.value == "population_mean" && h.value.None? && GroupOutputs(p) != [],
                       "Population mean compares grouped metric before having/limit");
      Success(AgainstMean(h.metric, h.op))
    else match h.value
      case Some(Whole(n)) =>
        if FitsInt64(n) then Success(AgainstValue(h.metric, h.op, Int(n)))
        else Failure("Having requires finite numeric value")
      case Some(Decimal(x)) => Success(AgainstValue(h.metric, h.op, Real(x)))
      case _ => Failure("Having requires finite numeric value")
  }

  function CompileHavings(p: Plan): Result<seq<HavingTest>> {
    var _ :- Require(|p.having| <= 8, "Expected bounded list");
    Traverse(p.having, (h: Having) => CompileHaving(p, h))
  }

  /** Timestamps sort by instant, not by the spelling of their offset. */
  function KeyFor(o: Ordering): SortKey {
    SortKey(o.output, o.output.Dimension? && KindOf(o.output.field) == Timestamp, o.descending)
  }

  function CompileOrder(p: Plan, o: Ordering): Result<SortKey> {
    var _ :- Require(o.output in Outputs(p), "Ordering references unselected field or invalid direction");
    Success(KeyFor(o))
  }

  predicate Orders(p: Plan, o: Output) { exists i | 0 <= i < |p.orderBy| :: p.orderBy[i].output == o }

  /** A limited ranking is completed by the group's identity. */
  function TieBreakers(p: Plan): seq<SortKey> {
    if p.orderBy == [] || p.limit.None? || p.metrics == [] then []
    else Map(Filter(GroupOutputs(p), (o: Output) => !Orders(p, o)), (o: Output) => SortKey(o, false, false))
  }

  function CompileOrdering(p: Plan): Result<seq<SortKey>> {
    var _ :- Require(|p.orderBy| <= 12, "Expected bounded list");
    var keys :- Traverse(p.orderBy, (o: Ordering) => CompileOrder(p, o));
    Success(keys + TieBreakers(p))
  }

  function CheckAssumptions(p: Plan): Result<()> {
    var _ :- Require(|p.assumptions| <= 8, "Expected bounded list");
    Require(forall a | a in p.assumptions :: |a| <= 300, "Assumptions must be bounded strings")
  }

  // ---- The compiler -----------------------------------------------------------------------------

  function QueryOf(p: Plan, s: Snapshot, user: seq<Test>, system: seq<Test>, having: seq<HavingTest>,
          ordering: seq<SortKey>): Query {
    var groupBy := if p.metrics == [] then [] else GroupExprs(p);
    Query(Select(p.entity, Where(user, p.either, system), Columns(p), groupBy), having, p.latestStatus, ordering,
          if LimitOf(p, s) < 0 then 0 else LimitOf(p, s))
  }

  function Compile(p: Plan, s: Snapshot, cal: Calendar): Result<Query> {
    hide CheckSelection, CheckWindow, CompileFilters, CompileSuccess, CheckSources, CheckColumns, CompileHavings,
      CompileOrdering, CheckAssumptions, QueryOf;
    var _ :- CheckSelection(p, s);
    var _ :- CheckWindow(p, s);
    var user :- CompileFilters(p, s, cal);
    var system :- CompileSuccess(p, s);
    var _ :- CheckSources(p, s);
    var _ :- CheckColumns(p, s);
    var having :- CompileHavings(p);
    var ordering :- CompileOrdering(p);
    var _ :- CheckAssumptions(p);
    Success(QueryOf(p, s, user, system, having, ordering))
  }
}
