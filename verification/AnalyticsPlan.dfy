/** The closed vocabulary of the analytics plans: fields, metrics, plans as a model
    answers them, and the snapshot a plan is compiled against. */
module AnalyticsPlan {
  import opened Basics

  // ---- Catalog -----------------------------------------------------------------

  datatype Table = Queue | Logs

  datatype Kind = Textual | Integral | Timestamp

  datatype Field =
    | Root | CurrentConnector | IncidentId | QueueStatus | Outcome | Mode
    | ReceivedAt | StartedAt | CompletedAt
    | EventId | EventConnector | EventType | Severity | Attempt | HealingStep | EventAt

  function TableOf(f: Field): Table {
    if f in {EventId, EventConnector, EventType, Severity, Attempt, HealingStep, EventAt} then Logs else Queue
  }

  function KindOf(f: Field): Kind {
    match f
    case ReceivedAt | StartedAt | CompletedAt | EventAt => Timestamp
    case Attempt | HealingStep => Integral
    case _ => Textual
  }

  function ColumnName(f: Field): string {
    match f
    case Root => "RootConnectorName"
    case CurrentConnector => "CurrentConnectorName"
    case IncidentId => "QueueId"
    case QueueStatus => "QueueStatus"
    case Outcome => "FinalOutcome"
    case Mode => "HealingMode"
    case ReceivedAt => "ReceivedAt"
    case StartedAt => "StartedAt"
    case CompletedAt => "CompletedAt"
    case EventId => "Id"
    case EventConnector => "ConnectorName"
    case EventType => "EventType"
    case Severity => "Severity"
    case Attempt => "AttemptNo"
    case HealingStep => "HealingStep"
    case EventAt => "CreatedAt"
  }

  /** The business values a filter on the field may name, when they are closed. */
  function EnumOf(f: Field): Option<set<string>> {
    match f
    case QueueStatus => Some({"PENDING", "PROCESSING", "WAITING", "COMPLETED", "ESCALATED"})
    case Outcome => Some({"RECOVERED", "FAILED", "ESCALATED"})
    case Mode => Some({"RESTART_ONLY", "RECOVERY"})
    case _ => None
  }

  datatype Entity = Incidents | Events

  datatype Metric =
    | IncidentCount | LogCount
    | ConfirmedFailureCount | TaskRestartCount | ConnectorRestartCount
    | RecoveryCount | RecoveryRatePercent | EscalationCount
    | AvgDurationMinutes | MatchedCount | ValidDurationCount | ExcludedDurationCount

  predicate Measures(m: Metric, e: Entity) {
    match m
    case IncidentCount | LogCount => true
    case ConfirmedFailureCount | TaskRestartCount | ConnectorRestartCount => e == Events
    case _ => e == Incidents
  }

  function Required(m: Metric): set<Field> {
    match m
    case IncidentCount | MatchedCount => {IncidentId}
    case LogCount => {EventId}
    case ConfirmedFailureCount | TaskRestartCount | ConnectorRestartCount => {EventId, EventType}
    case RecoveryCount | RecoveryRatePercent | EscalationCount => {IncidentId, Outcome}
    case AvgDurationMinutes | ValidDurationCount | ExcludedDurationCount => {ReceivedAt, CompletedAt}
  }

  const DURATION: set<Metric> := {AvgDurationMinutes, MatchedCount, ValidDurationCount, ExcludedDurationCount}

  // ---- Plans ---------------------------------------------------------------------

  /** The literals of a plan; `Odd` stands for booleans, lists, objects and null. */
  datatype Json = Word(text: string) | Whole(whole: int) | Decimal(decimal: real) | Odd

  datatype Operator = Eq | Ne | Gt | Gte | Lt | Lte

  datatype FilterOperator = IsNull | NotNull | Comparing(op: Operator)

  datatype Criterion = Criterion(field: Field, op: FilterOperator, value: Option<Json>)

  datatype Having = Having(metric: Metric, op: Operator, value: Option<Json>, compareTo: Option<string>)

  datatype Unit = Day | Week | Month

  datatype Zone = Utc | HoChiMinh

  datatype TimeBucket = TimeBucket(field: Field, unit: Unit, zone: Zone)

  datatype Output = Bucket | Dimension(field: Field) | Measure(metric: Metric) | LatestStatus | Other(name: string)

  datatype Ordering = Ordering(output: Output, descending: bool)

  datatype Plan = Plan(
    entity: Entity,
    dimensions: seq<Field>,
    metrics: seq<Metric>,
    filters: seq<Criterion>,
    either: bool,
    successOnly: bool,
    having: seq<Having>,
    orderBy: seq<Ordering>,
    limit: Option<int>,
    latestStatus: bool,
    timeBucket: Option<TimeBucket>,
    assumptions: seq<string>
  )

  function Dimensions(fields: seq<Field>): seq<Output> { seq(|fields|,
          i requires 0 <= i < |fields| => Dimension(fields[i])) }

  function MeasuresOf(metrics: seq<Metric>): seq<Output> { seq(|metrics|,
          i requires 0 <= i < |metrics| => Measure(metrics[i])) }

  /** What identifies a group: the time bucket, then the dimensions. */
  function GroupOutputs(p: Plan): seq<Output> {
    (if p.timeBucket.Some? then [Bucket] else []) + Dimensions(p.dimensions)
  }

  /** The result columns, in order. */
  function Outputs(p: Plan): seq<Output> {
    GroupOutputs(p) + MeasuresOf(p.metrics) + (if p.latestStatus then [LatestStatus] else [])
  }

  /** The measures of several plans, in order. */
  function AllMetrics(queries: seq<Plan>): seq<Metric> {
    if queries == [] then [] else AllMetrics(queries[..|queries| - 1]) + queries[|queries| - 1].metrics
  }

  // ---- Snapshots -----------------------------------------------------------------

  datatype ColumnInfo = ColumnInfo(name: string, integer: bool, nullable: bool, primaryKeyPosition: nat)

  datatype Snapshot = Snapshot(rowLimit: int, allowed: set<Table>, schema: map<Table, seq<ColumnInfo>>) {
    function Columns(t: Table): seq<ColumnInfo> { if t in schema then schema[t] else [] }

    predicate HasColumn(t: Table, name: string) { exists c | c in Columns(t) :: c.name == name }

    predicate Available(f: Field) { HasColumn(TableOf(f), ColumnName(f)) }

    predicate Measurable(m: Metric) { forall f | f in Required(m) :: Available(f) }

    /** The names of the primary key columns. */
    function Key(t: Table): seq<string> {
      Map(Filter(Columns(t), (c: ColumnInfo) => c.primaryKeyPosition != 0), (c: ColumnInfo) => c.name)
    }

    /** SQLite stores NULL in an ordinary primary key unless NOT NULL is declared; an
        INTEGER primary key is the row number. */
    predicate NeverNull(t: Table, name: string) {
      forall c | c in Columns(t) && c.name == name :: !c.nullable || c.integer
    }

    /** The budget of result rows is clamped on construction. */
    predicate Valid() { 1 <= rowLimit <= 1000 }
  }
}
