/** What a plan asks for, in the terms of the catalog: populations of incidents or
    events, groups of them, and numbers about each group. Nothing here mentions joins,
    aggregates or three-valued logic. */
module AnalyticsMeaning {
  import opened Basics
  import opened AnalyticsPlan
  import opened AnalyticsData
  import opened AnalyticsSql

  // ---- Populations -----------------------------------------------------------------------

  /** The incident an event belongs to; an orphan belongs to none. */
  ghost function ParentOf(db: Database, l: Log): Option<Incident> {
    if exists q :: q in db.incidents && l.incident == Some(q.id) then
      var q :| q in db.incidents && l.incident == Some(q.id);
      Some(q)
    else None
  }

  /** Every incident once, or every event once with its incident. */
  ghost function Subjects(db: Database, e: Entity): seq<Joined> {
    match e
    case Incidents => Map(db.incidents, (q: Incident) => Joined(None, Some(q)))
    case Events => Map(db.logs, (l: Log) => Joined(Some(l), ParentOf(db, l)))
  }

  predicate Relates(op: Operator, smaller: bool, larger: bool) {
    match op
    case Eq => !smaller && !larger
    case Ne => smaller || larger
    case Gt => larger
    case Gte => !smaller
    case Lt => smaller
    case Lte => !larger
  }

  /** A criterion on a missing or unreadable value is never met by a comparison. */
  predicate Meets(cal: Calendar, row: Joined, c: Criterion) {
    var v := ValueOf(row, c.field);
    match c.op
    case IsNull => v == Null
    case NotNull => v != Null
    case Comparing(op) =>
      match KindOf(c.field)
      case Integral =>
        v.Int? && (match c.value case Some(Whole(n)) => Relates(op, v.whole < n, n < v.whole) case _ => false)
      case Textual =>
        && v.Text?
        && (match c.value
            case Some(Word(t)) => Relates(op, StringLess(v.text, t), StringLess(t, v.text))
            case _ => false)
      case Timestamp =>
        v.Text? && (match c.value case Some(Word(t)) => MeetsInstant(cal, op, v.text, t) case _ => false)
  }

  predicate MeetsInstant(cal: Calendar, op: Operator, text: string, literal: string) {
    && cal.utc(literal).Some?
    && cal.instant(text).Some?
    && cal.instant(cal.utc(literal).value).Some?
    && var x, y := cal.instant(text).value, cal.instant(cal.utc(literal).value).value;
       Relates(op, x < y, y < x)
  }

  /** Explicit filters all hold, or any of them; success stays mandatory. */
  predicate InScope(cal: Calendar, p: Plan, row: Joined) {
    && (p.filters == []
        || (if p.either then exists c | c in p.filters :: Meets(cal, row, c)
            else forall c | c in p.filters :: Meets(cal, row, c)))
    && (p.successOnly ==> row.incident.Some? && row.incident.value.status == Some("COMPLETED")
                          && row.incident.value.outcome == Some("RECOVERED"))
  }

  ghost function Population(cal: Calendar, db: Database, p: Plan): seq<Joined> {
    Filter(Subjects(db, p.entity), (r: Joined) => InScope(cal, p, r))
  }

  // ---- Groups ---------------------------------------------------------------------------

  function GroupValue(cal: Calendar, p: Plan, row: Joined, o: Output): Value {
    match o
    case Bucket =>
      if p.timeBucket.Some? then BucketOf(cal, ValueOf(row, p.timeBucket.value.field), p.timeBucket.value) else Null
    case Dimension(f) => ValueOf(row, f)
    case _ => Null
  }

  predicate SameGroup(cal: Calendar, p: Plan, a: Joined, b: Joined) {
    forall o | o in GroupOutputs(p) :: GroupValue(cal, p, a, o) == GroupValue(cal, p, b, o)
  }

  ghost function GroupOf(cal: Calendar, db: Database, p: Plan, sample: Joined): seq<Joined> {
    Filter(Population(cal, db, p), (r: Joined) => SameGroup(cal, p, r, sample))
  }

  // ---- Measures -------------------------------------------------------------------------

  function IncidentsOf(members: seq<Joined>): set<Incident> {
    set r | r in members && r.incident.Some? :: r.incident.value
  }

  /** Receipt to completion in minutes, when both are readable and in that order. */
  function Minutes(cal: Calendar, row: Joined): Option<real> {
    match row.incident
    case None => None
    case Some(q) =>
      if q.received.None? || q.completed.None? then None
      else match (cal.instant(q.received.value), cal.instant(q.completed.value))
        case (Some(x), Some(y)) => if (y - x) * 1440.0 >= 0.0 then Some((y - x) * 1440.0) else None
        case _ => None
  }

  function Timed(cal: Calendar, members: seq<Joined>): seq<Joined> {
    Filter(members, (r: Joined) => Minutes(cal, r).Some?)
  }

  function MinutesOr0(cal: Calendar, row: Joined): real {
    match Minutes(cal, row) case Some(x) => x case None => 0.0
  }

  function EventsOf(members: seq<Joined>, eventType: string): seq<Joined> {
    Filter(members, (r: Joined) => r.log.Some? && r.log.value.eventType == Some(eventType))
  }

  function Ended(members: seq<Joined>, outcomes: set<string>): seq<Joined> {
    Filter(members, (r: Joined) => r.incident.Some? && r.incident.value.outcome.Some?
      && r.incident.value.outcome.value in outcomes)
  }

  /** The logs that belong to any of the incidents. */
  function LogsOf(db: Database, members: seq<Joined>): seq<Log> {
    Filter(db.logs, (l: Log) => exists r | r in members :: r.incident.Some? && l.incident == Some(r.incident.value.id))
  }

  const TERMINAL: set<string> := {"RECOVERED", "FAILED", "ESCALATED"}

  function MetricOf(cal: Calendar, db: Database, e: Entity, m: Metric, members: seq<Joined>): Value {
    match m
    case IncidentCount => Int(|IncidentsOf(members)|)
    case LogCount => Int(if e == Events then |members| else |LogsOf(db, members)|)
    case ConfirmedFailureCount => Int(|EventsOf(members, "HEALTH_FAILED_CONFIRMED")|)
    case TaskRestartCount => Int(|EventsOf(members, "TASK_RESTART")|)
    case ConnectorRestartCount => Int(|EventsOf(members, "CONNECTOR_RESTART")|)
    case RecoveryCount => Int(|Ended(members, {"RECOVERED"})|)
    case RecoveryRatePercent =>
      if Ended(members, TERMINAL) == [] then Null
      else Real(Round2(100.0 * |Ended(members, {"RECOVERED"})| as real / |Ended(members, TERMINAL)| as real))
    case EscalationCount => Int(|Ended(members, {"ESCALATED"})|)
    case AvgDurationMinutes =>
      var timed := Timed(cal, members);
      if timed == [] then Null
      else Real(Round2(Total(Map(timed, (r: Joined) => MinutesOr0(cal, r))) / |timed| as real))
    case MatchedCount => Int(|members|)
    case ValidDurationCount => Int(|Timed(cal, members)|)
    case ExcludedDurationCount => Int(|Filter(members, (r: Joined) => Minutes(cal, r).None?)|)
  }

  // ---- Rows -------------------------------------------------------------------------------

  /** The row shows the values the members share and the measures over all of them. */
  ghost predicate Shows(cal: Calendar, db: Database, p: Plan, row: Row, sample: Joined, members: seq<Joined>) {
    && (forall o :: o in row <==> o in GroupOutputs(p) || (o.Measure? && o.metric in p.metrics))
    && (forall o | o in GroupOutputs(p) :: row[o] == GroupValue(cal, p, sample, o))
    && (forall m | m in p.metrics :: row[Measure(m)] == MetricOf(cal, db, p.entity, m, members))
  }

  ghost predicate ShowsGroup(cal: Calendar, db: Database, p: Plan, row: Row, sample: Joined) {
    Shows(cal, db, p, row, sample, GroupOf(cal, db, p, sample))
  }

  /** One row for each member of the population. */
  ghost predicate ListsMembers(cal: Calendar, db: Database, p: Plan, rows: seq<Row>, members: seq<Joined>) {
    |rows| == |members| && forall i | 0 <= i < |rows| :: Shows(cal, db, p, rows[i], members[i], [members[i]])
  }

  predicate Apart(p: Plan, a: Row, b: Row) { exists o | o in GroupOutputs(p) :: At(a, o) != At(b, o) }

  /** No two rows are the same group. */
  predicate DistinctGroups(p: Plan, rows: seq<Row>) {
    forall i, j | 0 <= i < j < |rows| :: Apart(p, rows[i], rows[j])
  }

  ghost predicate HasMember(cal: Calendar, db: Database, p: Plan, row: Row, members: seq<Joined>) {
    exists k | 0 <= k < |members| :: ShowsGroup(cal, db, p, row, members[k])
  }

  ghost predicate HasRow(cal: Calendar, db: Database, p: Plan, rows: seq<Row>, member: Joined) {
    exists i | 0 <= i < |rows| :: ShowsGroup(cal, db, p, rows[i], member)
  }

  /** Every row is the group of a member, every member's group has a row, and no group
      has two. */
  ghost predicate ListsGroups(cal: Calendar, db: Database, p: Plan, rows: seq<Row>, members: seq<Joined>) {
    && (forall i | 0 <= i < |rows| :: HasMember(cal, db, p, rows[i], members))
    && (forall k | 0 <= k < |members| :: HasRow(cal, db, p, rows, members[k]))
    && DistinctGroups(p, rows)
  }

  ghost predicate Describes(cal: Calendar, db: Database, p: Plan, rows: seq<Row>) {
    if p.metrics == [] then ListsMembers(cal, db, p, rows, Population(cal, db, p))
    else if GroupOutputs(p) == [] then
      |rows| == 1 && Shows(cal, db, p, rows[0], Joined(None, None), Population(cal, db, p))
    else ListsGroups(cal, db, p, rows, Population(cal, db, p))
  }

  // ---- Conditions on groups, latest status ---------------------------------------------------

  /** The mean of a measure over all groups, before any of them is dropped. */
  function PopulationMean(rows: seq<Row>, m: Metric): Option<real> {
    var known := Filter(Map(rows, (r: Row) => At(r, Measure(m))), (v: Value) => Numeric(v));
    if known == [] then None else Some(Total(Map(known, NumberOr0)) / |known| as real)
  }

  function Bound(rows: seq<Row>, h: Having): Option<real> {
    if h.compareTo.Some? then PopulationMean(rows, h.metric)
    else match h.value
      case Some(Whole(n)) => Some(n as real)
      case Some(Decimal(x)) => Some(x)
      case _ => None
  }

  predicate Passes(rows: seq<Row>, row: Row, h: Having) {
    var v := At(row, Measure(h.metric));
    Numeric(v) && (match Bound(rows, h) case Some(b) => Relates(h.op, Number(v) < b, b < Number(v)) case None => false)
  }

  /** No incident of the same root is later; equal or unreadable receipt times are
      decided by the larger identity. */
  predicate IsLatest(cal: Calendar, db: Database, q: Incident) {
    q in db.incidents && forall other | other in db.incidents && other.root == q.root && other != q ::
      Ahead(cal, q, other)
  }

  ghost predicate AddsLatest(cal: Calendar, db: Database, row: Row, full: Row) {
    exists q | q in db.incidents ::
      IsLatest(cal, db, q) && OfText(q.root) == At(row, Dimension(Root))
        && full == row[LatestStatus := OfText(q.status)]
  }

  /** `rows` are the groups that pass, with their latest status when it is asked for. */
  ghost predicate Candidate(cal: Calendar, db: Database, p: Plan, groups: seq<Row>, rows: seq<Row>) {
    exists full: seq<Row> ::
      && |full| == |groups|
      && (forall i | 0 <= i < |full| :: if p.latestStatus then AddsLatest(cal, db, groups[i], full[i])
        else full[i] == groups[i])
      && rows == Filter(full, (r: Row) => forall h | h in p.having :: Passes(groups, r, h))
  }

  ghost predicate MeansBeforeOrder(cal: Calendar, db: Database, p: Plan, rows: seq<Row>) {
    exists groups: seq<Row> :: Describes(cal, db, p, groups) && Candidate(cal, db, p, groups, rows)
  }
}
