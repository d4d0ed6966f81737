/** The relational queries the compiler emits, and what SQLite answers to them. */
module AnalyticsSql {
  import opened Basics
  import opened AnalyticsPlan
  import opened AnalyticsData

  // ---- Queries -----------------------------------------------------------------------

  datatype Test =
    | NullTest(field: Field, negated: bool)
    | ValueTest(field: Field, op: Operator, literal: Value)
    | InstantTest(field: Field, op: Operator, moment: string)
    | OneOf(field: Field, choices: seq<string>)
    | NonnegativeDuration

  datatype Expr =
    | Column(field: Field)
    | LocalBucket(bucket: TimeBucket)
    | Duration
    | One
    | RelatedLogs
    | Case(test: Test, expr: Expr)

  datatype Aggregate =
    | CountRows
    | Count(expr: Expr)
    | CountDistinct(expr: Expr)
    | Minus(whole: Aggregate, part: Aggregate)
    | RoundedAverage(expr: Expr)
    | RoundedPercent(part: Aggregate, whole: Aggregate)
    | SumOrZero(expr: Expr)

  datatype Selected = Scalar(output: Output, expr: Expr) | Aggregated(output: Output, aggregate: Aggregate)

  datatype Where = Where(user: seq<Test>, either: bool, system: seq<Test>)

  datatype Select = Select(entity: Entity, where: Where, columns: seq<Selected>, groupBy: seq<Expr>)

  datatype HavingTest =
    | AgainstValue(metric: Metric, op: Operator, literal: Value)
    | AgainstMean(metric: Metric, op: Operator)

  datatype SortKey = SortKey(output: Output, byInstant: bool, descending: bool)

  datatype Query = Query(base: Select, having: seq<HavingTest>, latest: bool, ordering: seq<SortKey>, limit: nat)

  type Row = map<Output, Value>

  // ---- Expressions -------------------------------------------------------------------

  function EvalDuration(cal: Calendar, row: Joined): Value {
    var received, completed := Instant(cal, ValueOf(row, ReceivedAt)), Instant(cal, ValueOf(row, CompletedAt));
    if received.Real? && completed.Real? then Real((completed.exact - received.exact) * 1440.0) else Null
  }

  function EvalTest(cal: Calendar, row: Joined, t: Test): Truth {
    match t
    case NullTest(f, negated) => Known((ValueOf(row, f) == Null) != negated)
    case ValueTest(f, op, literal) => Compare(op, ValueOf(row, f), literal)
    case InstantTest(f, op, moment) => Compare(op, Instant(cal, ValueOf(row, f)), Instant(cal, Text(moment)))
    case OneOf(f, choices) =>
      var v := ValueOf(row, f);
      if v == Null then Unknown else Known(v.Text? && v.text in choices)
    case NonnegativeDuration => Compare(Gte, EvalDuration(cal, row), Int(0))
  }

  /** `RelatedLogs` is the correlated count of the logs of the row's incident. */
  function EvalExpr(cal: Calendar, db: Database, row: Joined, e: Expr): Value {
    match e
    case Column(f) => ValueOf(row, f)
    case LocalBucket(b) => BucketOf(cal, ValueOf(row, b.field), b)
    case Duration => EvalDuration(cal, row)
    case One => Int(1)
    case RelatedLogs =>
      Int(|Filter(db.logs, (l: Log) => row.incident.Some? && l.incident == Some(row.incident.value.id))|)
    case Case(t, then_) => if EvalTest(cal, row, t) == True then EvalExpr(cal, db, row, then_) else Null
  }

  // ---- Aggregates --------------------------------------------------------------------

  /** The values of an expression over the rows, without the missing ones. */
  function Present(cal: Calendar, db: Database, rows: seq<Joined>, e: Expr): seq<Value> {
    Filter(Map(rows, (r: Joined) => EvalExpr(cal, db, r, e)), (v: Value) => v != Null)
  }

  function NumberOr0(v: Value): real { if Numeric(v) then Number(v) else 0.0 }

  function WholeOr0(v: Value): int { if v.Int? then v.whole else 0 }

  function Average(vs: seq<Value>): Value {
    if vs == [] then Null else Real(Total(Map(vs, NumberOr0)) / |vs| as real)
  }

  function EvalAggregate(cal: Calendar, db: Database, rows: seq<Joined>, a: Aggregate): Value {
    match a
    case CountRows => Int(|rows|)
    case Count(e) => Int(|Present(cal, db, rows, e)|)
    case CountDistinct(e) => Int(|Distinct(Present(cal, db, rows, e))|)
    case Minus(x, y) => Int(WholeOr0(EvalAggregate(cal, db, rows, x)) - WholeOr0(EvalAggregate(cal, db, rows, y)))
    case RoundedAverage(e) =>
      var average := Average(Present(cal, db, rows, e));
      if average == Null then Null else Real(Round2(NumberOr0(average)))
    case RoundedPercent(x, y) =>
      var part, whole := WholeOr0(EvalAggregate(cal, db, rows, x)), WholeOr0(EvalAggregate(cal, db, rows, y));
      if whole == 0 then Null else Real(Round2(100.0 * part as real / whole as real))
    case SumOrZero(e) => Int(Sum(Map(Present(cal, db, rows, e), WholeOr0)))
  }

  // ---- Selection and grouping ----------------------------------------------------------

  function AndAll(ts: seq<Truth>): Truth { if ts == [] then True else And(ts[0], AndAll(ts[1..])) }

  function OrAll(ts: seq<Truth>): Truth { if ts == [] then False else Or(ts[0], OrAll(ts[1..])) }

  function EvalTests(cal: Calendar, row: Joined, ts: seq<Test>): seq<Truth> {
    Map(ts, (t: Test) => EvalTest(cal, row, t))
  }

  /** The user's conditions are one parenthesised group, absent when there are none. */
  function EvalWhere(cal: Calendar, row: Joined, w: Where): Truth {
    var user := EvalTests(cal, row, w.user);
    And(if w.user == [] then True else if w.either then OrAll(user) else AndAll(user),
        AndAll(EvalTests(cal, row, w.system)))
  }

  function Matches(db: Database, l: Log): seq<Incident> {
    Filter(db.incidents, (q: Incident) => l.incident == Some(q.id))
  }

  /** The rows a log contributes to `Logs LEFT JOIN Queue`. */
  function LeftJoin(db: Database, l: Log): seq<Joined> {
    if Matches(db, l) == [] then [Joined(Some(l), None)]
    else Map(Matches(db, l), (q: Incident) => Joined(Some(l), Some(q)))
  }

  function Source(db: Database, e: Entity): seq<Joined> {
    match e
    case Incidents => Map(db.incidents, (q: Incident) => Joined(None, Some(q)))
    case Events => Flatten(Map(db.logs, (l: Log) => LeftJoin(db, l)))
  }

  function KeyOf(cal: Calendar, db: Database, row: Joined, groupBy: seq<Expr>): seq<Value> {
    Map(groupBy, (e: Expr) => EvalExpr(cal, db, row, e))
  }

  function Cell(cal: Calendar, db: Database, rows: seq<Joined>, c: Selected): Value {
    match c
    case Scalar(_, e) => if rows == [] then Null else EvalExpr(cal, db, rows[0], e)
    case Aggregated(_, a) => EvalAggregate(cal, db, rows, a)
  }

  function Project(cal: Calendar, db: Database, rows: seq<Joined>, columns: seq<Selected>): Row {
    if columns == [] then map[]
    else
      var last := columns[|columns| - 1];
      Project(cal, db, rows, columns[..|columns| - 1])[last.output := Cell(cal, db, rows, last)]
  }

  predicate Aggregates(s: Select) { exists c | c in s.columns :: c.Aggregated? }

  /** Rows one by one, one row for everything, or one row for each group. */
  function Base(cal: Calendar, db: Database, s: Select): seq<Row> {
    var rows := Filter(Source(db, s.entity), (r: Joined) => EvalWhere(cal, r, s.where) == True);
    if !Aggregates(s) then Map(rows, (r: Joined) => Project(cal, db, [r], s.columns))
    else if s.groupBy == [] then [Project(cal, db, rows, s.columns)]
    else
      var keys := Distinct(Map(rows, (r: Joined) => KeyOf(cal, db, r, s.groupBy)));
      Map(keys, (key: seq<Value>) =>
        Project(cal, db, Filter(rows, (r: Joined) => KeyOf(cal, db, r, s.groupBy) == key), s.columns))
  }

  // ---- Conditions on groups, latest status, order ----------------------------------------

  function At(row: Row, o: Output): Value { if o in row then row[o] else Null }

  function Mean(base: seq<Row>, m: Metric): Value {
    Average(Filter(Map(base, (r: Row) => At(r, Measure(m))), (v: Value) => v != Null))
  }

  function EvalHaving(base: seq<Row>, row: Row, h: HavingTest): Truth {
    match h
    case AgainstValue(m, op, literal) => Compare(op, At(row, Measure(m)), literal)
    case AgainstMean(m, op) => Compare(op, At(row, Measure(m)), Mean(base, m))
  }

  /** `ORDER BY julianday(ReceivedAt) DESC, QueueId DESC`. */
  predicate Ahead(cal: Calendar, a: Incident, b: Incident) {
    var x, y := Instant(cal, OfText(a.received)), Instant(cal, OfText(b.received));
    Less(y, x) || (!Less(x, y) && StringLess(b.id, a.id))
  }

  /** `ROW_NUMBER() OVER (PARTITION BY RootConnectorName ORDER BY …)`. */
  function RowNumber(cal: Calendar, db: Database, q: Incident): nat {
    1 + |Filter(db.incidents, (other: Incident) => other.root == q.root && Ahead(cal, other, q))|
  }

  function LatestMatches(cal: Calendar, db: Database, row: Row): seq<Incident> {
    Filter(db.incidents, (q: Incident) => RowNumber(cal, db, q) == 1 && OfText(q.root) == At(row, Dimension(Root)))
  }

  /** The rows a group contributes to `base LEFT JOIN latest`. */
  function JoinLatest(cal: Calendar, db: Database, row: Row): seq<Row> {
    if LatestMatches(cal, db, row) == [] then [row[LatestStatus := Null]]
    else Map(LatestMatches(cal, db, row), (q: Incident) => row[LatestStatus := OfText(q.status)])
  }

  /** The rows of the answer, before they are ordered and cut. */
  function Candidates(cal: Calendar, db: Database, q: Query): seq<Row> {
    var base := Base(cal, db, q.base);
    var joined := if q.latest then Flatten(Map(base, (r: Row) => JoinLatest(cal, db, r))) else base;
    Filter(joined, (r: Row) => AndAll(Map(q.having, (h: HavingTest) => EvalHaving(base, r, h))) == True)
  }

  function SortValue(cal: Calendar, k: SortKey, row: Row): Value {
    if k.byInstant then Instant(cal, At(row, k.output)) else At(row, k.output)
  }

  /** `a` may stand before `b`. */
  predicate InOrder(cal: Calendar, keys: seq<SortKey>, a: Row, b: Row) {
    keys == [] ||
    var x, y := SortValue(cal, keys[0], a), SortValue(cal, keys[0], b);
    var (first, second) := if keys[0].descending then (y, x) else (x, y);
    Less(first, second) || (!Less(second, first) && InOrder(cal, keys[1..], a, b))
  }

  ghost predicate Sorted(cal: Calendar, keys: seq<SortKey>, rows: seq<Row>) {
    forall i, j | 0 <= i < j < |rows| :: InOrder(cal, keys, rows[i], rows[j])
  }

  /** The database may return `out`: the first rows of some ordering of the candidates,
      in whatever order the groups were produced. */
  ghost predicate Answers(cal: Calendar, db: Database, q: Query, out: seq<Row>) {
    exists all: seq<Row> ::
      && multiset(all) == multiset(Candidates(cal, db, q))
      && Sorted(cal, q.ordering, all)
      && out == Take(all, q.limit)
  }

  // ---- Cross joins of single-row queries -------------------------------------------------

  /** Columns of the independent populations, each from its own subquery. */
  datatype CrossJoin = CrossJoin(children: seq<Query>, columns: seq<(nat, Metric)>)

  ghost predicate AnswersCross(cal: Calendar, db: Database, c: CrossJoin, out: seq<Row>) {
    exists parts: seq<seq<Row>> ::
      && |parts| == |c.children|
      && (forall i | 0 <= i < |parts| :: Answers(cal, db, c.children[i], parts[i]))
      && out == Map(Combinations(parts), (rows: seq<Row>) => Spread(rows, c.columns))
  }

  function Combinations(parts: seq<seq<Row>>): seq<seq<Row>> {
    if parts == [] then [[]]
    else
      var rest := Combinations(parts[1..]);
      Flatten(Map(parts[0], (r: Row) => Map(rest, (tail: seq<Row>) => [r] + tail)))
  }

  function Spread(rows: seq<Row>, columns: seq<(nat, Metric)>): Row {
    if columns == [] then map[]
    else
      var (child, m) := columns[|columns| - 1];
      Spread(rows, columns[..|columns| - 1])
        [Measure(m) := if child < |rows| then At(rows[child], Measure(m)) else Null]
  }
}
