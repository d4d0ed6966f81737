/** What the snapshot holds and how SQLite compares it: rows with missing values,
    three-valued logic and the order of values. */
module AnalyticsData {
  import opened Basics
  import opened AnalyticsPlan

  datatype Incident = Incident(
    id: string,
    root: Option<string>,
    current: Option<string>,
    status: Option<string>,
    outcome: Option<string>,
    mode: Option<string>,
    received: Option<string>,
    started: Option<string>,
    completed: Option<string>
  )

  datatype Log = Log(
    id: string,
    incident: Option<string>,
    connector: Option<string>,
    eventType: Option<string>,
    severity: Option<string>,
    attempt: Option<int>,
    step: Option<int>,
    at: Option<string>
  )

  datatype Database = Database(incidents: seq<Incident>, logs: seq<Log>) {
    /** Both primary keys hold. */
    ghost predicate Valid() {
      && (forall i, j | 0 <= i < j < |incidents| :: incidents[i].id != incidents[j].id)
      && (forall i, j | 0 <= i < j < |logs| :: logs[i].id != logs[j].id)
    }
  }

  /** Calendar functions the database and the compiler rely on: the instant a text
      denotes, its local calendar bucket, and the UTC form of a literal with an offset. */
  datatype Calendar = Calendar(
    instant: string -> Option<real>,
    local: (string, Unit, Zone) -> Option<string>,
    utc: string -> Option<string>
  )

  // ---- Values ----------------------------------------------------------------------

  datatype Value = Null | Text(text: string) | Int(whole: int) | Real(exact: real)

  predicate Numeric(v: Value) { v.Int? || v.Real? }

  function Number(v: Value): real
    requires Numeric(v)
  {
    if v.Int? then v.whole as real else v.exact
  }

  /** SQLite's order: missing values, then numbers, then text. */
  predicate Less(a: Value, b: Value) {
    match a
    case Null => b != Null
    case Text(x) => b.Text? && StringLess(x, b.text)
    case _ => b.Text? || (Numeric(b) && Number(a) < Number(b))
  }

  datatype Truth = True | False | Unknown

  function Known(b: bool): Truth { if b then True else False }

  /** A comparison in SQL is unknown when a side is missing. */
  function Compare(op: Operator, a: Value, b: Value): Truth {
    if a == Null || b == Null then Unknown
    else match op
      case Eq => Known(!Less(a, b) && !Less(b, a))
      case Ne => Known(Less(a, b) || Less(b, a))
      case Gt => Known(Less(b, a))
      case Gte => Known(!Less(a, b))
      case Lt => Known(Less(a, b))
      case Lte => Known(!Less(b, a))
  }

  function And(a: Truth, b: Truth): Truth {
    if a == False || b == False then False else if a == True && b == True then True else Unknown
  }

  function Or(a: Truth, b: Truth): Truth {
    if a == True || b == True then True else if a == False && b == False then False else Unknown
  }

  // ---- Rows ------------------------------------------------------------------------

  /** A row of the join: an event, an incident, or an event with its incident. */
  datatype Joined = Joined(log: Option<Log>, incident: Option<Incident>)

  function OfText(t: Option<string>): Value { match t case Some(s) => Text(s) case None => Null }

  function OfInt(n: Option<int>): Value { match n case Some(i) => Int(i) case None => Null }

  function IncidentValue(q: Incident, f: Field): Value
    requires TableOf(f) == Queue
  {
    match f
    case Root => OfText(q.root)
    case CurrentConnector => OfText(q.current)
    case IncidentId => Text(q.id)
    case QueueStatus => OfText(q.status)
    case Outcome => OfText(q.outcome)
    case Mode => OfText(q.mode)
    case ReceivedAt => OfText(q.received)
    case StartedAt => OfText(q.started)
    case CompletedAt => OfText(q.completed)
  }

  function LogValue(l: Log, f: Field): Value
    requires TableOf(f) == Logs
  {
    match f
    case EventId => Text(l.id)
    case EventConnector => OfText(l.connector)
    case EventType => OfText(l.eventType)
    case Severity => OfText(l.severity)
    case Attempt => OfInt(l.attempt)
    case HealingStep => OfInt(l.step)
    case EventAt => OfText(l.at)
  }

  /** The value of a field; the side an outer join did not match is missing. */
  function ValueOf(row: Joined, f: Field): Value {
    if TableOf(f) == Queue then
      match row.incident case Some(q) => IncidentValue(q, f) case None => Null
    else
      match row.log case Some(l) => LogValue(l, f) case None => Null
  }

  /** The instant of a text value, if it denotes one. */
  function Instant(cal: Calendar, v: Value): Value {
    match v
    case Text(t) => (match cal.instant(t) case Some(x) => Real(x) case None => Null)
    case _ => Null
  }

  function BucketOf(cal: Calendar, v: Value, b: TimeBucket): Value {
    match v
    case Text(t) => OfText(cal.local(t, b.unit, b.zone))
    case _ => Null
  }

  /** Two decimals, halves upwards: the rounding of nonnegative numbers. */
  function Round2(x: real): real { (x * 100.0 + 0.5).Floor as real / 100.0 }

  // ---- Laws of the order -------------------------------------------------------------

  lemma ValueOrder(a: Value, b: Value)
    ensures !(Less(a, b) && Less(b, a))
    ensures !Less(a, a)
    ensures Less(a, b) || Less(b, a) || a == b || (Numeric(a) && Numeric(b) && Number(a) == Number(b))
  {
    match (a, b)
    case (Text(x), Text(y)) => StringOrderTotal(x, y); StringOrderTotal(x, x);
    case (Text(x), _) => StringOrderTotal(x, x);
    case _ =>
  }

  lemma ValueOrderTransitive(a: Value, b: Value, c: Value)
    requires !Less(b, a) && !Less(c, b)
    ensures !Less(c, a)
  {
    if a.Text? && b.Text? && c.Text? {
      StringOrderTotal(a.text, b.text);
      StringOrderTotal(b.text, c.text);
      StringOrderTotal(a.text, c.text);
      if StringLess(c.text, a.text) {
        if a.text == b.text || b.text == c.text {
        } else {
          StringOrderTransitive(a.text, b.text, c.text);
        }
      }
    }
  }
}
