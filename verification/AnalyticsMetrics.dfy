/** Every compiled aggregate computes the catalog's number about a group. */
module AnalyticsMetrics {
  import opened Basics
  import opened AnalyticsPlan
  import opened AnalyticsData
  import opened AnalyticsSql
  import opened AnalyticsCompiler
  import opened AnalyticsMeaning
  import opened AnalyticsPopulation

  // ---- Conditional counts -----------------------------------------------------------------

  lemma {:induction false} PresentCons(cal: Calendar, db: Database, rows: seq<Joined>, e: Expr)
    requires rows != []
    ensures Present(cal, db, rows, e)
         == (if EvalExpr(cal, db, rows[0], e) == Null then [] else [EvalExpr(cal, db, rows[0], e)])
           + Present(cal, db, rows[1..], e)
  {
    hide EvalExpr;
    var f := (r: Joined) => EvalExpr(cal, db, r, e);
    assert Map(rows, f) == [f(rows[0])] + Map(rows[1..], f);
  }

  /** `CASE WHEN test THEN x END` keeps the rows the test is true on. */
  lemma {:induction false} PresentCase(cal: Calendar, db: Database, rows: seq<Joined>, t: Test, e: Expr,
          keep: Joined -> bool, value: Joined -> Value)
    requires forall r | r in rows :: (EvalTest(cal, r, t) == True) == keep(r)
    requires forall r | r in rows && keep(r) :: EvalExpr(cal, db, r, e) == value(r) != Null
    ensures Present(cal, db, rows, Case(t, e)) == Map(Filter(rows, keep), value)
  {
    hide EvalTest, Present;
    if rows == [] {
      assert Present(cal, db, rows, Case(t, e)) == [] by { NothingPresent(cal, db, Case(t, e)); }
    } else {
      PresentCons(cal, db, rows, Case(t, e));
      assert forall r | r in rows[1..] :: r in rows;
      PresentCase(cal, db, rows[1..], t, e, keep, value);
      assert rows[0] in rows;
      if keep(rows[0]) {
        assert Filter(rows, keep) == [rows[0]] + Filter(rows[1..], keep);
        assert Map(Filter(rows, keep), value) == [value(rows[0])] + Map(Filter(rows[1..], keep), value);
      }
    }
  }

  lemma NothingPresent(cal: Calendar, db: Database, e: Expr)
    ensures Present(cal, db, [], e) == []
  {
  }

  lemma CountCase(cal: Calendar, db: Database, rows: seq<Joined>, t: Test, keep: Joined -> bool)
    requires forall r | r in rows :: (EvalTest(cal, r, t) == True) == keep(r)
    ensures EvalAggregate(cal, db, rows, Count(Case(t, One))) == Int(|Filter(rows, keep)|)
  {
    hide EvalTest, Present;
    PresentCase(cal, db, rows, t, One, keep, (r: Joined) => Int(1));
  }

  lemma TallyMeans(cal: Calendar, db: Database, rows: seq<Joined>, f: Field, text: string, keep: Joined -> bool)
    requires forall r | r in rows :: (ValueOf(r, f) == Text(text)) == keep(r)
    ensures EvalAggregate(cal, db, rows, Tally(f, text)) == Int(|Filter(rows, keep)|)
  {
    hide EvalAggregate, Compare, ValueOf;
    var t := ValueTest(f, Eq, Text(text));
    forall r | r in rows ensures (EvalTest(cal, r, t) == True) == keep(r) { EqualsText(ValueOf(r, f), text); }
    CountCase(cal, db, rows, t, keep);
  }

  // ---- Events and outcomes -------------------------------------------------------------------

  lemma EventsMean(cal: Calendar, db: Database, rows: seq<Joined>, eventType: string)
    ensures EvalAggregate(cal, db, rows, Tally(EventType, eventType)) == Int(|EventsOf(rows, eventType)|)
  {
    hide EvalAggregate, Tally;
    TallyMeans(cal, db, rows, EventType, eventType,
               (r: Joined) => r.log.Some? && r.log.value.eventType == Some(eventType));
  }

  lemma OutcomesMean(cal: Calendar, db: Database, rows: seq<Joined>, outcome: string)
    ensures EvalAggregate(cal, db, rows, Tally(Outcome, outcome)) == Int(|Ended(rows, {outcome})|)
  {
    hide EvalAggregate, Tally;
    var outcomes := {outcome};
    TallyMeans(cal, db, rows, Outcome, outcome,
      (r: Joined) => r.incident.Some? && r.incident.value.outcome.Some? && r.incident.value.outcome.value in outcomes);
  }

  lemma TerminalMeans(cal: Calendar, db: Database, rows: seq<Joined>)
    ensures EvalAggregate(cal, db, rows, Count(Case(OneOf(Outcome, ["RECOVERED", "FAILED", "ESCALATED"]), One)))
         == Int(|Ended(rows, TERMINAL)|)
  {
    hide EvalAggregate;
    CountCase(cal, db, rows, OneOf(Outcome, ["RECOVERED", "FAILED", "ESCALATED"]),
      (r: Joined) => r.incident.Some? && r.incident.value.outcome.Some? && r.incident.value.outcome.value in TERMINAL);
  }

  lemma RateMeans(cal: Calendar, db: Database, rows: seq<Joined>)
    ensures EvalAggregate(cal, db, rows, AggregateOf(RecoveryRatePercent, Incidents))
         == MetricOf(cal, db, Incidents, RecoveryRatePercent, rows)
  {
    hide Tally, Ended, Round2;
    OutcomesMean(cal, db, rows, "RECOVERED");
    TerminalMeans(cal, db, rows);
  }

  // ---- Durations ---------------------------------------------------------------------------------

  lemma DurationMeans(cal: Calendar, row: Joined)
    ensures (EvalTest(cal, row, NonnegativeDuration) == True) == Minutes(cal, row).Some?
    ensures Minutes(cal, row).Some? ==> EvalDuration(cal, row) == Real(Minutes(cal, row).value)
  {
  }

  lemma ValidMeans(cal: Calendar, db: Database, rows: seq<Joined>)
    ensures EvalAggregate(cal, db, rows, VALID_DURATIONS) == Int(|Timed(cal, rows)|)
  {
    hide EvalAggregate, EvalTest, Minutes;
    forall r | r in rows ensures (EvalTest(cal, r, NonnegativeDuration) == True) == Minutes(cal, r).Some? {
      DurationMeans(cal, r);
    }
    CountCase(cal, db, rows, NonnegativeDuration, (r: Joined) => Minutes(cal, r).Some?);
  }

  lemma ExcludedMeans(cal: Calendar, db: Database, rows: seq<Joined>)
    ensures EvalAggregate(cal, db, rows, Minus(CountRows, VALID_DURATIONS))
         == Int(|Filter(rows, (r: Joined) => Minutes(cal, r).None?)|)
  {
    hide Minutes, Filter;
    ValidMeans(cal, db, rows);
    FilterSplit(rows, (r: Joined) => Minutes(cal, r).Some?, (r: Joined) => Minutes(cal, r).None?);
  }

  lemma {:induction false} MapMap<T, U, V>(xs: seq<T>, f: T -> U, g: U -> V, h: T -> V)
    requires forall x | x in xs :: g(f(x)) == h(x)
    ensures Map(Map(xs, f), g) == Map(xs, h)
  {
    if xs != [] {
      assert Map(xs, f) == [f(xs[0])] + Map(xs[1..], f);
      MapMap(xs[1..], f, g, h);
    }
  }

  lemma AverageMeans(cal: Calendar, db: Database, rows: seq<Joined>)
    ensures EvalAggregate(cal, db, rows, RoundedAverage(Case(NonnegativeDuration, Duration)))
         == MetricOf(cal, db, Incidents, AvgDurationMinutes, rows)
  {
    hide EvalTest, Minutes, EvalDuration, Total, Filter, Map, Round2, Present;
    var keep, value := (r: Joined) => Minutes(cal, r).Some?, (r: Joined) => Real(MinutesOr0(cal, r));
    forall r | r in rows ensures (EvalTest(cal, r, NonnegativeDuration) == True) == keep(r) { DurationMeans(cal, r); }
    forall r | r in rows && keep(r) ensures EvalExpr(cal, db, r, Duration) == value(r) != Null {
      DurationMeans(cal, r);
    }
    PresentCase(cal, db, rows, NonnegativeDuration, Duration, keep, value);
    var timed := Timed(cal, rows);
    MapMap(timed, value, NumberOr0, (r: Joined) => MinutesOr0(cal, r));
    assert |Map(timed, value)| == |timed|;
  }

  // ---- Incidents -------------------------------------------------------------------------------------

  lemma {:induction false} AsManyIds(s: set<Incident>)
    requires forall a, b | a in s && b in s && a != b :: a.id != b.id
    ensures |set q | q in s :: Text(q.id)| == |s|
  {
    if s != {} {
      var x :| x in s;
      AsManyIds(s - {x});
      assert (set q | q in s :: Text(q.id)) == {Text(x.id)} + (set q | q in s - {x} :: Text(q.id));
    }
  }

  lemma SameIncident(db: Database, a: Incident, b: Incident)
    requires db.Valid() && a in db.incidents && b in db.incidents && a.id == b.id
    ensures a == b
  {
  }

  lemma {:induction false} PresentIds(cal: Calendar, db: Database, rows: seq<Joined>, v: Value)
    ensures v in Present(cal, db, rows, Column(IncidentId)) <==> v in (set q | q in IncidentsOf(rows) :: Text(q.id))
  {
    hide Present;
    if rows == [] {
      NothingPresent(cal, db, Column(IncidentId));
    } else {
      PresentCons(cal, db, rows, Column(IncidentId));
      PresentIds(cal, db, rows[1..], v);
      assert IncidentsOf(rows)
          == (if rows[0].incident.Some? then {rows[0].incident.value} else {}) + IncidentsOf(rows[1..]);
    }
  }

  /** COUNT(DISTINCT QueueId) is the number of incidents in the group. */
  lemma IncidentCountMeans(cal: Calendar, db: Database, e: Entity, rows: seq<Joined>)
    requires db.Valid() && Members(db, e, rows)
    ensures EvalAggregate(cal, db, rows, CountDistinct(Column(IncidentId))) == Int(|IncidentsOf(rows)|)
  {
    hide Present, Distinct, Members;
    var ids := Distinct(Present(cal, db, rows, Column(IncidentId)));
    var image := set q | q in IncidentsOf(rows) :: Text(q.id);
    forall v ensures v in ids <==> v in image { PresentIds(cal, db, rows, v); }
    DistinctSize(ids);
    assert (set v | v in ids) == image;
    forall a, b | a in IncidentsOf(rows) && b in IncidentsOf(rows) && a != b ensures a.id != b.id {
      Recorded(db, e, rows, a);
      Recorded(db, e, rows, b);
      if a.id == b.id { SameIncident(db, a, b); }
    }
    AsManyIds(IncidentsOf(rows));
  }

  lemma Recorded(db: Database, e: Entity, rows: seq<Joined>, q: Incident)
    requires Members(db, e, rows) && q in IncidentsOf(rows)
    ensures q in db.incidents
  {
  }

  // ---- Logs --------------------------------------------------------------------------------------------

  lemma {:induction false} FilterUnion<T>(xs: seq<T>, p: T -> bool, q: T -> bool, either: T -> bool)
    requires forall x | x in xs :: either(x) == (p(x) || q(x)) && !(p(x) && q(x))
    ensures |Filter(xs, either)| == |Filter(xs, p)| + |Filter(xs, q)|
  {
    if xs != [] {
      FilterUnion(xs[1..], p, q, either);
    }
  }

  function Own(row: Joined): Log -> bool {
    (l: Log) => row.incident.Some? && l.incident == Some(row.incident.value.id)
  }

  lemma LogsOfCons(db: Database, rows: seq<Joined>)
    requires db.Valid() && rows != [] && Members(db, Incidents, rows)
    ensures |LogsOf(db, rows)| == |Filter(db.logs, Own(rows[0]))| + |LogsOf(db, rows[1..])|
  {
    hide Filter;
    var here := Own(rows[0]);
    var later := (l: Log) => exists r | r in rows[1..] :: r.incident.Some? && l.incident == Some(r.incident.value.id);
    var any := (l: Log) => exists r | r in rows :: r.incident.Some? && l.incident == Some(r.incident.value.id);
    forall l | l in db.logs ensures any(l) == (here(l) || later(l)) && !(here(l) && later(l)) {
      assert forall r :: r in rows <==> r == rows[0] || r in rows[1..];
      if here(l) && later(l) {
        var k :| 0 < k < |rows| && l.incident == Some(rows[k].incident.value.id);
        assert rows[0] in rows && rows[k] in rows;
        SameIncident(db, rows[0].incident.value, rows[k].incident.value);
        assert false;
      }
    }
    FilterUnion(db.logs, here, later, any);
  }

  /** The sum of the correlated counts counts each log of the group's incidents once. */
  lemma {:induction false} RelatedLogsSum(cal: Calendar, db: Database, rows: seq<Joined>)
    requires db.Valid() && Members(db, Incidents, rows)
    ensures EvalAggregate(cal, db, rows, SumOrZero(RelatedLogs)) == Int(|LogsOf(db, rows)|)
  {
    hide Present, Filter, LogsOf, Members;
    if rows == [] {
      NothingPresent(cal, db, RelatedLogs);
      assert |LogsOf(db, [])| == 0 by { NoLogs(db); }
    } else {
      PresentCons(cal, db, rows, RelatedLogs);
      assert Members(db, Incidents, rows[1..]) by { FewerMembers(db, rows); }
      RelatedLogsSum(cal, db, rows[1..]);
      LogsOfCons(db, rows);
      assert EvalExpr(cal, db, rows[0], RelatedLogs) == Int(|Filter(db.logs, Own(rows[0]))|) by {
        OwnLogs(cal, db, rows[0]);
      }
      var rest := Present(cal, db, rows[1..], RelatedLogs);
      assert Map([EvalExpr(cal, db, rows[0], RelatedLogs)] + rest, WholeOr0)
          == [|Filter(db.logs, Own(rows[0]))|] + Map(rest, WholeOr0);
    }
  }

  lemma OwnLogs(cal: Calendar, db: Database, row: Joined)
    ensures EvalExpr(cal, db, row, RelatedLogs) == Int(|Filter(db.logs, Own(row))|)
  {
    FilterAgrees(db.logs, Own(row), (l: Log) => row.incident.Some? && l.incident == Some(row.incident.value.id));
  }

  lemma NoLogs(db: Database)
    ensures LogsOf(db, []) == []
  {
    var none: seq<Joined> := [];
    FilterNone(db.logs, (l: Log) => exists r | r in none ::
      r.incident.Some? && l.incident == Some(r.incident.value.id));
  }

  lemma FewerMembers(db: Database, rows: seq<Joined>)
    requires Members(db, Incidents, rows) && rows != []
    ensures Members(db, Incidents, rows[1..])
  {
  }

  lemma {:induction false} EventIds(cal: Calendar, db: Database, rows: seq<Joined>)
    requires forall r | r in rows :: r.log.Some?
    ensures |Present(cal, db, rows, Column(EventId))| == |rows|
  {
    hide Present;
    if rows == [] {
      NothingPresent(cal, db, Column(EventId));
    } else {
      assert rows[0] in rows && forall r | r in rows[1..] :: r in rows;
      PresentCons(cal, db, rows, Column(EventId));
      EventIds(cal, db, rows[1..]);
    }
  }

  // ---- All metrics -----------------------------------------------------------------------------------------

  /** Whatever the group, the compiled aggregate is the catalog's metric. */
  lemma AggregateMeans(cal: Calendar, db: Database, e: Entity, m: Metric, rows: seq<Joined>)
    requires db.Valid() && Members(db, e, rows) && Measures(m, e)
    ensures EvalAggregate(cal, db, rows, AggregateOf(m, e)) == MetricOf(cal, db, e, m, rows)
  {
    hide Present, Filter, Ended, EventsOf, Timed, LogsOf, IncidentsOf, Tally, Distinct, EvalExpr, Sum, Map, Round2;
    match m
    case IncidentCount => IncidentCountMeans(cal, db, e, rows);
    case LogCount =>
      if e == Events { EventIds(cal, db, rows); } else { RelatedLogsSum(cal, db, rows); }
    case ConfirmedFailureCount => EventsMean(cal, db, rows, "HEALTH_FAILED_CONFIRMED");
    case TaskRestartCount => EventsMean(cal, db, rows, "TASK_RESTART");
    case ConnectorRestartCount => EventsMean(cal, db, rows, "CONNECTOR_RESTART");
    case RecoveryCount => OutcomesMean(cal, db, rows, "RECOVERED");
    case RecoveryRatePercent => RateMeans(cal, db, rows);
    case EscalationCount => OutcomesMean(cal, db, rows, "ESCALATED");
    case AvgDurationMinutes => AverageMeans(cal, db, rows);
    case MatchedCount =>
    case ValidDurationCount => ValidMeans(cal, db, rows);
    case ExcludedDurationCount => ExcludedMeans(cal, db, rows);
  }
}
