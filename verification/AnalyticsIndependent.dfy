/** Independent populations: scalar aggregates side by side, never one population joined
    to another. */
module AnalyticsIndependent {
  import opened Basics
  import opened AnalyticsPlan
  import opened AnalyticsData
  import opened AnalyticsSql
  import opened AnalyticsCompiler
  import opened AnalyticsMeaning
  import opened AnalyticsCorrectness
  import opened AnalyticsValidator
  import opened AnalyticsSoundness
  import AnalyticsService

  // ---- Compilation -------------------------------------------------------------------------------

  /** A child holds nothing but a population and its measures. */
  predicate Bare(p: Plan) {
    && p.dimensions == [] && p.metrics != [] && p.having == [] && p.orderBy == [] && p.limit.None?
    && !p.latestStatus && p.timeBucket.None? && p.assumptions == []
  }

  predicate FitsBudget(queries: seq<Plan>) {
    NoDuplicates(AllMetrics(queries)) && |AllMetrics(queries)| <= 6
  }

  /** The children in order; the first refused one refuses the whole plan. */
  function CompileChildren(queries: seq<Plan>, s: Snapshot, cal: Calendar): Result<seq<Query>> {
    hide Compile, Bare, FitsBudget;
    if queries == [] then Success([])
    else
      var before :- CompileChildren(queries[..|queries| - 1], s, cal);
      var p := queries[|queries| - 1];
      var _ :- Require(Bare(p), "Independent populations must be ungrouped aggregate queries");
      var query :- Compile(p, s, cal);
      var _ :- Require(FitsBudget(queries), "Independent outputs require unique metrics, at most six");
      Success(before + [query])
  }

  /** Each measure with the number of the population it comes from. */
  function ColumnsFrom(queries: seq<Plan>): seq<(nat, Metric)> {
    if queries == [] then []
    else
      var child := |queries| - 1;
      ColumnsFrom(queries[..child]) + Map(queries[child].metrics, (m: Metric) => (child, m))
  }

  function CompileIndependent(queries: seq<Plan>, s: Snapshot, cal: Calendar): Result<CrossJoin> {
    var _ :- Require(|queries| <= 4, "Expected bounded list");
    var _ :- Require(|queries| >= 2, "Independent aggregation requires two to four populations");
    var children :- CompileChildren(queries, s, cal);
    Success(CrossJoin(children, ColumnsFrom(queries)))
  }

  lemma {:induction false} ChildrenCompiled(queries: seq<Plan>, s: Snapshot, cal: Calendar)
    requires CompileChildren(queries, s, cal).Success?
    ensures var children := CompileChildren(queries, s, cal).value;
      && |children| == |queries|
      && forall i | 0 <= i < |queries| :: Bare(queries[i]) && Compile(queries[i], s, cal) == Success(children[i])
    ensures FitsBudget(queries)
  {
    hide Compile, Bare, AllMetrics;
    if queries == [] {
      assert FitsBudget([]) by { NoMetrics(); }
    } else {
      ChildrenCompiled(queries[..|queries| - 1], s, cal);
    }
  }

  lemma NoMetrics()
    ensures FitsBudget([])
  {
  }

  lemma {:induction false} FirstFailure(queries: seq<Plan>, i: nat, s: Snapshot, cal: Calendar)
    requires i <= |queries| && CompileChildren(queries[..i], s, cal).Failure?
    ensures CompileChildren(queries, s, cal) == CompileChildren(queries[..i], s, cal)
  {
    hide Compile, Bare, FitsBudget;
    if i == |queries| {
      assert queries[..i] == queries;
    } else {
      var front := queries[..|queries| - 1];
      assert front[..i] == queries[..i];
      FirstFailure(front, i, s, cal);
    }
  }

  // ---- The child loop ------------------------------------------------------------------------------

  method CompileIndependentPlan(queries: seq<Plan>, s: Snapshot, cal: Calendar) returns (r: Result<CrossJoin>)
    ensures r == CompileIndependent(queries, s, cal)
  {
    hide Compile, Bare, CompileChildren, ColumnsFrom, AllMetrics;
    if |queries| > 4 { return Failure("Expected bounded list"); }
    if |queries| < 2 { return Failure("Independent aggregation requires two to four populations"); }
    var columns: seq<(nat, Metric)>, sources: seq<Query>, seen: seq<Metric> := [], [], [];
    StartChildren(queries, s, cal);
    for index := 0 to |queries|
      invariant CompileChildren(queries[..index], s, cal) == Success(sources)
      invariant columns == ColumnsFrom(queries[..index]) && seen == AllMetrics(queries[..index])
    {
      var child := queries[index];
      NextChild(queries, index, s, cal);
      if !Bare(child) {
        FirstFailure(queries, index + 1, s, cal);
        return Failure("Independent populations must be ungrouped aggregate queries");
      }
      var compiled := AnalyticsService.CompilePlan(child, s, cal);
      if compiled.Failure? {
        FirstFailure(queries, index + 1, s, cal);
        return Failure(compiled.error);
      }
      seen := seen + child.metrics;
      if !NoDuplicates(seen) || |seen| > 6 {
        FirstFailure(queries, index + 1, s, cal);
        return Failure("Independent outputs require unique metrics, at most six");
      }
      columns := columns + Map(child.metrics, (m: Metric) => (index, m));
      sources := sources + [compiled.value];
    }
    assert queries[..|queries|] == queries;
    return Success(CrossJoin(sources, columns));
  }

  lemma StartChildren(queries: seq<Plan>, s: Snapshot, cal: Calendar)
    ensures CompileChildren(queries[..0], s, cal) == Success([])
    ensures ColumnsFrom(queries[..0]) == [] && AllMetrics(queries[..0]) == []
  {
  }

  lemma NextChild(queries: seq<Plan>, i: nat, s: Snapshot, cal: Calendar)
    requires i < |queries| && CompileChildren(queries[..i], s, cal).Success?
    ensures var now := queries[..i + 1];
      && AllMetrics(now) == AllMetrics(queries[..i]) + queries[i].metrics
      && ColumnsFrom(now) == ColumnsFrom(queries[..i]) + Map(queries[i].metrics, (m: Metric) => (i, m))
      && CompileChildren(now, s, cal) ==
         if !Bare(queries[i]) then Failure("Independent populations must be ungrouped aggregate queries")
         else if Compile(queries[i], s, cal).Failure? then Failure(Compile(queries[i], s, cal).error)
         else if !FitsBudget(now) then Failure("Independent outputs require unique metrics, at most six")
         else Success(CompileChildren(queries[..i], s, cal).value + [Compile(queries[i], s, cal).value])
  {
    hide Compile, Bare, FitsBudget;
    assert queries[..i + 1][..i] == queries[..i];
  }

  // ---- One row, each measure over its own population --------------------------------------------------

  lemma BareRow(p: Plan, s: Snapshot, cal: Calendar, db: Database, q: Query, out: seq<Row>)
    requires Bare(p) && Compile(p, s, cal) == Success(q) && db.Valid() && Answers(cal, db, q, out)
    ensures |out| == 1 && Shows(cal, db, p, out[0], Joined(None, None), Population(cal, db, p))
  {
    hide Compile, CompileFilters, CompileSuccess, CompileOrdering, CheckSelection, CheckWindow, Columns, GroupExprs,
      Base, LimitOf, Population, Sorted, Shows, Describes;
    CompileParts(p, s, cal, q);
    WindowChecked(p, s);
    BaseDescribes(p, s, cal, db, q);
    var rows := Base(cal, db, q.base);
    assert |rows| == 1 && Shows(cal, db, p, rows[0], Joined(None, None), Population(cal, db, p)) by {
      BareGroups(cal, db, p, rows);
    }
    assert q.having == [] && !q.latest;
    FilterAll(rows, (r: Row) => AndAll(Map(q.having, (h: HavingTest) => EvalHaving(rows, r, h))) == True);
    assert Candidates(cal, db, q) == rows;
    var all: seq<Row> :| multiset(all) == multiset(rows) && Sorted(cal, q.ordering, all) && out == Take(all, q.limit);
    assert |all| == |multiset(all)| == 1;
    assert all[0] in multiset(rows);
  }

  lemma BareGroups(cal: Calendar, db: Database, p: Plan, rows: seq<Row>)
    requires Bare(p) && Describes(cal, db, p, rows)
    ensures |rows| == 1 && Shows(cal, db, p, rows[0], Joined(None, None), Population(cal, db, p))
  {
    hide Population, Shows;
    assert GroupOutputs(p) == [];
  }

  lemma {:induction false} OneCombination(parts: seq<seq<Row>>, rows: seq<Row>)
    requires |parts| == |rows| && forall i | 0 <= i < |parts| :: parts[i] == [rows[i]]
    ensures Combinations(parts) == [rows]
  {
    if parts == [] {
      assert rows == [];
    } else {
      OneCombination(parts[1..], rows[1..]);
      assert [rows[0]] + rows[1..] == rows;
      assert Map([rows[1..]], (tail: seq<Row>) => [rows[0]] + tail) == [rows];
      var each := (r: Row) => Map(Combinations(parts[1..]), (tail: seq<Row>) => [r] + tail);
      assert Map(parts[0], each) == [each(rows[0])];
      assert Flatten([[rows]]) == [rows] + Flatten([]);
    }
  }

  predicate Carries(columns: seq<(nat, Metric)>,
          o: Output) { exists i | 0 <= i < |columns| :: o == Measure(columns[i].1) }

  lemma Held(row: Row, o: Output)
    requires o in row
    ensures At(row, o) == row[o]
  {
  }

  lemma CarriesMetric(queries: seq<Plan>, o: Output)
    ensures Carries(ColumnsFrom(queries), o) <==> o.Measure? && o.metric in AllMetrics(queries)
  {
    hide ColumnsFrom, AllMetrics;
    ColumnsListed(queries);
    var columns, metrics := ColumnsFrom(queries), AllMetrics(queries);
    if k :| 0 <= k < |columns| && o == Measure(columns[k].1) { assert metrics[k] == o.metric; }
    if o.Measure? && o.metric in metrics {
      var k :| 0 <= k < |metrics| && metrics[k] == o.metric;
      assert o == Measure(columns[k].1);
    }
  }

  lemma {:induction false} SpreadCells(rows: seq<Row>, columns: seq<(nat, Metric)>)
    requires forall i, j | 0 <= i < j < |columns| :: columns[i].1 != columns[j].1
    requires forall i | 0 <= i < |columns| :: columns[i].0 < |rows|
    ensures var row := Spread(rows, columns);
      && (forall o :: o in row <==> Carries(columns, o))
      && (forall i | 0 <= i < |columns| :: Measure(columns[i].1) in row
            && row[Measure(columns[i].1)] == At(rows[columns[i].0], Measure(columns[i].1)))
  {
    hide At;
    if columns != [] {
      var front := columns[..|columns| - 1];
      assert forall i | 0 <= i < |front| :: front[i] == columns[i];
      SpreadCells(rows, front);
    }
  }

  /** The columns carry the measures in order, each with its own population. */
  lemma {:induction false} ColumnsListed(queries: seq<Plan>)
    ensures var columns := ColumnsFrom(queries);
      && |columns| == |AllMetrics(queries)|
      && (forall k | 0 <= k < |columns| :: columns[k].1 == AllMetrics(queries)[k] && columns[k].0 < |queries|)
  {
    if queries != [] {
      ColumnsListed(queries[..|queries| - 1]);
    }
  }

  lemma {:induction false} ColumnOf(queries: seq<Plan>, i: nat, m: Metric) returns (k: nat)
    requires i < |queries| && m in queries[i].metrics
    ensures k < |ColumnsFrom(queries)| && ColumnsFrom(queries)[k] == (i, m)
  {
    var child := |queries| - 1;
    if i < child {
      k := ColumnOf(queries[..child], i, m);
    } else {
      var j :| 0 <= j < |queries[i].metrics| && queries[i].metrics[j] == m;
      k := |ColumnsFrom(queries[..child])| + j;
    }
  }

  /** The first rows of some results. */
  function Firsts(parts: seq<seq<Row>>): (rows: seq<Row>)
    ensures |rows| == |parts|
    ensures forall i | 0 <= i < |parts| && |parts[i]| == 1 :: parts[i] == [rows[i]]
  {
    Map(parts, (part: seq<Row>) => if part == [] then map[] else part[0])
  }

  lemma PartRows(queries: seq<Plan>, s: Snapshot, cal: Calendar, db: Database, c: CrossJoin,
          parts: seq<seq<Row>>) returns (rows: seq<Row>)
    requires CompileIndependent(queries, s, cal) == Success(c) && db.Valid()
    requires |parts| == |c.children| && forall i | 0 <= i < |parts| :: Answers(cal, db, c.children[i], parts[i])
    ensures |rows| == |parts| == |queries| && forall i | 0 <= i < |rows| :: parts[i] == [rows[i]]
    ensures forall i | 0 <= i < |rows| ::
      Shows(cal, db, queries[i], rows[i], Joined(None, None), Population(cal, db, queries[i]))
  {
    hide Answers, Shows, Population, Compile, Bare, FitsBudget, CompileChildren, ColumnsFrom, Firsts;
    ChildrenCompiled(queries, s, cal);
    forall i | 0 <= i < |parts|
      ensures |parts[i]| == 1
        && Shows(cal, db, queries[i], parts[i][0], Joined(None, None), Population(cal, db, queries[i]))
    {
      BareRow(queries[i], s, cal, db, c.children[i], parts[i]);
    }
    rows := Firsts(parts);
  }

  lemma CrossRow(queries: seq<Plan>, s: Snapshot, cal: Calendar, db: Database, c: CrossJoin,
          out: seq<Row>) returns (rows: seq<Row>)
    requires CompileIndependent(queries, s, cal) == Success(c) && db.Valid() && AnswersCross(cal, db, c, out)
    ensures c.columns == ColumnsFrom(queries) && NoDuplicates(AllMetrics(queries))
    ensures |rows| == |queries| && out == [Spread(rows, c.columns)]
    ensures forall i | 0 <= i < |rows| ::
      Shows(cal, db, queries[i], rows[i], Joined(None, None), Population(cal, db, queries[i]))
  {
    hide Answers, Population, Compile, Bare, CompileChildren, ColumnsFrom, AllMetrics, Spread, Combinations, Shows;
    var parts: seq<seq<Row>> :|
      && |parts| == |c.children|
      && (forall i | 0 <= i < |parts| :: Answers(cal, db, c.children[i], parts[i]))
      && out == Map(Combinations(parts), (rows: seq<Row>) => Spread(rows, c.columns));
    ChildrenCompiled(queries, s, cal);
    rows := PartRows(queries, s, cal, db, c, parts);
    OneCombination(parts, rows);
  }

  lemma SpreadMeasures(queries: seq<Plan>, rows: seq<Row>)
    requires |rows| == |queries| && NoDuplicates(AllMetrics(queries))
    ensures var row := Spread(rows, ColumnsFrom(queries));
      && (forall o :: o in row <==> o.Measure? && o.metric in AllMetrics(queries))
      && (forall i, m | 0 <= i < |queries| && m in queries[i].metrics :: At(row, Measure(m)) == At(rows[i], Measure(m)))
  {
    hide ColumnsFrom, AllMetrics, Spread, At, Carries;
    var columns, row := ColumnsFrom(queries), Spread(rows, ColumnsFrom(queries));
    ColumnsListed(queries);
    SpreadCells(rows, columns);
    forall o ensures o in row <==> o.Measure? && o.metric in AllMetrics(queries) { CarriesMetric(queries, o); }
    forall i, m | 0 <= i < |queries| && m in queries[i].metrics ensures At(row, Measure(m)) == At(rows[i], Measure(m)) {
      var k := ColumnOf(queries, i, m);
      assert At(row, Measure(columns[k].1)) == row[Measure(columns[k].1)] by { Held(row, Measure(columns[k].1)); }
    }
  }

  /** The combined result is one row. Every measure in it is the measure over its own
      population, whatever the other populations hold. */
  lemma IndependentCorrect(queries: seq<Plan>, s: Snapshot, cal: Calendar, db: Database, c: CrossJoin, out: seq<Row>)
    requires CompileIndependent(queries, s, cal) == Success(c) && db.Valid()
    requires AnswersCross(cal, db, c, out)
    ensures |out| == 1
    ensures forall o :: o in out[0] <==> o.Measure? && o.metric in AllMetrics(queries)
    ensures forall i, m | 0 <= i < |queries| && m in queries[i].metrics ::
      At(out[0], Measure(m)) == MetricOf(cal, db, queries[i].entity, m, Population(cal, db, queries[i]))
  {
    hide Population, CompileIndependent, ColumnsFrom, AllMetrics, Spread, MetricOf, GroupOutputs, GroupValue,
      AnswersCross;
    var rows := CrossRow(queries, s, cal, db, c, out);
    SpreadMeasures(queries, rows);
    forall i, m | 0 <= i < |queries| && m in queries[i].metrics
      ensures At(out[0], Measure(m)) == MetricOf(cal, db, queries[i].entity, m, Population(cal, db, queries[i]))
    {
      assert rows[i][Measure(m)] == MetricOf(cal, db, queries[i].entity, m, Population(cal, db, queries[i]));
    }
  }

  // ---- The result passes the check -------------------------------------------------------------------------

  lemma ChildSound(p: Plan, s: Snapshot, cal: Calendar, db: Database, q: Query, row: Row)
    requires Bare(p) && Compile(p, s, cal) == Success(q)
    requires Shows(cal, db, p, row, Joined(None, None), Population(cal, db, p))
    ensures MeasuresSound(p.metrics, row) && AveragesExplained(p)
  {
    hide Compile, CheckSelection, CheckWindow, Shows, Population, MeasuresSound, QueryOf, CompileFilters,
      CompileSuccess, CompileHavings, CompileOrdering;
    CompileParts(p, s, cal, q);
    SelectionChecked(p, s);
    AverageChecked(p, s);
    ShownSound(cal, db, p, row, Joined(None, None), Population(cal, db, p));
  }

  /** The population that a measure comes from. */
  lemma {:induction false} ChildOf(queries: seq<Plan>, m: Metric) returns (i: nat)
    requires m in AllMetrics(queries)
    ensures i < |queries| && m in queries[i].metrics
  {
    var child := |queries| - 1;
    if m in queries[child].metrics {
      i := child;
    } else {
      i := ChildOf(queries[..child], m);
    }
  }

  lemma SpreadSound(queries: seq<Plan>, rows: seq<Row>, row: Row)
    requires |rows| == |queries|
    requires forall i, m | 0 <= i < |queries| && m in queries[i].metrics ::
      At(row, Measure(m)) == At(rows[i], Measure(m))
    requires forall i | 0 <= i < |queries| ::
      MeasuresSound(queries[i].metrics, rows[i]) && AveragesExplained(queries[i])
    ensures MeasuresSound(AllMetrics(queries), row)
  {
    hide At, AllMetrics;
    var metrics := AllMetrics(queries);
    forall k | 0 <= k < |metrics| && Counts(metrics[k]) ensures CountSound(row, metrics[k]) {
      var i := ChildOf(queries, metrics[k]);
      var j :| 0 <= j < |queries[i].metrics| && queries[i].metrics[j] == metrics[k];
      assert CountSound(rows[i], queries[i].metrics[j]);
    }
    if RecoveryRatePercent in metrics {
      var i := ChildOf(queries, RecoveryRatePercent);
      assert RateSound(rows[i]);
    }
    if AvgDurationMinutes in metrics {
      var i := ChildOf(queries, AvgDurationMinutes);
      assert MatchedCount in DURATION && ValidDurationCount in DURATION && ExcludedDurationCount in DURATION;
      assert DurationSound(rows[i]);
    }
  }

  lemma OneRowSound(queries: seq<Plan>, row: Row)
    requires NoDuplicates(AllMetrics(queries)) && MeasuresSound(AllMetrics(queries), row)
    ensures Sound(Independent(queries), ExecutedRows(Expected(Independent(queries)), [row]))
  {
    hide AllMetrics, MeasuresSound, ShapeSound;
    assert NoDuplicates(Expected(Independent(queries)));
    ExecutedShape(Independent(queries), [row]);
  }

  lemma CrossSound(queries: seq<Plan>, s: Snapshot, cal: Calendar, db: Database, c: CrossJoin, rows: seq<Row>, i: nat)
    requires CompileIndependent(queries, s, cal) == Success(c) && i < |queries| == |rows|
    requires Shows(cal, db, queries[i], rows[i], Joined(None, None), Population(cal, db, queries[i]))
    ensures MeasuresSound(queries[i].metrics, rows[i]) && AveragesExplained(queries[i])
  {
    hide Population, Compile, Bare, CompileChildren, AllMetrics, Shows, MeasuresSound, AveragesExplained;
    ChildrenCompiled(queries, s, cal);
    ChildSound(queries[i], s, cal, db, c.children[i], rows[i]);
  }

  /** Every result of a compiled independent plan passes the check after execution. */
  lemma IndependentAccepted(queries: seq<Plan>, s: Snapshot, cal: Calendar, db: Database, c: CrossJoin, out: seq<Row>)
    requires CompileIndependent(queries, s, cal) == Success(c) && db.Valid()
    requires AnswersCross(cal, db, c, out)
    ensures Sound(Independent(queries), ExecutedRows(Expected(Independent(queries)), out))
  {
    hide Population, CompileIndependent, ColumnsFrom, AllMetrics, Spread, Shows, AnswersCross, MeasuresSound,
      AveragesExplained, Sound, Expected, ExecutedRows, At;
    var rows := CrossRow(queries, s, cal, db, c, out);
    SpreadMeasures(queries, rows);
    forall i | 0 <= i < |queries| ensures MeasuresSound(queries[i].metrics, rows[i]) && AveragesExplained(queries[i]) {
      CrossSound(queries, s, cal, db, c, rows, i);
    }
    SpreadSound(queries, rows, out[0]);
    OneRowSound(queries, out[0]);
  }
}
