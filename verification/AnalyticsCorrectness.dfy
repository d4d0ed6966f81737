/** The compiled query answers the plan: its groups, measures, conditions and latest
    statuses are those of the plan's direct meaning. */
module AnalyticsCorrectness {
  import opened Basics
  import opened AnalyticsPlan
  import opened AnalyticsData
  import opened AnalyticsSql
  import opened AnalyticsCompiler
  import opened AnalyticsMeaning
  import opened AnalyticsPopulation
  import opened AnalyticsMetrics
  import opened AnalyticsLatest

  // ---- Projected rows -----------------------------------------------------------------------

  lemma {:induction false} ProjectCells(cal: Calendar, db: Database, rows: seq<Joined>, columns: seq<Selected>)
    requires forall i, j | 0 <= i < j < |columns| :: columns[i].output != columns[j].output
    ensures var row := Project(cal, db, rows, columns);
      && (forall o :: o in row <==> exists i | 0 <= i < |columns| :: columns[i].output == o)
      && (forall i | 0 <= i < |columns| ::
            columns[i].output in row && row[columns[i].output] == Cell(cal, db, rows, columns[i]))
  {
    hide Cell;
    if columns != [] {
      var front := columns[..|columns| - 1];
      assert forall i | 0 <= i < |front| :: front[i] == columns[i];
      ProjectCells(cal, db, rows, front);
    }
  }

  /** The selected columns are the group outputs, then the measures. */
  lemma ColumnsShape(p: Plan)
    ensures |Columns(p)| == |GroupOutputs(p)| + |p.metrics|
    ensures |GroupExprs(p)| == |GroupOutputs(p)|
    ensures forall i | 0 <= i < |GroupOutputs(p)| :: Columns(p)[i] == Scalar(GroupOutputs(p)[i], GroupExprs(p)[i])
    ensures forall i | 0 <= i < |p.metrics| ::
      Columns(p)[|GroupOutputs(p)| + i] == Aggregated(Measure(p.metrics[i]), AggregateOf(p.metrics[i], p.entity))
  {
    hide AggregateOf;
  }

  lemma GroupCell(cal: Calendar, db: Database, p: Plan, row: Joined, i: nat)
    requires i < |GroupOutputs(p)| && |GroupExprs(p)| == |GroupOutputs(p)|
    ensures EvalExpr(cal, db, row, GroupExprs(p)[i]) == GroupValue(cal, p, row, GroupOutputs(p)[i])
    ensures !GroupOutputs(p)[i].Measure? && !GroupOutputs(p)[i].LatestStatus?
  {
    hide ValueOf, AnalyticsData.BucketOf;
  }

  ghost predicate Compiled(p: Plan) {
    && NoDuplicates(p.dimensions)
    && NoDuplicates(p.metrics)
    && forall m | m in p.metrics :: Measures(m, p.entity)
  }

  lemma GroupOutputsDistinct(p: Plan)
    requires Compiled(p)
    ensures NoDuplicates(GroupOutputs(p))
  {
  }

  lemma NoMeasures(p: Plan)
    ensures forall i | 0 <= i < |GroupOutputs(p)| :: !GroupOutputs(p)[i].Measure? && !GroupOutputs(p)[i].LatestStatus?
  {
  }

  lemma ColumnOutputs(p: Plan)
    ensures |Columns(p)| == |GroupOutputs(p)| + |p.metrics|
    ensures forall i | 0 <= i < |Columns(p)| ::
      Columns(p)[i].output == if i < |GroupOutputs(p)| then GroupOutputs(p)[i]
        else Measure(p.metrics[i - |GroupOutputs(p)|])
  {
    hide AggregateOf, Columns, GroupExprs, GroupOutputs;
    ColumnsShape(p);
    forall i | |GroupOutputs(p)| <= i < |Columns(p)|
      ensures Columns(p)[i].output == Measure(p.metrics[i - |GroupOutputs(p)|])
    {
      assert Columns(p)[|GroupOutputs(p)| + (i - |GroupOutputs(p)|)].output
        == Measure(p.metrics[i - |GroupOutputs(p)|]);
    }
  }

  lemma ColumnsDistinct(p: Plan)
    requires Compiled(p)
    ensures forall i, j | 0 <= i < j < |Columns(p)| :: Columns(p)[i].output != Columns(p)[j].output
  {
    hide Columns, GroupOutputs;
    ColumnOutputs(p);
    GroupOutputsDistinct(p);
    NoMeasures(p);
  }

  /** The output is selected: it stands for a group value or a chosen measure. */
  predicate Shown(p: Plan, o: Output) { o in GroupOutputs(p) || (o.Measure? && o.metric in p.metrics) }

  lemma SelectedOutputs(p: Plan, o: Output)
    ensures Shown(p, o) <==> exists i | 0 <= i < |Columns(p)| :: Columns(p)[i].output == o
  {
    hide Columns, GroupOutputs;
    ColumnOutputs(p);
    var columns, outputs := Columns(p), GroupOutputs(p);
    if o in outputs {
      var i :| 0 <= i < |outputs| && outputs[i] == o;
      assert columns[i].output == o;
    }
    if o.Measure? && o.metric in p.metrics {
      var i :| 0 <= i < |p.metrics| && p.metrics[i] == o.metric;
      assert columns[|outputs| + i].output == o;
    }
  }

  lemma ProjectKeys(cal: Calendar, db: Database, p: Plan, rows: seq<Joined>)
    requires Compiled(p)
    ensures forall o :: o in Project(cal, db, rows, Columns(p)) <==> Shown(p, o)
  {
    hide Columns, Project, Shown;
    ColumnsDistinct(p);
    ProjectCells(cal, db, rows, Columns(p));
    forall o ensures o in Project(cal, db, rows, Columns(p)) <==> Shown(p, o) { SelectedOutputs(p, o); }
  }

  lemma ProjectGroup(cal: Calendar, db: Database, p: Plan, rows: seq<Joined>, o: Output)
    requires Compiled(p) && o in GroupOutputs(p) && rows != []
    ensures var row := Project(cal, db, rows, Columns(p)); o in row && row[o] == GroupValue(cal, p, rows[0], o)
  {
    hide Columns, GroupOutputs, GroupExprs, AggregateOf, Project, GroupValue, EvalExpr, EvalAggregate;
    ColumnsShape(p);
    ColumnsDistinct(p);
    ProjectCells(cal, db, rows, Columns(p));
    var i :| 0 <= i < |GroupOutputs(p)| && GroupOutputs(p)[i] == o;
    assert Columns(p)[i] == Scalar(o, GroupExprs(p)[i]);
    GroupCell(cal, db, p, rows[0], i);
  }

  lemma ProjectMeasure(cal: Calendar, db: Database, p: Plan, rows: seq<Joined>, m: Metric)
    requires db.Valid() && Compiled(p) && Members(db, p.entity, rows) && m in p.metrics
    ensures var row := Project(cal, db, rows, Columns(p));
      Measure(m) in row && row[Measure(m)] == MetricOf(cal, db, p.entity, m, rows)
  {
    hide Columns, GroupOutputs, GroupExprs, AggregateOf, Project, Members, EvalExpr, EvalAggregate, MetricOf, Measures;
    ColumnsShape(p);
    ColumnsDistinct(p);
    ProjectCells(cal, db, rows, Columns(p));
    var i :| 0 <= i < |p.metrics| && p.metrics[i] == m;
    assert Columns(p)[|GroupOutputs(p)| + i] == Aggregated(Measure(m), AggregateOf(m, p.entity));
    AggregateMeans(cal, db, p.entity, m, rows);
  }

  /** A projected group shows its members' common values and the measures over them. */
  lemma ProjectShows(cal: Calendar, db: Database, p: Plan, sample: Joined, rows: seq<Joined>)
    requires db.Valid() && Compiled(p) && Members(db, p.entity, rows)
    requires GroupOutputs(p) != [] ==> rows != [] && SameGroup(cal, p, rows[0], sample)
    ensures Shows(cal, db, p, Project(cal, db, rows, Columns(p)), sample, rows)
  {
    hide Columns, Members, GroupOutputs, GroupValue, MetricOf, Project, Compiled;
    ProjectKeys(cal, db, p, rows);
    var row := Project(cal, db, rows, Columns(p));
    forall o | o in GroupOutputs(p) ensures row[o] == GroupValue(cal, p, sample, o) {
      ProjectGroup(cal, db, p, rows, o);
    }
    forall m | m in p.metrics ensures row[Measure(m)] == MetricOf(cal, db, p.entity, m, rows) {
      ProjectMeasure(cal, db, p, rows, m);
    }
  }

  // ---- Grouping -------------------------------------------------------------------------------

  lemma KeysAgree(cal: Calendar, db: Database, p: Plan, a: Joined, b: Joined)
    ensures (KeyOf(cal, db, a, GroupExprs(p)) == KeyOf(cal, db, b, GroupExprs(p))) == SameGroup(cal, p, a, b)
  {
    hide GroupOutputs, GroupExprs, GroupValue, EvalExpr;
    ColumnsShape(p);
    var x, y := KeyOf(cal, db, a, GroupExprs(p)), KeyOf(cal, db, b, GroupExprs(p));
    forall i | 0 <= i < |GroupOutputs(p)|
      ensures x[i] == GroupValue(cal, p, a, GroupOutputs(p)[i]) && y[i] == GroupValue(cal, p, b, GroupOutputs(p)[i])
    {
      GroupCell(cal, db, p, a, i);
      GroupCell(cal, db, p, b, i);
    }
    if x == y {
      forall o | o in GroupOutputs(p) ensures GroupValue(cal, p, a, o) == GroupValue(cal, p, b, o) {
        var i :| 0 <= i < |GroupOutputs(p)| && GroupOutputs(p)[i] == o;
        assert x[i] == y[i];
      }
    }
    if SameGroup(cal, p, a, b) {
      forall i | 0 <= i < |x| ensures x[i] == y[i] { assert GroupOutputs(p)[i] in GroupOutputs(p); }
    }
  }

  function KeyMembers(cal: Calendar, db: Database, p: Plan, rows: seq<Joined>, key: seq<Value>): seq<Joined> {
    Filter(rows, (r: Joined) => KeyOf(cal, db, r, GroupExprs(p)) == key)
  }

  /** The row of a key is the row of the group of any member with that key. */
  lemma KeyRow(cal: Calendar, db: Database, p: Plan, sample: Joined)
    requires db.Valid() && Compiled(p)
    requires sample in Population(cal, db, p)
    ensures ShowsGroup(cal, db, p,
      Project(cal, db, KeyMembers(cal, db, p, Population(cal, db, p), KeyOf(cal, db, sample, GroupExprs(p))),
              Columns(p)),
      sample)
  {
    hide Columns, GroupExprs, KeyOf, Population, SameGroup, Members, Project, Shows, Filter, Compiled;
    var rows, key := Population(cal, db, p), KeyOf(cal, db, sample, GroupExprs(p));
    var same := (r: Joined) => KeyOf(cal, db, r, GroupExprs(p)) == key;
    var keep := (r: Joined) => SameGroup(cal, p, r, sample);
    forall r | r in rows ensures same(r) == keep(r) { KeysAgree(cal, db, p, r, sample); }
    FilterAgrees(rows, same, keep);
    assert KeyMembers(cal, db, p, rows, key) == GroupOf(cal, db, p, sample);
    PopulationMembers(cal, db, p);
    FilterKeepsMembers(db, p.entity, rows, keep);
    FilterMember(rows, keep, sample);
    assert keep(sample) by { KeysAgree(cal, db, p, sample, sample); }
    var members := GroupOf(cal, db, p, sample);
    assert members != [];
    assert members[0] in members;
    FilterMember(rows, keep, members[0]);
    ProjectShows(cal, db, p, sample, members);
  }

  function GroupRows(cal: Calendar, db: Database, p: Plan, rows: seq<Joined>): seq<Row> {
    Map(Distinct(Map(rows, (r: Joined) => KeyOf(cal, db, r, GroupExprs(p)))), (key: seq<Value>) =>
      Project(cal, db, KeyMembers(cal, db, p, rows, key), Columns(p)))
  }

  function Keys(cal: Calendar, db: Database, p: Plan, rows: seq<Joined>): seq<seq<Value>> {
    Map(rows, (r: Joined) => KeyOf(cal, db, r, GroupExprs(p)))
  }

  lemma RowHasMember(cal: Calendar, db: Database, p: Plan, i: nat) returns (k: nat)
    requires db.Valid() && Compiled(p)
    requires i < |GroupRows(cal, db, p, Population(cal, db, p))|
    ensures var members := Population(cal, db, p);
      && k < |members| && |GroupRows(cal, db, p, members)| == |Distinct(Keys(cal, db, p, members))|
      && KeyOf(cal, db, members[k], GroupExprs(p)) == Distinct(Keys(cal, db, p, members))[i]
      && ShowsGroup(cal, db, p, GroupRows(cal, db, p, members)[i], members[k])
  {
    hide Columns, GroupExprs, KeyOf, Population, Project, ShowsGroup, KeyMembers, Compiled;
    var keyed := Keys(cal, db, p, Population(cal, db, p));
    assert Distinct(keyed)[i] in keyed;
    k :| 0 <= k < |keyed| && keyed[k] == Distinct(keyed)[i];
    KeyRow(cal, db, p, Population(cal, db, p)[k]);
  }

  lemma MemberHasRow(cal: Calendar, db: Database, p: Plan, k: nat) returns (i: nat)
    requires db.Valid() && Compiled(p)
    requires k < |Population(cal, db, p)|
    ensures var members := Population(cal, db, p);
      && i < |GroupRows(cal, db, p, members)|
      && ShowsGroup(cal, db, p, GroupRows(cal, db, p, members)[i], members[k])
  {
    hide Columns, GroupExprs, KeyOf, Population, Project, ShowsGroup, KeyMembers, Compiled;
    var keyed := Keys(cal, db, p, Population(cal, db, p));
    assert keyed[k] in Distinct(keyed);
    i :| 0 <= i < |Distinct(keyed)| && Distinct(keyed)[i] == keyed[k];
    KeyRow(cal, db, p, Population(cal, db, p)[k]);
  }

  lemma GroupsApart(cal: Calendar, db: Database, p: Plan, i: nat, j: nat)
    requires db.Valid() && Compiled(p)
    requires i < j < |GroupRows(cal, db, p, Population(cal, db, p))|
    ensures var rows := GroupRows(cal, db, p, Population(cal, db, p));
      Apart(p, rows[i], rows[j])
  {
    hide GroupExprs, KeyOf, Population, ShowsGroup, Compiled, GroupRows, SameGroup, Apart, Keys;
    var a := RowHasMember(cal, db, p, i);
    var b := RowHasMember(cal, db, p, j);
    var members := Population(cal, db, p);
    var rows := GroupRows(cal, db, p, members);
    KeysAgree(cal, db, p, members[a], members[b]);
    ShownApart(cal, db, p, rows[i], rows[j], members[a], members[b]);
  }

  lemma GroupsListed(cal: Calendar, db: Database, p: Plan)
    requires db.Valid() && Compiled(p)
    ensures ListsGroups(cal, db, p, GroupRows(cal, db, p, Population(cal, db, p)), Population(cal, db, p))
  {
    hide Population, ShowsGroup, GroupRows, Compiled, Apart;
    var members := Population(cal, db, p);
    var rows := GroupRows(cal, db, p, members);
    forall i | 0 <= i < |rows| ensures HasMember(cal, db, p, rows[i], members) {
      var k := RowHasMember(cal, db, p, i);
    }
    forall k | 0 <= k < |members| ensures HasRow(cal, db, p, rows, members[k]) {
      var i := MemberHasRow(cal, db, p, k);
    }
    forall i, j | 0 <= i < j < |rows| ensures Apart(p, rows[i], rows[j]) {
      GroupsApart(cal, db, p, i, j);
    }
  }

  lemma ShownApart(cal: Calendar, db: Database, p: Plan, x: Row, y: Row, a: Joined, b: Joined)
    requires ShowsGroup(cal, db, p, x, a) && ShowsGroup(cal, db, p, y, b) && !SameGroup(cal, p, a, b)
    ensures Apart(p, x, y)
  {
    hide GroupOutputs, GroupValue, GroupOf, MetricOf;
    var o :| o in GroupOutputs(p) && GroupValue(cal, p, a, o) != GroupValue(cal, p, b, o);
    assert At(x, o) != At(y, o);
  }

  lemma MembersListed(cal: Calendar, db: Database, p: Plan, rows: seq<Row>)
    requires db.Valid() && Compiled(p)
    requires rows == Map(Population(cal, db, p), (r: Joined) => Project(cal, db, [r], Columns(p)))
    ensures ListsMembers(cal, db, p, rows, Population(cal, db, p))
  {
    hide Columns, Population, Project, Shows, Members, Compiled;
    PopulationMembers(cal, db, p);
    var members := Population(cal, db, p);
    forall i | 0 <= i < |rows| ensures Shows(cal, db, p, rows[i], members[i], [members[i]]) {
      assert Members(db, p.entity, [members[i]]) by { OneMember(db, p.entity, members, i); }
      assert SameGroup(cal, p, members[i], members[i]);
      ProjectShows(cal, db, p, members[i], [members[i]]);
    }
  }

  lemma OneMember(db: Database, e: Entity, members: seq<Joined>, i: nat)
    requires Members(db, e, members) && i < |members|
    ensures Members(db, e, [members[i]])
  {
    assert members[i] in members;
  }

  // ---- The base rows ----------------------------------------------------------------------------

  lemma SelectionChecked(p: Plan, s: Snapshot)
    requires CheckSelection(p, s).Success?
    ensures Compiled(p) && (p.dimensions == [] ==> p.metrics != [])
  {
    hide Snapshot.Available, Snapshot.Measurable, Measures;
  }

  lemma WindowChecked(p: Plan, s: Snapshot)
    requires CheckWindow(p, s).Success?
    ensures (p.timeBucket.Some? ==> p.metrics != []) && RanksByRoot(p) && 1 <= LimitOf(p, s) <= s.rowLimit
  {
    hide KnowsStatus, RanksByRoot, LimitOf;
  }

  /** What a successful compilation has checked and built. */
  lemma CompileParts(p: Plan, s: Snapshot, cal: Calendar, q: Query)
    requires Compile(p, s, cal) == Success(q)
    ensures CheckSelection(p, s).Success? && CheckWindow(p, s).Success?
    ensures CompileFilters(p, s, cal).Success? && CompileSuccess(p, s).Success? && CompileHavings(p).Success?
      && CompileOrdering(p).Success?
    ensures q == QueryOf(p, s, CompileFilters(p, s, cal).value, CompileSuccess(p, s).value, CompileHavings(p).value,
      CompileOrdering(p).value)
  {
    hide CheckSelection, CheckWindow, CompileFilters, CompileSuccess, CheckSources, CheckColumns, CompileHavings,
      CompileOrdering, CheckAssumptions, QueryOf;
  }

  lemma AggregatesIff(p: Plan)
    ensures (exists c | c in Columns(p) :: c.Aggregated?) == (p.metrics != [])
  {
    hide Columns, GroupExprs, GroupOutputs, AggregateOf;
    ColumnsShape(p);
    if p.metrics != [] {
      var i := |GroupOutputs(p)|;
      assert Columns(p)[i + 0] == Aggregated(Measure(p.metrics[0]), AggregateOf(p.metrics[0], p.entity));
      assert Columns(p)[i] in Columns(p);
    }
  }

  /** The base rows in terms of the plan's population. */
  lemma BaseRows(p: Plan, s: Snapshot, cal: Calendar, db: Database, q: Query)
    requires Compile(p, s, cal) == Success(q) && db.Valid()
    ensures Compiled(p)
    ensures Base(cal, db, q.base) ==
      if p.metrics == [] then Map(Population(cal, db, p), (r: Joined) => Project(cal, db, [r], Columns(p)))
      else if GroupOutputs(p) == [] then [Project(cal, db, Population(cal, db, p), Columns(p))]
      else GroupRows(cal, db, p, Population(cal, db, p))
  {
    hide CompileFilters, CompileSuccess, CompileHavings, CompileOrdering, Compile, Columns, GroupExprs, Population,
      KeyOf, EvalWhere, Source, Project, Filter, GroupOutputs, LimitOf, RanksByRoot, CheckSelection, CheckWindow,
      Distinct;
    CompileParts(p, s, cal, q);
    SelectionChecked(p, s);
    var user, system := CompileFilters(p, s, cal).value, CompileSuccess(p, s).value;
    RowsArePopulation(p, s, cal, db, user, system);
    assert Filter(Source(db, q.base.entity), (r: Joined) => EvalWhere(cal, r, q.base.where) == True)
      == Population(cal, db, p);
    AggregatesIff(p);
    assert Aggregates(q.base) == (p.metrics != []);
    ColumnsShape(p);
  }

  /** The compiled base query computes exactly the plan's groups and measures. */
  lemma BaseDescribes(p: Plan, s: Snapshot, cal: Calendar, db: Database, q: Query)
    requires Compile(p, s, cal) == Success(q) && db.Valid()
    ensures Describes(cal, db, p, Base(cal, db, q.base))
  {
    hide Compile, Columns, Population, Base, Project, ListsGroups, ListsMembers, GroupOutputs, Shows, GroupRows,
      Compiled;
    BaseRows(p, s, cal, db, q);
    var members := Population(cal, db, p);
    if p.metrics == [] {
      MembersListed(cal, db, p, Map(members, (r: Joined) => Project(cal, db, [r], Columns(p))));
    } else if GroupOutputs(p) == [] {
      PopulationMembers(cal, db, p);
      ProjectShows(cal, db, p, Joined(None, None), members);
    } else {
      GroupsListed(cal, db, p);
    }
  }

  // ---- Conditions on groups ----------------------------------------------------------------------

  lemma MetricsAreNumbers(cal: Calendar, db: Database, e: Entity, m: Metric, members: seq<Joined>)
    ensures !MetricOf(cal, db, e, m, members).Text?
  {
  }

  /** No measure of a described row is text. */
  lemma MeasuredNumbers(cal: Calendar, db: Database, p: Plan, groups: seq<Row>, m: Metric)
    requires Describes(cal, db, p, groups) && m in p.metrics
    ensures forall i | 0 <= i < |groups| :: !At(groups[i], Measure(m)).Text?
  {
    hide Population, GroupOf, MetricOf, GroupOutputs, DistinctGroups;
    forall i | 0 <= i < |groups| ensures !At(groups[i], Measure(m)).Text? {
      var members: seq<Joined>;
      if GroupOutputs(p) == [] {
        members := Population(cal, db, p);
      } else {
        assert HasMember(cal, db, p, groups[i], Population(cal, db, p));
        var k :| 0 <= k < |Population(cal, db, p)| && ShowsGroup(cal, db, p, groups[i], Population(cal, db, p)[k]);
        members := GroupOf(cal, db, p, Population(cal, db, p)[k]);
      }
      assert groups[i][Measure(m)] == MetricOf(cal, db, p.entity, m, members);
      MetricsAreNumbers(cal, db, p.entity, m, members);
    }
  }

  lemma NumbersCompare(op: Operator, a: Value, b: Value)
    requires Numeric(a) && Numeric(b)
    ensures (Compare(op, a, b) == True) == Relates(op, Number(a) < Number(b), Number(b) < Number(a))
  {
  }

  lemma MeanMeans(groups: seq<Row>, m: Metric)
    requires forall i | 0 <= i < |groups| :: !At(groups[i], Measure(m)).Text?
    ensures Mean(groups, m) == (match PopulationMean(groups, m) case Some(x) => Real(x) case None => Null)
  {
    hide Filter, Total;
    var values := Map(groups, (r: Row) => At(r, Measure(m)));
    forall v | v in values ensures (v != Null) == Numeric(v) {
      var i :| 0 <= i < |values| && values[i] == v;
    }
    FilterAgrees(values, (v: Value) => v != Null, (v: Value) => Numeric(v));
  }

  lemma HavingShape(p: Plan, h: Having)
    requires CompileHaving(p, h).Success?
    ensures CompileHaving(p, h).value ==
      if h.compareTo.Some? then AgainstMean(h.metric, h.op)
      else match h.value
        case Some(Whole(n)) => AgainstValue(h.metric, h.op, Int(n))
        case Some(Decimal(x)) => AgainstValue(h.metric, h.op, Real(x))
        case _ => AgainstMean(h.metric, h.op)
    ensures h.compareTo.None? ==> h.value.Some? && (h.value.value.Whole? || h.value.value.Decimal?)
  {
    hide GroupOutputs;
  }

  /** A compiled condition keeps a group exactly when its measure stands in the asked
      relation to the number, or to the mean over all groups. */
  lemma HavingMeans(p: Plan, groups: seq<Row>, row: Row, h: Having)
    requires CompileHaving(p, h).Success?
    requires forall i | 0 <= i < |groups| :: !At(groups[i], Measure(h.metric)).Text?
    requires !At(row, Measure(h.metric)).Text?
    ensures (EvalHaving(groups, row, CompileHaving(p, h).value) == True) == Passes(groups, row, h)
  {
    hide Mean, PopulationMean, Compare, CompileHaving, At;
    HavingShape(p, h);
    var v := At(row, Measure(h.metric));
    MeanMeans(groups, h.metric);
    MissingCompares(h.op);
    match CompileHaving(p, h).value
    case AgainstValue(_, op, literal) =>
      if v != Null { NumbersCompare(op, v, literal); }
    case AgainstMean(_, op) =>
      if v != Null && PopulationMean(groups, h.metric).Some? {
        NumbersCompare(op, v, Real(PopulationMean(groups, h.metric).value));
      }
  }

  lemma MissingCompares(op: Operator)
    ensures forall b :: Compare(op, Null, b) == Unknown && Compare(op, b, Null) == Unknown
  {
  }

  lemma HavingsMean(p: Plan, groups: seq<Row>, row: Row, tests: seq<HavingTest>)
    requires CompileHavings(p) == Success(tests)
    requires forall m, i | m in p.metrics && 0 <= i < |groups| :: !At(groups[i], Measure(m)).Text?
    requires forall m | m in p.metrics :: !At(row, Measure(m)).Text?
    ensures (AndAll(Map(tests, (h: HavingTest) => EvalHaving(groups, row, h))) == True)
         == (forall h | h in p.having :: Passes(groups, row, h))
  {
    hide CompileHaving, EvalHaving, Passes, At;
    var truths := Map(tests, (h: HavingTest) => EvalHaving(groups, row, h));
    AllTrue(truths);
    forall i | 0 <= i < |truths| ensures (truths[i] == True) == Passes(groups, row, p.having[i]) {
      assert CompileHaving(p, p.having[i]) == Success(tests[i]);
      assert p.having[i].metric in p.metrics by { HavingSelected(p, p.having[i]); }
      HavingMeans(p, groups, row, p.having[i]);
    }
    if forall i | 0 <= i < |truths| :: truths[i] == True {
      forall h | h in p.having ensures Passes(groups, row, h) {
        var i :| 0 <= i < |p.having| && p.having[i] == h;
        assert truths[i] == True;
      }
    }
    if forall h | h in p.having :: Passes(groups, row, h) {
      forall i | 0 <= i < |truths| ensures truths[i] == True { assert p.having[i] in p.having; }
    }
  }

  lemma HavingSelected(p: Plan, h: Having)
    requires CompileHaving(p, h).Success?
    ensures h.metric in p.metrics
  {
  }

  // ---- Latest status --------------------------------------------------------------------------------

  lemma RootOutputs(p: Plan)
    requires RanksByRoot(p) && p.latestStatus
    ensures GroupOutputs(p) == [Dimension(Root)] && p.metrics != [] && p.entity == Incidents
  {
  }

  lemma DescribedGroup(cal: Calendar, db: Database, p: Plan, groups: seq<Row>, i: nat) returns (k: nat)
    requires p.metrics != [] && GroupOutputs(p) != [] && Describes(cal, db, p, groups) && i < |groups|
    ensures k < |Population(cal, db, p)| && ShowsGroup(cal, db, p, groups[i], Population(cal, db, p)[k])
  {
    hide Population, GroupOutputs, DistinctGroups, ShowsGroup;
    assert HasMember(cal, db, p, groups[i], Population(cal, db, p));
    k :| 0 <= k < |Population(cal, db, p)| && ShowsGroup(cal, db, p, groups[i], Population(cal, db, p)[k]);
  }

  lemma MemberIncident(cal: Calendar, db: Database, p: Plan, k: nat)
    requires db.Valid() && p.entity == Incidents && k < |Population(cal, db, p)|
    ensures Population(cal, db, p)[k].incident.Some? && Population(cal, db, p)[k].incident.value in db.incidents
  {
    hide Population;
    PopulationMembers(cal, db, p);
    assert Population(cal, db, p)[k] in Population(cal, db, p);
  }

  /** In a latest-status plan every group is a root that occurs in the table. */
  lemma GroupRoot(cal: Calendar, db: Database, p: Plan, groups: seq<Row>, i: nat) returns (sample: Incident)
    requires db.Valid() && RanksByRoot(p) && p.latestStatus && Describes(cal, db, p, groups) && i < |groups|
    ensures sample in db.incidents && At(groups[i], Dimension(Root)) == OfText(sample.root)
  {
    hide Population, GroupOf, MetricOf, Describes, GroupOutputs, RanksByRoot;
    RootOutputs(p);
    var k := DescribedGroup(cal, db, p, groups, i);
    MemberIncident(cal, db, p, k);
    sample := Population(cal, db, p)[k].incident.value;
    assert Dimension(Root) in GroupOutputs(p);
    assert groups[i][Dimension(Root)] == GroupValue(cal, p, Population(cal, db, p)[k], Dimension(Root));
  }

  function WithLatest(cal: Calendar, db: Database, row: Row): Row {
    if JoinLatest(cal, db, row) == [] then row else JoinLatest(cal, db, row)[0]
  }

  lemma LatestAdded(cal: Calendar, db: Database, p: Plan, groups: seq<Row>)
    requires db.Valid() && RanksByRoot(p) && p.latestStatus && Describes(cal, db, p, groups)
    ensures Flatten(Map(groups, (r: Row) => JoinLatest(cal, db, r))) == Map(groups, (r: Row) => WithLatest(cal, db, r))
    ensures forall i | 0 <= i < |groups| :: AddsLatest(cal, db, groups[i], WithLatest(cal, db, groups[i]))
  {
    hide JoinLatest, AddsLatest, Describes, RanksByRoot;
    forall i | 0 <= i < |groups|
      ensures |JoinLatest(cal, db, groups[i])| == 1 && AddsLatest(cal, db, groups[i], JoinLatest(cal, db, groups[i])[0])
    {
      var sample := GroupRoot(cal, db, p, groups, i);
      LatestJoinsOnce(cal, db, groups[i], sample);
    }
    forall r | r in groups ensures JoinLatest(cal, db, r) == [WithLatest(cal, db, r)] {
      var i :| 0 <= i < |groups| && groups[i] == r;
    }
    FlattenSingles(groups, (r: Row) => JoinLatest(cal, db, r), (r: Row) => WithLatest(cal, db, r));
  }

  // ---- The compiler is correct ------------------------------------------------------------------------

  function FullRows(cal: Calendar, db: Database, p: Plan, groups: seq<Row>): seq<Row> {
    if p.latestStatus then Map(groups, (r: Row) => WithLatest(cal, db, r)) else groups
  }

  lemma FullMeasures(cal: Calendar, db: Database, p: Plan, groups: seq<Row>, i: nat)
    requires db.Valid() && RanksByRoot(p) && Describes(cal, db, p, groups) && i < |groups|
    ensures forall m :: At(FullRows(cal, db, p, groups)[i], Measure(m)) == At(groups[i], Measure(m))
  {
    hide Describes, RanksByRoot, WithLatest;
    if p.latestStatus {
      LatestAdded(cal, db, p, groups);
      assert AddsLatest(cal, db, groups[i], WithLatest(cal, db, groups[i]));
    }
  }

  lemma CandidateRows(p: Plan, cal: Calendar, db: Database, q: Query, groups: seq<Row>)
    requires db.Valid() && RanksByRoot(p) && Describes(cal, db, p, groups)
    requires q.latest == p.latestStatus && groups == Base(cal, db, q.base) && CompileHavings(p) == Success(q.having)
    ensures Candidates(cal, db, q)
         == Filter(FullRows(cal, db, p, groups), (r: Row) => forall h | h in p.having :: Passes(groups, r, h))
  {
    hide CompileHavings, Describes, Base, RanksByRoot, JoinLatest, WithLatest, EvalHaving, Passes, AndAll, Filter, At;
    var full := FullRows(cal, db, p, groups);
    if p.latestStatus { LatestAdded(cal, db, p, groups); }
    var sql, plain := (r: Row) => AndAll(Map(q.having, (h: HavingTest) => EvalHaving(groups, r, h))) == True,
                      (r: Row) => forall h | h in p.having :: Passes(groups, r, h);
    forall r | r in full ensures sql(r) == plain(r) {
      var i :| 0 <= i < |full| && full[i] == r;
      FullMeasures(cal, db, p, groups, i);
      forall m, k | m in p.metrics && 0 <= k < |groups| ensures !At(groups[k], Measure(m)).Text? {
        MeasuredNumbers(cal, db, p, groups, m);
      }
      HavingsMean(p, groups, r, q.having);
    }
    FilterAgrees(full, sql, plain);
  }

  /** Before ordering, the compiled query returns exactly the rows the plan means. */
  lemma CandidatesMean(p: Plan, s: Snapshot, cal: Calendar, db: Database, q: Query)
    requires Compile(p, s, cal) == Success(q) && db.Valid()
    ensures MeansBeforeOrder(cal, db, p, Candidates(cal, db, q))
  {
    hide Compile, CompileFilters, CompileSuccess, CompileHavings, CompileOrdering, Describes, Base, RanksByRoot,
      CheckSelection, CheckWindow, WithLatest, Passes, Filter, LimitOf, AddsLatest, Columns, GroupExprs, Candidates,
      JoinLatest, Numeric;
    CompileParts(p, s, cal, q);
    WindowChecked(p, s);
    BaseDescribes(p, s, cal, db, q);
    var groups := Base(cal, db, q.base);
    CandidateRows(p, cal, db, q, groups);
    if p.latestStatus { LatestAdded(cal, db, p, groups); }
    assert Candidate(cal, db, p, groups, Candidates(cal, db, q)) by {
      assert |FullRows(cal, db, p, groups)| == |groups|;
    }
  }
}
