/** From rows to answers: the plan's meaning fixes its rows, and every answer is those
    rows in the asked order. */
module AnalyticsAnswers {
  import opened Basics
  import opened AnalyticsPlan
  import opened AnalyticsData
  import opened AnalyticsSql
  import opened AnalyticsCompiler
  import opened AnalyticsMeaning
  import opened AnalyticsLatest
  import opened AnalyticsCorrectness

  // ---- The meaning of a plan is one bag of rows --------------------------------------------------

  lemma ShownOnce(cal: Calendar, db: Database, p: Plan, x: Row, y: Row, sample: Joined, members: seq<Joined>)
    requires Shows(cal, db, p, x, sample, members) && Shows(cal, db, p, y, sample, members)
    ensures x == y
  {
    hide GroupOutputs, GroupValue, MetricOf;
    forall o | o in x ensures x[o] == y[o] {
      if o !in GroupOutputs(p) { assert o == Measure(o.metric); }
    }
  }

  lemma ApartDiffers(p: Plan, rows: seq<Row>)
    requires DistinctGroups(p, rows)
    ensures NoDuplicates(rows)
  {
    forall i, j | 0 <= i < j < |rows| ensures rows[i] != rows[j] { assert Apart(p, rows[i], rows[j]); }
  }

  lemma ListedToo(cal: Calendar, db: Database, p: Plan, xs: seq<Row>, ys: seq<Row>, members: seq<Joined>, x: Row)
    requires ListsGroups(cal, db, p, xs, members) && ListsGroups(cal, db, p, ys, members) && x in xs
    ensures x in ys
  {
    hide Shows, GroupOf, DistinctGroups;
    var i :| 0 <= i < |xs| && xs[i] == x;
    assert HasMember(cal, db, p, xs[i], members);
    var k :| 0 <= k < |members| && ShowsGroup(cal, db, p, xs[i], members[k]);
    assert HasRow(cal, db, p, ys, members[k]);
    var j :| 0 <= j < |ys| && ShowsGroup(cal, db, p, ys[j], members[k]);
    ShownOnce(cal, db, p, xs[i], ys[j], members[k], GroupOf(cal, db, p, members[k]));
  }

  lemma GroupsAreFixed(cal: Calendar, db: Database, p: Plan, xs: seq<Row>, ys: seq<Row>)
    requires Describes(cal, db, p, xs) && Describes(cal, db, p, ys)
    ensures multiset(xs) == multiset(ys)
  {
    hide Shows, GroupOf, DistinctGroups, Population, HasMember, HasRow, GroupOutputs;
    var members := Population(cal, db, p);
    if p.metrics == [] {
      forall i | 0 <= i < |xs| ensures xs[i] == ys[i] { ShownOnce(cal, db, p, xs[i], ys[i], members[i], [members[i]]); }
      assert xs == ys;
    } else if GroupOutputs(p) == [] {
      ShownOnce(cal, db, p, xs[0], ys[0], Joined(None, None), members);
      assert xs == ys;
    } else {
      forall x ensures x in xs <==> x in ys {
        if x in xs { ListedToo(cal, db, p, xs, ys, members, x); }
        if x in ys { ListedToo(cal, db, p, ys, xs, members, x); }
      }
      ApartDiffers(p, xs);
      ApartDiffers(p, ys);
      SameElements(xs, ys);
    }
  }

  lemma MeansAreFixed(xs: seq<Row>, ys: seq<Row>, m: Metric)
    requires multiset(xs) == multiset(ys)
    ensures PopulationMean(xs, m) == PopulationMean(ys, m)
  {
    hide Filter, Map, Total;
    var cell, known := (r: Row) => At(r, Measure(m)), (v: Value) => Numeric(v);
    MapPermuted(xs, ys, cell);
    FilterPermuted(Map(xs, cell), Map(ys, cell), known);
    var a, b := Filter(Map(xs, cell), known), Filter(Map(ys, cell), known);
    MapPermuted(a, b, NumberOr0);
    TotalPermuted(Map(a, NumberOr0), Map(b, NumberOr0));
    assert |a| == |multiset(a)| && |b| == |multiset(b)|;
  }

  lemma LatestIsFixed(cal: Calendar, db: Database, row: Row, x: Row, y: Row)
    requires AddsLatest(cal, db, row, x) && AddsLatest(cal, db, row, y)
    ensures x == y
  {
    hide IsLatest, Ahead;
    var a :| a in db.incidents && IsLatest(cal, db, a) && OfText(a.root) == At(row, Dimension(Root))
      && x == row[LatestStatus := OfText(a.status)];
    var b :| b in db.incidents && IsLatest(cal, db, b) && OfText(b.root) == At(row, Dimension(Root))
      && y == row[LatestStatus := OfText(b.status)];
    assert a.root == b.root;
    OneLatest(cal, db, a, b);
  }

  ghost function Extended(cal: Calendar, db: Database, p: Plan, row: Row): Row {
    if p.latestStatus && exists full :: AddsLatest(cal, db, row, full) then
      var full :| AddsLatest(cal, db, row, full);
      full
    else row
  }

  lemma CandidateIsFixed(cal: Calendar, db: Database, p: Plan, groups: seq<Row>, rows: seq<Row>)
    requires Candidate(cal, db, p, groups, rows)
    ensures rows == Filter(Map(groups, (r: Row) => Extended(cal, db, p, r)),
                           (r: Row) => forall h | h in p.having :: Passes(groups, r, h))
  {
    hide AddsLatest, Passes, Filter;
    var full: seq<Row> :|
      && |full| == |groups|
      && (forall i | 0 <= i < |full| :: if p.latestStatus then AddsLatest(cal, db, groups[i], full[i])
        else full[i] == groups[i])
      && rows == Filter(full, (r: Row) => forall h | h in p.having :: Passes(groups, r, h));
    var extended := Map(groups, (r: Row) => Extended(cal, db, p, r));
    forall i | 0 <= i < |full| ensures full[i] == extended[i] {
      if p.latestStatus {
        assert AddsLatest(cal, db, groups[i], full[i]);
        LatestIsFixed(cal, db, groups[i], full[i], Extended(cal, db, p, groups[i]));
      }
    }
    assert full == extended;
  }

  /** Two row lists that mean the same plan over the same tables differ in order only. */
  lemma MeaningIsUnique(cal: Calendar, db: Database, p: Plan, xs: seq<Row>, ys: seq<Row>)
    requires MeansBeforeOrder(cal, db, p, xs) && MeansBeforeOrder(cal, db, p, ys)
    ensures multiset(xs) == multiset(ys)
  {
    hide Describes, Candidate, Filter, Map, PopulationMean, Extended, At;
    var gx: seq<Row> :| Describes(cal, db, p, gx) && Candidate(cal, db, p, gx, xs);
    var gy: seq<Row> :| Describes(cal, db, p, gy) && Candidate(cal, db, p, gy, ys);
    GroupsAreFixed(cal, db, p, gx, gy);
    CandidateIsFixed(cal, db, p, gx, xs);
    CandidateIsFixed(cal, db, p, gy, ys);
    var extend := (r: Row) => Extended(cal, db, p, r);
    MapPermuted(gx, gy, extend);
    var px := (r: Row) => forall h | h in p.having :: Passes(gx, r, h);
    var py := (r: Row) => forall h | h in p.having :: Passes(gy, r, h);
    forall r, h | h in p.having ensures Passes(gx, r, h) == Passes(gy, r, h) { MeansAreFixed(gx, gy, h.metric); }
    FilterAgrees(Map(gx, extend), px, py);
    FilterPermuted(Map(gx, extend), Map(gy, extend), py);
  }

  // ---- Order ----------------------------------------------------------------------------------------

  lemma {:induction false} LeadingKeys(cal: Calendar, keys: seq<SortKey>, more: seq<SortKey>, a: Row, b: Row)
    requires InOrder(cal, keys + more, a, b)
    ensures InOrder(cal, keys, a, b)
  {
    hide Less, SortValue;
    if keys != [] {
      assert (keys + more)[0] == keys[0] && (keys + more)[1..] == keys[1..] + more;
      var x, y := SortValue(cal, keys[0], a), SortValue(cal, keys[0], b);
      var (first, second) := if keys[0].descending then (y, x) else (x, y);
      if !Less(first, second) { LeadingKeys(cal, keys[1..], more, a, b); }
    }
  }

  // ---- Compiled answers mean the plan ------------------------------------------------------------------

  /** An answer to a plan: the meant rows in the asked order, cut to the limit. */
  ghost predicate MeansAnswer(cal: Calendar, db: Database, p: Plan, s: Snapshot, out: seq<Row>) {
    exists rows: seq<Row>, all: seq<Row> ::
      && MeansBeforeOrder(cal, db, p, rows)
      && multiset(all) == multiset(rows)
      && Sorted(cal, Map(p.orderBy, KeyFor), all)
      && out == Take(all, if LimitOf(p, s) < 0 then 0 else LimitOf(p, s))
  }

  lemma OrderingShape(p: Plan)
    requires CompileOrdering(p).Success?
    ensures CompileOrdering(p).value == Map(p.orderBy, KeyFor) + TieBreakers(p)
    ensures forall o | o in p.orderBy :: o.output in Outputs(p)
  {
    hide Outputs, TieBreakers;
    var keys := Traverse(p.orderBy, (o: Ordering) => CompileOrder(p, o)).value;
    assert keys == Map(p.orderBy, KeyFor);
    forall o | o in p.orderBy ensures o.output in Outputs(p) {
      var i :| 0 <= i < |p.orderBy| && p.orderBy[i] == o;
      assert CompileOrder(p, p.orderBy[i]) == Success(keys[i]);
    }
  }

  /** Whatever the database returns for a compiled plan is an answer to that plan. */
  lemma CompilerCorrect(p: Plan, s: Snapshot, cal: Calendar, db: Database, q: Query, out: seq<Row>)
    requires Compile(p, s, cal) == Success(q) && db.Valid()
    requires Answers(cal, db, q, out)
    ensures MeansAnswer(cal, db, p, s, out)
  {
    hide Compile, CompileFilters, CompileSuccess, CompileHavings, CompileOrdering, CheckSelection, CheckWindow,
      MeansBeforeOrder, Candidates, InOrder, LimitOf, Columns, GroupExprs, TieBreakers;
    CompileParts(p, s, cal, q);
    OrderingShape(p);
    CandidatesMean(p, s, cal, db, q);
    var all: seq<Row> :| multiset(all) == multiset(Candidates(cal, db, q)) && Sorted(cal, q.ordering, all)
      && out == Take(all, q.limit);
    forall i, j | 0 <= i < j < |all| ensures InOrder(cal, Map(p.orderBy, KeyFor), all[i], all[j]) {
      LeadingKeys(cal, Map(p.orderBy, KeyFor), TieBreakers(p), all[i], all[j]);
    }
    assert Sorted(cal, Map(p.orderBy, KeyFor), all);
  }

  // ---- What the meant rows show -----------------------------------------------------------------------

  lemma GroupValuesAreExact(cal: Calendar, p: Plan, row: Joined, o: Output)
    ensures !GroupValue(cal, p, row, o).Real?
  {
  }

  /** The meant rows of a grouped plan differ pairwise in their group, and show no reals
      there. */
  ghost predicate CleanGroups(p: Plan, rows: seq<Row>) {
    && DistinctGroups(p, rows)
    && forall i, o | 0 <= i < |rows| && o in GroupOutputs(p) :: !At(rows[i], o).Real?
  }

  lemma DescribedClean(cal: Calendar, db: Database, p: Plan, groups: seq<Row>)
    requires Describes(cal, db, p, groups) && p.metrics != []
    ensures CleanGroups(p, groups)
  {
    hide Population, GroupOf, DistinctGroups, MetricOf, GroupOutputs, GroupValue;
    if GroupOutputs(p) == [] {
      assert DistinctGroups(p, groups) by { OneIsDistinct(p, groups); }
    } else {
      forall i, o | 0 <= i < |groups| && o in GroupOutputs(p) ensures !At(groups[i], o).Real? {
        var k := DescribedGroup(cal, db, p, groups, i);
        assert groups[i][o] == GroupValue(cal, p, Population(cal, db, p)[k], o);
        GroupValuesAreExact(cal, p, Population(cal, db, p)[k], o);
      }
    }
  }

  lemma OneIsDistinct(p: Plan, rows: seq<Row>)
    requires |rows| <= 1
    ensures DistinctGroups(p, rows)
  {
  }

  lemma ExtendedClean(cal: Calendar, db: Database, p: Plan, groups: seq<Row>, full: seq<Row>)
    requires CleanGroups(p, groups) && |full| == |groups|
    requires forall i | 0 <= i < |full| :: if p.latestStatus then AddsLatest(cal, db, groups[i], full[i])
      else full[i] == groups[i]
    ensures CleanGroups(p, full)
  {
    hide GroupOutputs, IsLatest;
    NoMeasures(p);
    forall i, o | 0 <= i < |full| && o in GroupOutputs(p) ensures At(full[i], o) == At(groups[i], o) {
      if p.latestStatus { assert AddsLatest(cal, db, groups[i], full[i]); }
    }
    forall i, j | 0 <= i < j < |full| ensures Apart(p, full[i], full[j]) { assert Apart(p, groups[i], groups[j]); }
  }

  lemma {:induction false} FilterClean(p: Plan, rows: seq<Row>, keep: Row -> bool)
    requires CleanGroups(p, rows)
    ensures CleanGroups(p, Filter(rows, keep))
  {
    hide GroupOutputs, Apart, At;
    if rows != [] {
      assert CleanGroups(p, rows[1..]);
      FilterClean(p, rows[1..], keep);
      var rest := Filter(rows[1..], keep);
      forall j | 0 <= j < |rest| ensures Apart(p, rows[0], rest[j]) {
        assert rest[j] in rest;
        FilterMember(rows[1..], keep, rest[j]);
        var k :| 0 <= k < |rows[1..]| && rows[1..][k] == rest[j];
        assert Apart(p, rows[0], rows[k + 1]);
      }
    }
  }

  lemma MeantClean(cal: Calendar, db: Database, p: Plan, rows: seq<Row>)
    requires MeansBeforeOrder(cal, db, p, rows) && p.metrics != []
    ensures CleanGroups(p, rows)
  {
    hide Describes, CleanGroups, Passes, AddsLatest, Filter;
    var groups: seq<Row> :| Describes(cal, db, p, groups) && Candidate(cal, db, p, groups, rows);
    DescribedClean(cal, db, p, groups);
    var full: seq<Row> :|
      && |full| == |groups|
      && (forall i | 0 <= i < |full| :: if p.latestStatus then AddsLatest(cal, db, groups[i], full[i])
        else full[i] == groups[i])
      && rows == Filter(full, (r: Row) => forall h | h in p.having :: Passes(groups, r, h));
    ExtendedClean(cal, db, p, groups, full);
    FilterClean(p, full, (r: Row) => forall h | h in p.having :: Passes(groups, r, h));
  }

  lemma ApartSymmetric(p: Plan, a: Row, b: Row)
    ensures Apart(p, a, b) == Apart(p, b, a)
  {
  }
}
