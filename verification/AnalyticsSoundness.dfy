/** Results of compiled plans pass the check after execution. */
module AnalyticsSoundness {
  import opened Basics
  import opened AnalyticsPlan
  import opened AnalyticsData
  import opened AnalyticsSql
  import opened AnalyticsCompiler
  import opened AnalyticsMeaning
  import opened AnalyticsCorrectness
  import opened AnalyticsAnswers
  import opened AnalyticsValidator

  /** The result object of an execution that was not cut short. */
  function ExecutedRows(names: seq<Output>, rows: seq<Row>): Executed {
    Executed(Map(names, (o: Output) => Some(o)), Map(rows, (r: Row) => Some(ResultRow(names, r))), |rows|, false)
  }

  // ---- Metric domains ---------------------------------------------------------------------------

  lemma {:induction false} FilterWithin<T>(xs: seq<T>, p: T -> bool, q: T -> bool)
    requires forall x | x in xs :: p(x) ==> q(x)
    ensures |Filter(xs, p)| <= |Filter(xs, q)|
  {
    if xs != [] {
      FilterWithin(xs[1..], p, q);
    }
  }

  lemma RecoveredWithin(members: seq<Joined>)
    ensures |Ended(members, {"RECOVERED"})| <= |Ended(members, TERMINAL)|
  {
    var one := {"RECOVERED"};
    FilterWithin(members,
      (r: Joined) => r.incident.Some? && r.incident.value.outcome.Some? && r.incident.value.outcome.value in one,
      (r: Joined) => r.incident.Some? && r.incident.value.outcome.Some? && r.incident.value.outcome.value in TERMINAL);
  }

  lemma RoundedRange(x: real, limit: nat)
    requires 0.0 <= x <= limit as real
    ensures 0.0 <= Round2(x) <= limit as real
  {
    var scaled := x * 100.0 + 0.5;
    assert 0.0 <= scaled <= limit as real * 100.0 + 0.5;
    assert 0 <= scaled.Floor <= limit * 100;
  }

  lemma PercentRange(part: nat, whole: nat)
    requires part <= whole && whole > 0
    ensures 0.0 <= 100.0 * part as real / whole as real <= 100.0
  {
    var n, d := part as real, whole as real;
    var q := 100.0 * n / d;
    assert q * d == 100.0 * n;
    SignOf(q - 100.0, d);
  }

  lemma SignOf(x: real, d: real)
    requires d > 0.0 && x * d <= 0.0
    ensures x <= 0.0
  {
  }

  lemma RateRange(cal: Calendar, db: Database, members: seq<Joined>)
    ensures var rate := MetricOf(cal, db, Incidents, RecoveryRatePercent, members);
      rate == Null || (rate.Real? && 0.0 <= rate.exact <= 100.0)
  {
    hide Ended, Round2;
    RecoveredWithin(members);
    var part, whole := |Ended(members, {"RECOVERED"})|, |Ended(members, TERMINAL)|;
    if whole > 0 {
      PercentRange(part, whole);
      RoundedRange(100.0 * part as real / whole as real, 100);
    }
  }

  lemma {:induction false} MinutesTotal(cal: Calendar, members: seq<Joined>)
    ensures Total(Map(members, (r: Joined) => MinutesOr0(cal, r))) >= 0.0
  {
    hide Minutes;
    if members != [] {
      MinutesTotal(cal, members[1..]);
      assert MinutesOr0(cal, members[0]) >= 0.0 by { MinutesAreNonnegative(cal, members[0]); }
      assert Map(members, (r: Joined) => MinutesOr0(cal, r))
          == [MinutesOr0(cal, members[0])] + Map(members[1..], (r: Joined) => MinutesOr0(cal, r));
    }
  }

  lemma MinutesAreNonnegative(cal: Calendar, row: Joined)
    ensures MinutesOr0(cal, row) >= 0.0
  {
  }

  lemma RoundedNonnegative(x: real)
    requires x >= 0.0
    ensures Round2(x) >= 0.0
  {
  }

  lemma DurationDomain(cal: Calendar, db: Database, members: seq<Joined>)
    ensures |members| == |Timed(cal, members)| + |Filter(members, (r: Joined) => Minutes(cal, r).None?)|
    ensures var average := MetricOf(cal, db, Incidents, AvgDurationMinutes, members);
      && (average == Null <==> |Timed(cal, members)| == 0)
      && (average != Null ==> average.Real? && average.exact >= 0.0)
  {
    hide Minutes, MinutesOr0, Filter, Total, Round2, Map;
    FilterSplit(members, (r: Joined) => Minutes(cal, r).Some?, (r: Joined) => Minutes(cal, r).None?);
    var timed := Timed(cal, members);
    if timed != [] {
      MinutesTotal(cal, timed);
      var mean := Total(Map(timed, (r: Joined) => MinutesOr0(cal, r))) / |timed| as real;
      assert mean >= 0.0;
      RoundedNonnegative(mean);
    }
  }

  lemma CountDomain(cal: Calendar, db: Database, e: Entity, m: Metric, members: seq<Joined>)
    requires Counts(m)
    ensures MetricOf(cal, db, e, m, members).Int? && MetricOf(cal, db, e, m, members).whole >= 0
  {
  }

  /** A row that shows measures over any members is within every domain. */
  lemma ShownSound(cal: Calendar, db: Database, p: Plan, row: Row, sample: Joined, members: seq<Joined>)
    requires Shows(cal, db, p, row, sample, members) && Compiled(p)
    requires AveragesExplained(p)
    ensures MeasuresSound(p.metrics, row)
  {
    hide GroupOutputs, GroupValue, MetricOf;
    forall i | 0 <= i < |p.metrics| && Counts(p.metrics[i]) ensures CountSound(row, p.metrics[i]) {
      CountDomain(cal, db, p.entity, p.metrics[i], members);
      assert p.metrics[i] in p.metrics;
    }
    if RecoveryRatePercent in p.metrics {
      assert p.entity == Incidents;
      RateRange(cal, db, members);
    }
    if AvgDurationMinutes in p.metrics { DurationShown(cal, db, p, row, sample, members); }
  }

  lemma DurationShown(cal: Calendar, db: Database, p: Plan, row: Row, sample: Joined, members: seq<Joined>)
    requires Shows(cal, db, p, row, sample, members) && Compiled(p)
    requires forall m | m in DURATION :: m in p.metrics
    ensures DurationSound(row)
  {
    hide GroupOutputs, GroupValue, Timed, Filter, Minutes, Total, Round2, Map;
    DurationDomain(cal, db, members);
    assert AvgDurationMinutes in DURATION && MatchedCount in DURATION && ValidDurationCount in DURATION
      && ExcludedDurationCount in DURATION;
    assert p.entity == Incidents;
    assert row[Measure(AvgDurationMinutes)] == MetricOf(cal, db, Incidents, AvgDurationMinutes, members);
  }

  // ---- Candidate rows -------------------------------------------------------------------------------

  /** Every candidate row is a described group, with its latest status when asked for. */
  lemma CandidateOrigin(cal: Calendar, db: Database, p: Plan, groups: seq<Row>, rows: seq<Row>,
          row: Row) returns (i: nat)
    requires Candidate(cal, db, p, groups, rows) && row in rows
    ensures i < |groups| && (if p.latestStatus then AddsLatest(cal, db, groups[i], row) else row == groups[i])
  {
    hide AddsLatest, Passes, Filter;
    var full: seq<Row> :|
      && |full| == |groups|
      && (forall i | 0 <= i < |full| :: if p.latestStatus then AddsLatest(cal, db, groups[i], full[i])
        else full[i] == groups[i])
      && rows == Filter(full, (r: Row) => forall h | h in p.having :: Passes(groups, r, h));
    FilterMember(full, (r: Row) => forall h | h in p.having :: Passes(groups, r, h), row);
    i :| 0 <= i < |full| && full[i] == row;
  }

  lemma GroupSound(cal: Calendar, db: Database, p: Plan, groups: seq<Row>, i: nat)
    requires Describes(cal, db, p, groups) && Compiled(p) && i < |groups| && p.metrics != []
    requires AveragesExplained(p)
    ensures MeasuresSound(p.metrics, groups[i])
  {
    hide Population, GroupOf, Shows, GroupOutputs, DistinctGroups, MeasuresSound, Compiled;
    if GroupOutputs(p) == [] {
      ShownSound(cal, db, p, groups[i], Joined(None, None), Population(cal, db, p));
    } else {
      var k := DescribedGroup(cal, db, p, groups, i);
      var sample := Population(cal, db, p)[k];
      ShownSound(cal, db, p, groups[i], sample, GroupOf(cal, db, p, sample));
    }
  }

  lemma SoundWithStatus(metrics: seq<Metric>, row: Row, status: Value)
    requires MeasuresSound(metrics, row)
    ensures MeasuresSound(metrics, row[LatestStatus := status])
  {
    assert forall m :: At(row[LatestStatus := status], Measure(m)) == At(row, Measure(m));
    assert forall i | 0 <= i < |metrics| && Counts(metrics[i]) :: CountSound(row, metrics[i]);
  }

  lemma CandidateSound(cal: Calendar, db: Database, p: Plan, rows: seq<Row>, row: Row)
    requires MeansBeforeOrder(cal, db, p, rows) && Compiled(p) && p.metrics != [] && row in rows
    requires AveragesExplained(p)
    ensures MeasuresSound(p.metrics, row)
  {
    hide Describes, Candidate, MeasuresSound, IsLatest, Compiled;
    var groups: seq<Row> :| Describes(cal, db, p, groups) && Candidate(cal, db, p, groups, rows);
    var i := CandidateOrigin(cal, db, p, groups, rows, row);
    GroupSound(cal, db, p, groups, i);
    if p.latestStatus {
      assert AddsLatest(cal, db, groups[i], row);
      SoundWithStatus(p.metrics, groups[i], row[LatestStatus]);
    }
  }

  // ---- Whole results -------------------------------------------------------------------------------------

  lemma AverageChecked(p: Plan, s: Snapshot)
    requires CheckSelection(p, s).Success?
    ensures AveragesExplained(p)
  {
    hide SelectsOnce, AveragesExplained, MeasuresEntity, FieldsAvailable;
    assert AveragesExplained(p);
  }

  lemma OutputsDistinct(p: Plan)
    requires Compiled(p)
    ensures NoDuplicates(Outputs(p))
  {
    hide GroupOutputs;
    NoMeasures(p);
    GroupOutputsDistinct(p);
  }

  lemma ExecutedShape(r: Request, rows: seq<Row>)
    requires NoDuplicates(Expected(r))
    ensures ShapeSound(r, ExecutedRows(Expected(r), rows))
  {
    hide Expected;
  }

  /** Group values hold no reals, so the dictionary keys are the groups themselves. */
  lemma KeysApart(p: Plan, a: Row, b: Row)
    requires forall o | o in GroupOutputs(p) :: !At(a, o).Real? && !At(b, o).Real?
    ensures (GroupKey(GroupOutputs(p), a) != GroupKey(GroupOutputs(p), b)) == Apart(p, a, b)
  {
    hide GroupOutputs, At;
    var x, y := GroupKey(GroupOutputs(p), a), GroupKey(GroupOutputs(p), b);
    if o :| o in GroupOutputs(p) && At(a, o) != At(b, o) {
      var i :| 0 <= i < |GroupOutputs(p)| && GroupOutputs(p)[i] == o;
      assert x[i] != y[i];
    }
    if x != y {
      var i :| 0 <= i < |x| && x[i] != y[i];
      assert GroupOutputs(p)[i] in GroupOutputs(p);
    }
  }

  lemma {:induction false} CleanPermuted(p: Plan, rows: seq<Row>, all: seq<Row>)
    requires CleanGroups(p, rows) && multiset(all) == multiset(rows)
    ensures CleanGroups(p, all)
  {
    hide GroupOutputs, Apart, At;
    forall i | 0 <= i < |all| ensures all[i] in rows { assert all[i] in multiset(all); }
    forall i, o | 0 <= i < |all| && o in GroupOutputs(p) ensures !At(all[i], o).Real? {
      var k :| 0 <= k < |rows| && rows[k] == all[i];
    }
    forall i, j | 0 <= i < j < |all| ensures Apart(p, all[i], all[j]) {
      assert all[i] != all[j] by { ApartDiffers(p, rows); DistinctPermuted(rows, all); }
      var k :| 0 <= k < |rows| && rows[k] == all[i];
      var l :| 0 <= l < |rows| && rows[l] == all[j];
      ApartSymmetric(p, rows[k], rows[l]);
    }
  }

  lemma CleanGroupsSound(p: Plan, rows: seq<Row>)
    requires CleanGroups(p, rows)
    ensures GroupsSound(Single(p), ExecutedRows(Outputs(p), rows).rows)
  {
    hide GroupOutputs, Outputs, Apart, GroupKey, At;
    forall i, j | 0 <= i < j < |rows| ensures GroupKey(GroupOutputs(p), rows[i]) != GroupKey(GroupOutputs(p), rows[j]) {
      KeysApart(p, rows[i], rows[j]);
    }
  }

  /** Every untruncated result of a compiled plan with a metric passes the check. */
  lemma ValidatorAccepts(p: Plan, s: Snapshot, cal: Calendar, db: Database, q: Query, out: seq<Row>)
    requires Compile(p, s, cal) == Success(q) && db.Valid() && s.Valid() && p.metrics != []
    requires Answers(cal, db, q, out)
    ensures Sound(Single(p), ExecutedRows(Outputs(p), out))
  {
    hide Compile, CompileFilters, CompileSuccess, CompileHavings, CompileOrdering, CheckSelection, CheckWindow,
      MeansBeforeOrder, Candidates, Sorted, Columns, GroupExprs, TieBreakers, CleanGroups, ShapeSound, MeasuresSound,
      GroupsSound, Outputs, Compiled;
    CompileParts(p, s, cal, q);
    SelectionChecked(p, s);
    AverageChecked(p, s);
    WindowChecked(p, s);
    CandidatesMean(p, s, cal, db, q);
    OutputsDistinct(p);
    ExecutedShape(Single(p), out);
    var rows := Candidates(cal, db, q);
    var all: seq<Row> :| multiset(all) == multiset(rows) && Sorted(cal, q.ordering, all) && out == Take(all, q.limit);
    forall i | 0 <= i < |out| ensures MeasuresSound(p.metrics, out[i]) {
      assert all[i] in multiset(all);
      CandidateSound(cal, db, p, rows, out[i]);
    }
    MeantClean(cal, db, p, rows);
    CleanPermuted(p, rows, all);
    assert CleanGroups(p, out) by { CleanPrefix(p, all, q.limit); }
    CleanGroupsSound(p, out);
    assert |out| <= RowBudget(Single(p));
  }

  lemma CleanPrefix(p: Plan, rows: seq<Row>, n: nat)
    requires CleanGroups(p, rows)
    ensures CleanGroups(p, Take(rows, n))
  {
    hide GroupOutputs, Apart, At;
  }

  // ---- Plans without a metric ------------------------------------------------------------------------------

  lemma NothingMeasured(p: Plan, s: Snapshot, cal: Calendar, db: Database, q: Query)
    requires Compile(p, s, cal) == Success(q) && db.Valid() && p.metrics == []
    ensures Candidates(cal, db, q) == Base(cal, db, q.base)
    ensures Candidates(cal, db, q) == Map(Population(cal, db, p), (r: Joined) => Project(cal, db, [r], Columns(p)))
    ensures ListsMembers(cal, db, p, Candidates(cal, db, q), Population(cal, db, p))
    ensures GroupOutputs(p) != []
  {
    hide Compile, CompileFilters, CompileSuccess, CompileHavings, CompileOrdering, CheckSelection, CheckWindow,
      Columns, GroupExprs, Base, LimitOf, ListsMembers, Population, Project;
    CompileParts(p, s, cal, q);
    SelectionChecked(p, s);
    WindowChecked(p, s);
    BaseRows(p, s, cal, db, q);
    BaseDescribes(p, s, cal, db, q);
    assert q.having == [] by { NothingToCompare(p); }
    FilterAll(Base(cal, db, q.base),
      (r: Row) => AndAll(Map(q.having, (h: HavingTest) => EvalHaving(Base(cal, db, q.base), r, h))) == True);
  }

  lemma NothingToCompare(p: Plan)
    requires p.metrics == [] && CompileHavings(p).Success?
    ensures CompileHavings(p).value == []
  {
    assert forall h :: CompileHaving(p, h).Failure?;
  }

  lemma MapDistinct<T(!new), U>(xs: seq<T>, ys: seq<T>, f: T -> U)
    requires multiset(xs) == multiset(ys)
    ensures NoDuplicates(Map(xs, f)) == NoDuplicates(Map(ys, f))
  {
    MapPermuted(xs, ys, f);
    if NoDuplicates(Map(xs, f)) { DistinctPermuted(Map(xs, f), Map(ys, f)); }
    if NoDuplicates(Map(ys, f)) { DistinctPermuted(Map(ys, f), Map(xs, f)); }
  }

  lemma ShownApartIff(cal: Calendar, db: Database, p: Plan, x: Row, y: Row, a: Joined, b: Joined)
    requires Shows(cal, db, p, x, a, [a]) && Shows(cal, db, p, y, b, [b])
    ensures (GroupKey(GroupOutputs(p), x) != GroupKey(GroupOutputs(p), y)) == !SameGroup(cal, p, a, b)
  {
    hide GroupOutputs, GroupValue, MetricOf, GroupKey;
    forall o | o in GroupOutputs(p) ensures !At(x, o).Real? && !At(y, o).Real? {
      GroupValuesAreExact(cal, p, a, o);
      GroupValuesAreExact(cal, p, b, o);
    }
    KeysApart(p, x, y);
    if o :| o in GroupOutputs(p) && At(x, o) != At(y, o) {
      assert GroupValue(cal, p, a, o) != GroupValue(cal, p, b, o);
    }
    if o :| o in GroupOutputs(p) && GroupValue(cal, p, a, o) != GroupValue(cal, p, b, o) {
      assert At(x, o) != At(y, o);
    }
  }

  /** No two selected members agree on every dimension. */
  ghost predicate AllApart(cal: Calendar, p: Plan, members: seq<Joined>) {
    forall i, j | 0 <= i < j < |members| :: !SameGroup(cal, p, members[i], members[j])
  }

  lemma RowsApartIff(cal: Calendar, db: Database, p: Plan, rows: seq<Row>, members: seq<Joined>)
    requires ListsMembers(cal, db, p, rows, members)
    ensures NoDuplicates(Map(rows, (r: Row) => GroupKey(GroupOutputs(p), r))) == AllApart(cal, p, members)
  {
    hide Shows, GroupOutputs, GroupKey, SameGroup;
    forall i, j | 0 <= i < j < |rows|
      ensures (GroupKey(GroupOutputs(p), rows[i]) != GroupKey(GroupOutputs(p), rows[j]))
        == !SameGroup(cal, p, members[i], members[j])
    {
      ShownApartIff(cal, db, p, rows[i], rows[j], members[i], members[j]);
    }
  }

  lemma GroupsSoundIff(p: Plan, rows: seq<Row>)
    requires GroupOutputs(p) != []
    ensures GroupsSound(Single(p), ExecutedRows(Outputs(p), rows).rows)
         == NoDuplicates(Map(rows, (r: Row) => GroupKey(GroupOutputs(p), r)))
  {
    hide GroupOutputs, Outputs, GroupKey;
    var x := ExecutedRows(Outputs(p), rows).rows;
    var keys := Map(rows, (r: Row) => GroupKey(GroupOutputs(p), r));
    assert forall i | 0 <= i < |rows| :: x[i].value.cells == rows[i] && keys[i] == GroupKey(GroupOutputs(p), rows[i]);
    if GroupsSound(Single(p), x) {
      forall i, j | 0 <= i < j < |keys| ensures keys[i] != keys[j] { assert x[i].Some? && x[j].Some?; }
    }
  }

  lemma ListingSound(p: Plan, rows: seq<Row>)
    requires p.metrics == [] && NoDuplicates(Outputs(p)) && |rows| <= RowBudget(Single(p))
    ensures Sound(Single(p), ExecutedRows(Outputs(p), rows))
      == GroupsSound(Single(p), ExecutedRows(Outputs(p), rows).rows)
  {
    hide Outputs, GroupsSound, ShapeSound;
    ExecutedShape(Single(p), rows);
    var x := ExecutedRows(Outputs(p), rows);
    assert forall i | 0 <= i < |x.rows| :: RowSound(Single(p), Outputs(p), x.rows[i]);
  }

  lemma WholeListing(p: Plan, s: Snapshot, cal: Calendar, db: Database, q: Query, out: seq<Row>)
    requires Compile(p, s, cal) == Success(q) && db.Valid() && s.Valid() && p.metrics == []
    requires Answers(cal, db, q, out) && |Population(cal, db, p)| <= LimitOf(p, s)
    ensures multiset(out) == multiset(Candidates(cal, db, q)) && |out| <= RowBudget(Single(p))
  {
    hide Compile, CompileFilters, CompileSuccess, CompileHavings, CompileOrdering, CheckSelection, CheckWindow,
      Candidates, Sorted, Columns, GroupExprs, TieBreakers, Population, ListsMembers, Project, GroupOutputs,
      RanksByRoot;
    CompileParts(p, s, cal, q);
    WindowChecked(p, s);
    NothingMeasured(p, s, cal, db, q);
    var rows := Candidates(cal, db, q);
    var all: seq<Row> :| multiset(all) == multiset(rows) && Sorted(cal, q.ordering, all) && out == Take(all, q.limit);
    assert |all| == |multiset(all)| == |rows| == |Population(cal, db, p)|;
  }

  /** A plain listing whose rows all fit the limit passes the check if and only if no two
      selected members agree on every dimension: a listing with repeated rows is refused. */
  lemma ProjectionAccepted(p: Plan, s: Snapshot, cal: Calendar, db: Database, q: Query, out: seq<Row>)
    requires Compile(p, s, cal) == Success(q) && db.Valid() && s.Valid() && p.metrics == []
    requires Answers(cal, db, q, out) && |Population(cal, db, p)| <= LimitOf(p, s)
    ensures Sound(Single(p), ExecutedRows(Outputs(p), out)) == AllApart(cal, p, Population(cal, db, p))
  {
    hide Compile, CompileFilters, CompileSuccess, CompileHavings, CompileOrdering, CheckSelection, CheckWindow,
      Candidates, Sound, GroupsSound, Outputs, Compiled, Population, ListsMembers, AllApart, Project, GroupOutputs,
      GroupKey, Answers, LimitOf, Columns, ExecutedRows, NoDuplicates;
    CompileParts(p, s, cal, q);
    SelectionChecked(p, s);
    OutputsDistinct(p);
    NothingMeasured(p, s, cal, db, q);
    WholeListing(p, s, cal, db, q, out);
    ListingSound(p, out);
    GroupsSoundIff(p, out);
    MapDistinct(out, Candidates(cal, db, q), (r: Row) => GroupKey(GroupOutputs(p), r));
    RowsApartIff(cal, db, p, Candidates(cal, db, q), Population(cal, db, p));
  }
}
