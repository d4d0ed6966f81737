/** Joins never multiply a measure: incidents and their logs, counted either way. */
module AnalyticsJoins {
  import opened Basics
  import opened AnalyticsPlan
  import opened AnalyticsData
  import opened AnalyticsSql
  import opened AnalyticsCompiler
  import opened AnalyticsMeaning
  import opened AnalyticsPopulation
  import opened AnalyticsMetrics
  import opened AnalyticsCorrectness
  import opened AnalyticsAnswers

  // ---- The reference query: incidents LEFT JOIN logs ----------------------------------------------

  /** The rows of an incident in `Queue LEFT JOIN Logs`. */
  function LogRows(db: Database, row: Joined): seq<Joined> {
    var own := Filter(db.logs, Own(row));
    if own == [] then [row] else Map(own, (l: Log) => Joined(Some(l), row.incident))
  }

  function ReferenceJoin(db: Database, rows: seq<Joined>): seq<Joined> {
    Flatten(Map(rows, (r: Joined) => LogRows(db, r)))
  }

  lemma {:induction false} PresentAppend(cal: Calendar, db: Database, xs: seq<Joined>, ys: seq<Joined>, e: Expr)
    ensures Present(cal, db, xs + ys, e) == Present(cal, db, xs, e) + Present(cal, db, ys, e)
  {
    hide EvalExpr, Filter, Map;
    var f, known := (r: Joined) => EvalExpr(cal, db, r, e), (v: Value) => v != Null;
    MapAppend(xs, ys, f);
    FilterAppend(Map(xs, f), Map(ys, f), known);
  }

  lemma RowsOfOne(cal: Calendar, db: Database, row: Joined)
    requires row.log.None?
    ensures |Present(cal, db, LogRows(db, row), Column(EventId))| == |Filter(db.logs, Own(row))|
  {
    hide Present, Filter;
    var own := Filter(db.logs, Own(row));
    if own == [] {
      PresentCons(cal, db, [row], Column(EventId));
      NothingPresent(cal, db, Column(EventId));
      assert [row][1..] == [] && EvalExpr(cal, db, row, Column(EventId)) == Null;
      assert Present(cal, db, [row], Column(EventId)) == [];
    } else {
      var rows := LogRows(db, row);
      forall r | r in rows ensures r.log.Some? {
        var i :| 0 <= i < |rows| && rows[i] == r;
      }
      EventIds(cal, db, rows);
    }
  }

  /** On every table, the sum of correlated counts is the count of log identities of the
      outer join: incidents without logs count zero and nothing is counted twice. */
  lemma {:induction false} CorrelatedIsJoined(cal: Calendar, db: Database, rows: seq<Joined>)
    requires forall r | r in rows :: r.log.None?
    ensures EvalAggregate(cal, db, rows, AggregateOf(LogCount, Incidents))
         == EvalAggregate(cal, db, ReferenceJoin(db, rows), Count(Column(EventId)))
  {
    hide Present, Filter, LogRows;
    if rows == [] {
      NothingPresent(cal, db, RelatedLogs);
      NothingPresent(cal, db, Column(EventId));
    } else {
      var first, rest := rows[0], rows[1..];
      assert first in rows && forall r | r in rest :: r in rows;
      CorrelatedIsJoined(cal, db, rest);
      PresentCons(cal, db, rows, RelatedLogs);
      OwnLogs(cal, db, first);
      var counts := Present(cal, db, rest, RelatedLogs);
      assert Map([EvalExpr(cal, db, first, RelatedLogs)] + counts, WholeOr0)
        == [|Filter(db.logs, Own(first))|] + Map(counts, WholeOr0);
      RowsOfOne(cal, db, first);
      PresentAppend(cal, db, LogRows(db, first), ReferenceJoin(db, rest), Column(EventId));
      assert ReferenceJoin(db, rows) == LogRows(db, first) + ReferenceJoin(db, rest);
    }
  }

  // ---- Incident measures do not depend on the logs ----------------------------------------------------

  lemma SamePopulation(cal: Calendar, db: Database, other: Database, p: Plan)
    requires p.entity == Incidents && other.incidents == db.incidents
    ensures Population(cal, db, p) == Population(cal, other, p)
  {
  }

  lemma SameShown(cal: Calendar, db: Database, other: Database, p: Plan, row: Row, sample: Joined, members: seq<Joined>)
    requires p.entity == Incidents && LogCount !in p.metrics
    ensures Shows(cal, db, p, row, sample, members) == Shows(cal, other, p, row, sample, members)
  {
    hide GroupOutputs, GroupValue, Ended, Timed, EventsOf, IncidentsOf, Filter, Total, Map;
  }

  lemma SameGroupShown(cal: Calendar, db: Database, other: Database, p: Plan, row: Row, sample: Joined)
    requires p.entity == Incidents && LogCount !in p.metrics && other.incidents == db.incidents
    requires ShowsGroup(cal, db, p, row, sample)
    ensures ShowsGroup(cal, other, p, row, sample)
  {
    hide Population, Shows, SameGroup;
    SamePopulation(cal, db, other, p);
    SameShown(cal, db, other, p, row, sample, GroupOf(cal, db, p, sample));
  }

  lemma SameListing(cal: Calendar, db: Database, other: Database, p: Plan, groups: seq<Row>, members: seq<Joined>)
    requires p.entity == Incidents && LogCount !in p.metrics && other.incidents == db.incidents
    requires ListsGroups(cal, db, p, groups, members)
    ensures ListsGroups(cal, other, p, groups, members)
  {
    hide ShowsGroup, DistinctGroups;
    forall i | 0 <= i < |groups| ensures HasMember(cal, other, p, groups[i], members) {
      assert HasMember(cal, db, p, groups[i], members);
      var k :| 0 <= k < |members| && ShowsGroup(cal, db, p, groups[i], members[k]);
      SameGroupShown(cal, db, other, p, groups[i], members[k]);
    }
    forall k | 0 <= k < |members| ensures HasRow(cal, other, p, groups, members[k]) {
      assert HasRow(cal, db, p, groups, members[k]);
      var i :| 0 <= i < |groups| && ShowsGroup(cal, db, p, groups[i], members[k]);
      SameGroupShown(cal, db, other, p, groups[i], members[k]);
    }
  }

  lemma SameGroups(cal: Calendar, db: Database, other: Database, p: Plan, groups: seq<Row>)
    requires p.entity == Incidents && LogCount !in p.metrics && other.incidents == db.incidents
    requires Describes(cal, db, p, groups)
    ensures Describes(cal, other, p, groups)
  {
    hide Population, Shows, GroupOutputs, ListsGroups;
    SamePopulation(cal, db, other, p);
    var members := Population(cal, db, p);
    if p.metrics == [] {
      forall i | 0 <= i < |groups| ensures Shows(cal, other, p, groups[i], members[i], [members[i]]) {
        SameShown(cal, db, other, p, groups[i], members[i], [members[i]]);
      }
    } else if GroupOutputs(p) == [] {
      SameShown(cal, db, other, p, groups[0], Joined(None, None), members);
    } else {
      SameListing(cal, db, other, p, groups, members);
    }
  }

  lemma SameMeaning(cal: Calendar, db: Database, other: Database, p: Plan, rows: seq<Row>)
    requires p.entity == Incidents && LogCount !in p.metrics && other.incidents == db.incidents
    requires MeansBeforeOrder(cal, db, p, rows)
    ensures MeansBeforeOrder(cal, other, p, rows)
  {
    hide Describes, Passes, Filter, IsLatest;
    var groups: seq<Row> :| Describes(cal, db, p, groups) && Candidate(cal, db, p, groups, rows);
    SameGroups(cal, db, other, p, groups);
    var full: seq<Row> :|
      && |full| == |groups|
      && (forall i | 0 <= i < |full| :: if p.latestStatus then AddsLatest(cal, db, groups[i], full[i])
        else full[i] == groups[i])
      && rows == Filter(full, (r: Row) => forall h | h in p.having :: Passes(groups, r, h));
    forall i | 0 <= i < |full| && p.latestStatus ensures AddsLatest(cal, other, groups[i], full[i]) {
      assert AddsLatest(cal, db, groups[i], full[i]);
      SameLatest(cal, db, other, groups[i], full[i]);
    }
    assert Candidate(cal, other, p, groups, rows);
  }

  lemma SameLatest(cal: Calendar, db: Database, other: Database, row: Row, full: Row)
    requires other.incidents == db.incidents && AddsLatest(cal, db, row, full)
    ensures AddsLatest(cal, other, row, full)
  {
    hide Ahead;
    var q :| q in db.incidents && IsLatest(cal, db, q) && OfText(q.root) == At(row, Dimension(Root))
      && full == row[LatestStatus := OfText(q.status)];
    assert IsLatest(cal, other, q);
  }

  /** Adding, removing or duplicating logs never changes the answers to a plan over
      incidents that does not count logs. */
  lemma LogsDoNotMatter(p: Plan, s: Snapshot, cal: Calendar, db: Database, other: Database, q: Query, out: seq<Row>)
    requires Compile(p, s, cal) == Success(q) && db.Valid() && other.Valid()
    requires p.entity == Incidents && LogCount !in p.metrics && other.incidents == db.incidents
    requires Answers(cal, db, q, out)
    ensures Answers(cal, other, q, out)
  {
    hide Compile, Candidates, Sorted, MeansBeforeOrder;
    CandidatesMean(p, s, cal, db, q);
    CandidatesMean(p, s, cal, other, q);
    SameMeaning(cal, db, other, p, Candidates(cal, db, q));
    MeaningIsUnique(cal, other, p, Candidates(cal, db, q), Candidates(cal, other, q));
  }

  // ---- Event counts add up ---------------------------------------------------------------------------

  lemma {:induction false} FilterZero(rows: seq<Joined>, keys: seq<seq<Value>>, key: Joined -> seq<Value>)
    requires rows == []
    ensures Sum(Map(keys, (k: seq<Value>) => |Filter(rows, (r: Joined) => key(r) == k)|)) == 0
  {
    if keys != [] {
      FilterZero(rows, keys[1..], key);
    }
  }

  /** One more row adds one to its own group and to no other. */
  lemma {:induction false} OneGroupGrows(row: Joined, rest: seq<Joined>, keys: seq<seq<Value>>,
          key: Joined -> seq<Value>)
    requires NoDuplicates(keys)
    ensures Sum(Map(keys, (k: seq<Value>) => |Filter([row] + rest, (r: Joined) => key(r) == k)|))
         == Sum(Map(keys, (k: seq<Value>) => |Filter(rest, (r: Joined) => key(r) == k)|))
           + (if key(row) in keys then 1 else 0)
  {
    if keys != [] {
      OneGroupGrows(row, rest, keys[1..], key);
      var k := keys[0];
      FilterAppend([row], rest, (r: Joined) => key(r) == k);
      assert key(row) in keys <==> key(row) == k || key(row) in keys[1..];
    }
  }

  /** Groups of different keys that cover all rows have as many members as there are rows. */
  lemma {:induction false} GroupsCover(rows: seq<Joined>, keys: seq<seq<Value>>, key: Joined -> seq<Value>)
    requires NoDuplicates(keys) && forall r | r in rows :: key(r) in keys
    ensures Sum(Map(keys, (k: seq<Value>) => |Filter(rows, (r: Joined) => key(r) == k)|)) == |rows|
  {
    if rows == [] {
      FilterZero(rows, keys, key);
    } else {
      assert rows == [rows[0]] + rows[1..];
      assert rows[0] in rows && forall r | r in rows[1..] :: r in rows;
      GroupsCover(rows[1..], keys, key);
      OneGroupGrows(rows[0], rows[1..], keys, key);
    }
  }

  /** The events a plan selects, orphans included. */
  ghost function SelectedLogs(cal: Calendar, db: Database, p: Plan): seq<Log> {
    Filter(db.logs, (l: Log) => InScope(cal, p, Joined(Some(l), ParentOf(db, l))))
  }

  lemma {:induction false} MapFilter<T, U>(xs: seq<T>, f: T -> U, keep: U -> bool, kept: T -> bool)
    requires forall x | x in xs :: keep(f(x)) == kept(x)
    ensures |Filter(Map(xs, f), keep)| == |Filter(xs, kept)|
  {
    if xs != [] {
      assert Map(xs, f) == [f(xs[0])] + Map(xs[1..], f);
      assert xs[0] in xs && forall x | x in xs[1..] :: x in xs;
      MapFilter(xs[1..], f, keep, kept);
    }
  }

  lemma EventPopulation(cal: Calendar, db: Database, p: Plan)
    requires p.entity == Events
    ensures |Population(cal, db, p)| == |SelectedLogs(cal, db, p)|
  {
    hide InScope, ParentOf;
    MapFilter(db.logs, (l: Log) => Joined(Some(l), ParentOf(db, l)), (r: Joined) => InScope(cal, p, r),
      (l: Log) => InScope(cal, p, Joined(Some(l), ParentOf(db, l))));
  }

  lemma KeyedCounts(cal: Calendar, db: Database, p: Plan, members: seq<Joined>)
    requires db.Valid() && Compiled(p) && members == Population(cal, db, p) && p.entity == Events
      && LogCount in p.metrics
    ensures Sum(Map(GroupRows(cal, db, p, members), (r: Row) => WholeOr0(At(r, Measure(LogCount))))) == |members|
  {
    hide Columns, GroupExprs, KeyOf, Population, Project, Distinct, Filter, Members, Compiled, Sum, Map;
    var key, count := (r: Joined) => KeyOf(cal, db, r, GroupExprs(p)), (r: Row) => WholeOr0(At(r, Measure(LogCount)));
    var keys := Distinct(Map(members, key));
    var row := (k: seq<Value>) => Project(cal, db, KeyMembers(cal, db, p, members, k), Columns(p));
    var size := (k: seq<Value>) => |Filter(members, (r: Joined) => key(r) == k)|;
    assert Keys(cal, db, p, members) == Map(members, key) by { SameKeys(cal, db, p, members, key); }
    forall r | r in members ensures key(r) in keys {
      var i :| 0 <= i < |members| && members[i] == r;
      assert Map(members, key)[i] == key(r);
    }
    GroupsCover(members, keys, key);
    forall k | k in keys ensures count(row(k)) == size(k) {
      var same := (r: Joined) => KeyOf(cal, db, r, GroupExprs(p)) == k;
      PopulationMembers(cal, db, p);
      FilterKeepsMembers(db, p.entity, members, same);
      ProjectMeasure(cal, db, p, KeyMembers(cal, db, p, members, k), LogCount);
      FilterAgrees(members, same, (r: Joined) => key(r) == k);
    }
    MapMap(keys, row, count, size);
    assert Sum(Map(keys, size)) == |members|;
    var rows := GroupRows(cal, db, p, members);
    assert rows == Map(keys, row);
    assert Map(rows, (r: Row) => WholeOr0(At(r, Measure(LogCount)))) == Map(rows, count);
    assert Map(keys, (k: seq<Value>) => |Filter(members, (r: Joined) => key(r) == k)|) == Map(keys, size);
  }

  lemma SameKeys(cal: Calendar, db: Database, p: Plan, members: seq<Joined>, key: Joined -> seq<Value>)
    requires forall r :: key(r) == KeyOf(cal, db, r, GroupExprs(p))
    ensures Keys(cal, db, p, members) == Map(members, key)
  {
    hide KeyOf, GroupExprs;
  }

  /** Summed over all groups, the event-grain log count is the number of selected logs:
      the join to the incidents neither drops an orphan nor repeats a log. */
  lemma LogCountsAddUp(p: Plan, s: Snapshot, cal: Calendar, db: Database, q: Query)
    requires Compile(p, s, cal) == Success(q) && db.Valid() && p.entity == Events && LogCount in p.metrics
    ensures Sum(Map(Base(cal, db, q.base), (r: Row) => WholeOr0(At(r, Measure(LogCount)))))
      == |SelectedLogs(cal, db, p)|
  {
    hide Compile, Base, Columns, Population, GroupRows, GroupOutputs, Project, SelectedLogs, Compiled, Members;
    BaseRows(p, s, cal, db, q);
    EventPopulation(cal, db, p);
    var members := Population(cal, db, p);
    if GroupOutputs(p) == [] {
      PopulationMembers(cal, db, p);
      ProjectMeasure(cal, db, p, members, LogCount);
    } else {
      KeyedCounts(cal, db, p, members);
    }
  }
}
