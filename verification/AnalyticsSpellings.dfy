/** A ranking with two answers: one plan over two incidents that were received at one
    instant, spelt with different offsets. */
module AnalyticsSpellings {
  import opened Basics
  import opened Sorting
  import opened AnalyticsPlan
  import opened AnalyticsData
  import opened AnalyticsSql
  import opened AnalyticsCompiler
  import opened AnalyticsMeaning
  import opened AnalyticsCorrectness
  import opened AnalyticsAnswers
  import opened AnalyticsTies

  /** The receipt time with the fewest days behind it, and how many incidents have it. */
  const EARLIEST := Plan(Incidents, [ReceivedAt], [IncidentCount], [], false, false, [],
                         [Ordering(Dimension(ReceivedAt), false)], Some(1), false, None, [])

  const QUEUE := [ColumnInfo("QueueId", false, false, 1), ColumnInfo("ReceivedAt", false, true, 0)]

  const SNAPSHOT := Snapshot(1000, {Queue}, map[Queue := QUEUE])

  const LOCAL := "2026-01-01T07:00:00+07:00"

  const ZULU := "2026-01-01T00:00:00+00:00"

  function Received(id: string, at: string): Incident {
    Incident(id, None, None, None, None, None, Some(at), None, None)
  }

  const TABLES := Database([Received("1", LOCAL), Received("2", ZULU)], [])

  lemma SnapshotColumns()
    ensures SNAPSHOT.Available(IncidentId) && SNAPSHOT.Available(ReceivedAt)
    ensures SNAPSHOT.Key(Queue) == ["QueueId"] && SNAPSHOT.NeverNull(Queue, "QueueId")
  {
    assert SNAPSHOT.Columns(Queue) == QUEUE && QUEUE[0] in QUEUE && QUEUE[1] in QUEUE;
    var key := (c: ColumnInfo) => c.primaryKeyPosition != 0;
    assert QUEUE[1..] == [QUEUE[1]] && QUEUE[1..][1..] == [];
    assert Filter(QUEUE[1..][1..], key) == [];
    assert Filter(QUEUE[1..], key) == [];
    assert Filter(QUEUE, key) == [QUEUE[0]];
  }

  lemma EarliestSelects()
    ensures CheckSelection(EARLIEST, SNAPSHOT).Success?
  {
    hide Snapshot.Available;
    SnapshotColumns();
    assert FieldsAvailable(EARLIEST, SNAPSHOT);
    assert MeasuresEntity(EARLIEST, SNAPSHOT);
    assert SelectsOnce(EARLIEST);
    assert AveragesExplained(EARLIEST);
  }

  lemma EarliestOrders()
    ensures CompileOrdering(EARLIEST).Success?
  {
    assert EARLIEST.orderBy[0].output in Outputs(EARLIEST) by {
      assert GroupOutputs(EARLIEST)[0] == Dimension(ReceivedAt);
      assert Outputs(EARLIEST)[0] == Dimension(ReceivedAt);
    }
    TraverseOne(EARLIEST.orderBy[0], (o: Ordering) => CompileOrder(EARLIEST, o));
  }

  lemma EarliestSources()
    ensures CheckSources(EARLIEST, SNAPSHOT).Success?
  {
    hide Snapshot.Available, Snapshot.Key, Snapshot.NeverNull;
    SnapshotColumns();
    assert LogCount !in EARLIEST.metrics;
  }

  lemma EarliestField()
    ensures CheckField(Incidents, SNAPSHOT, ReceivedAt).Success?
  {
    hide Snapshot.Available;
    SnapshotColumns();
  }

  lemma EarliestColumns()
    ensures CheckColumns(EARLIEST, SNAPSHOT).Success?
  {
    hide CheckField, Snapshot.HasColumn;
    EarliestField();
    TraverseOne(ReceivedAt, (f: Field) => CheckField(EARLIEST.entity, SNAPSHOT, f));
    assert EARLIEST.dimensions == [ReceivedAt] && LogCount !in EARLIEST.metrics;
  }

  lemma EarliestCompiles(cal: Calendar)
    ensures Compile(EARLIEST, SNAPSHOT, cal).Success?
  {
    hide CheckSelection, CheckSources, CheckColumns, CompileOrdering, QueryOf, GroupOutputs, Columns, GroupExprs;
    EarliestSelects();
    EarliestOrders();
    EarliestSources();
    EarliestColumns();
  }

  lemma EarliestGroups()
    ensures GroupOutputs(EARLIEST) == [Dimension(ReceivedAt)] && ByInstantOnly(EARLIEST, Dimension(ReceivedAt))
  {
    assert EARLIEST.orderBy[0].output == Dimension(ReceivedAt);
  }

  lemma Both(cal: Calendar)
    ensures Population(cal, TABLES, EARLIEST)
         == [Joined(None, Some(TABLES.incidents[0])), Joined(None, Some(TABLES.incidents[1]))]
  {
    FilterAll(Subjects(TABLES, Incidents), (r: Joined) => InScope(cal, EARLIEST, r));
  }

  /** Nothing is dropped: the candidates are the groups. */
  lemma GroupsAreCandidates(cal: Calendar, q: Query)
    requires Compile(EARLIEST, SNAPSHOT, cal) == Success(q)
    ensures Describes(cal, TABLES, EARLIEST, Candidates(cal, TABLES, q))
  {
    hide Compile, Candidates, Describes, Filter;
    CandidatesMean(EARLIEST, SNAPSHOT, cal, TABLES, q);
    var rows := Candidates(cal, TABLES, q);
    var groups: seq<Row> :| Describes(cal, TABLES, EARLIEST, groups) && Candidate(cal, TABLES, EARLIEST, groups, rows);
    FilterAll(groups, (r: Row) => forall h | h in EARLIEST.having :: Passes(groups, r, h));
    assert groups == rows by {
      var full: seq<Row> :|
        && |full| == |groups|
        && (forall i | 0 <= i < |full| :: full[i] == groups[i])
        && rows == Filter(full, (r: Row) => forall h | h in EARLIEST.having :: Passes(groups, r, h));
      assert full == groups;
    }
  }

  lemma ShownTime(cal: Calendar, row: Row, member: Joined)
    requires ShowsGroup(cal, TABLES, EARLIEST, row, member)
    ensures At(row, Dimension(ReceivedAt)) == ValueOf(member, ReceivedAt)
  {
    hide GroupOf, MetricOf, ValueOf;
    EarliestGroups();
    assert Dimension(ReceivedAt) in GroupOutputs(EARLIEST);
  }

  lemma Times()
    ensures ValueOf(Joined(None, Some(TABLES.incidents[0])), ReceivedAt) == Text(LOCAL)
    ensures ValueOf(Joined(None, Some(TABLES.incidents[1])), ReceivedAt) == Text(ZULU)
  {
  }

  lemma HasRowOf(cal: Calendar, p: Plan, rows: seq<Row>, k: nat)
    requires Describes(cal, TABLES, p, rows) && k < |Population(cal, TABLES, p)| && p.metrics != []
      && GroupOutputs(p) != []
    ensures HasRow(cal, TABLES, p, rows, Population(cal, TABLES, p)[k])
  {
    hide Population, HasRow, HasMember, DistinctGroups, GroupOutputs;
  }

  /** Each spelling has a row, and every row shows one of the two. */
  lemma RowOf(cal: Calendar, rows: seq<Row>, k: nat) returns (row: Row)
    requires Describes(cal, TABLES, EARLIEST, rows) && k < 2
    ensures row in rows && At(row, Dimension(ReceivedAt)) == Text(if k == 0 then LOCAL else ZULU)
  {
    hide Population, ShowsGroup, Describes, At, ValueOf, GroupOutputs;
    EarliestGroups();
    Both(cal);
    Times();
    HasRowOf(cal, EARLIEST, rows, k);
    var member := Population(cal, TABLES, EARLIEST)[k];
    var i :| 0 <= i < |rows| && ShowsGroup(cal, TABLES, EARLIEST, rows[i], member);
    ShownTime(cal, rows[i], member);
    row := rows[i];
  }

  lemma TimeOf(cal: Calendar, rows: seq<Row>, row: Row)
    requires Describes(cal, TABLES, EARLIEST, rows) && row in rows
    ensures At(row, Dimension(ReceivedAt)) in {Text(LOCAL), Text(ZULU)}
  {
    hide Population, ShowsGroup, Describes, At, ValueOf, GroupOutputs;
    EarliestGroups();
    Both(cal);
    Times();
    var i :| 0 <= i < |rows| && rows[i] == row;
    var k := DescribedGroup(cal, TABLES, EARLIEST, rows, i);
    ShownTime(cal, row, Population(cal, TABLES, EARLIEST)[k]);
  }

  lemma OneInstant(cal: Calendar, rows: seq<Row>, a: Row, b: Row)
    requires cal.instant(LOCAL) == cal.instant(ZULU)
    requires Describes(cal, TABLES, EARLIEST, rows) && a in rows && b in rows
    ensures Interchangeable(cal, EARLIEST, a, b)
  {
    hide Describes, At;
    TimeOf(cal, rows, a);
    TimeOf(cal, rows, b);
    EarliestGroups();
    var x := Instant(cal, At(a, Dimension(ReceivedAt)));
    assert Instant(cal, At(b, Dimension(ReceivedAt))) == x;
    ValueOrder(x, x);
  }

  lemma FirstPlace(cal: Calendar, q: Query, a: Row)
    requires Compile(EARLIEST, SNAPSHOT, cal) == Success(q) && cal.instant(LOCAL) == cal.instant(ZULU)
    requires a in Candidates(cal, TABLES, q)
    ensures Rank(Candidates(cal, TABLES, q), Precedes(cal, q.ordering), a) == 0
  {
    hide Compile, Candidates, Describes, Interchangeable, Precedes, TieBreakers, Map, CleanGroups;
    GroupsAreCandidates(cal, q);
    RanksOrdering(EARLIEST, SNAPSHOT, cal, TABLES, q);
    var rows, before := Candidates(cal, TABLES, q), Precedes(cal, q.ordering);
    forall b | b in rows ensures !before(b, a) {
      OneInstant(cal, rows, a, b);
      CandidatesTie(cal, EARLIEST, rows, a, b);
    }
    RankFirst(rows, before, a);
  }

  /** In every calendar in which both spellings denote one instant, the plan compiles and
      has two different answers over these tables. */
  lemma TwoAnswers(cal: Calendar) returns (q: Query, x: seq<Row>, y: seq<Row>)
    requires cal.instant(LOCAL) == cal.instant(ZULU)
    ensures Compile(EARLIEST, SNAPSHOT, cal) == Success(q) && TABLES.Valid()
    ensures Answers(cal, TABLES, q, x) && Answers(cal, TABLES, q, y) && x != y
  {
    hide Compile, Candidates, Describes, Interchangeable, Precedes, Rank, Answers;
    EarliestCompiles(cal);
    q := Compile(EARLIEST, SNAPSHOT, cal).value;
    GroupsAreCandidates(cal, q);
    var rows := Candidates(cal, TABLES, q);
    var a := RowOf(cal, rows, 0);
    var b := RowOf(cal, rows, 1);
    assert LOCAL[12] != ZULU[12];
    OneInstant(cal, rows, a, b);
    FirstPlace(cal, q, a);
    LimitIsOne(cal, q);
    assert TiesAtCut(cal, TABLES, EARLIEST, q);
    RankingDetermined(EARLIEST, SNAPSHOT, cal, TABLES, q);
    x, y :| Answers(cal, TABLES, q, x) && Answers(cal, TABLES, q, y) && x != y;
  }

  lemma LimitIsOne(cal: Calendar, q: Query)
    requires Compile(EARLIEST, SNAPSHOT, cal) == Success(q)
    ensures q.limit == 1
  {
    hide Compile, CheckSelection, CheckWindow, CompileFilters, CompileSuccess, CompileHavings, CompileOrdering,
      Columns, GroupExprs;
    CompileParts(EARLIEST, SNAPSHOT, cal, q);
  }
}
