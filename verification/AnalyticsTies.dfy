/** When a ranking is determined: the database orders rows with an unstable sort and
    cuts the result, so an answer is unique exactly when no tie reaches the cut. */
module AnalyticsTies {
  import opened Basics
  import opened Sorting
  import opened AnalyticsPlan
  import opened AnalyticsData
  import opened AnalyticsSql
  import opened AnalyticsCompiler
  import opened AnalyticsMeaning
  import opened AnalyticsCorrectness
  import opened AnalyticsAnswers

  // ---- The order of rows ---------------------------------------------------------------------------

  /** Rows that may stand both ways round agree on every key. */
  lemma {:induction false} TiedOnKeys(cal: Calendar, keys: seq<SortKey>, a: Row, b: Row)
    requires InOrder(cal, keys, a, b) && InOrder(cal, keys, b, a)
    ensures forall k | k in keys ::
      !Less(SortValue(cal, k, a), SortValue(cal, k, b)) && !Less(SortValue(cal, k, b), SortValue(cal, k, a))
  {
    hide Less, SortValue;
    if keys != [] {
      var x, y := SortValue(cal, keys[0], a), SortValue(cal, keys[0], b);
      ValueOrder(x, y);
      TiedOnKeys(cal, keys[1..], a, b);
      assert forall k :: k in keys <==> k == keys[0] || k in keys[1..];
    }
  }

  lemma {:induction false} AllTied(cal: Calendar, keys: seq<SortKey>, a: Row, b: Row)
    requires forall k | k in keys ::
      !Less(SortValue(cal, k, a), SortValue(cal, k, b)) && !Less(SortValue(cal, k, b), SortValue(cal, k, a))
    ensures InOrder(cal, keys, a, b)
  {
    hide Less, SortValue;
    if keys != [] {
      AllTied(cal, keys[1..], a, b);
    }
  }

  lemma {:induction false} InOrderTotal(cal: Calendar, keys: seq<SortKey>, a: Row, b: Row)
    ensures InOrder(cal, keys, a, b) || InOrder(cal, keys, b, a)
  {
    hide Less, SortValue;
    if keys != [] {
      InOrderTotal(cal, keys[1..], a, b);
    }
  }

  lemma {:induction false} InOrderTransitive(cal: Calendar, keys: seq<SortKey>, a: Row, b: Row, c: Row)
    requires InOrder(cal, keys, a, b) && InOrder(cal, keys, b, c)
    ensures InOrder(cal, keys, a, c)
  {
    hide Less, SortValue;
    if keys != [] {
      var x, y, z := SortValue(cal, keys[0], a), SortValue(cal, keys[0], b), SortValue(cal, keys[0], c);
      if keys[0].descending {
        ValueChain(z, y, x);
      } else {
        ValueChain(x, y, z);
      }
      if !Less(x, y) && !Less(y, x) && !Less(y, z) && !Less(z, y) {
        InOrderTransitive(cal, keys[1..], a, b, c);
      }
    }
  }

  lemma ValueChain(x: Value, y: Value, z: Value)
    ensures !Less(y, x) && !Less(z, y) ==> !Less(z, x) && (Less(x, y) || Less(y, z) ==> Less(x, z))
    ensures !Less(y, z) && !Less(x, y) ==> !Less(x, z)
    ensures !(Less(x, y) && Less(y, x)) && !(Less(y, z) && Less(z, y)) && !(Less(x, z) && Less(z, x))
  {
    hide Less;
    ValueOrder(x, y);
    ValueOrder(y, z);
    ValueOrder(x, z);
    if !Less(y, x) && !Less(z, y) {
      ValueOrderTransitive(x, y, z);
      if !Less(x, z) {
        if Less(x, y) { ValueOrderTransitive(y, z, x); }
        if Less(y, z) { ValueOrderTransitive(z, x, y); }
      }
    }
    if !Less(y, z) && !Less(x, y) { ValueOrderTransitive(z, y, x); }
  }

  /** `a` must stand before `b`. */
  function Precedes(cal: Calendar, keys: seq<SortKey>): (Row, Row) -> bool {
    (a: Row, b: Row) => !InOrder(cal, keys, b, a)
  }

  lemma PrecedesOrders(cal: Calendar, keys: seq<SortKey>, rows: seq<Row>)
    ensures StrictOrder(Precedes(cal, keys), rows)
  {
    hide InOrder;
    forall a, b | a in rows && b in rows ensures InOrder(cal, keys, a, b) || InOrder(cal, keys, b, a) {
      InOrderTotal(cal, keys, a, b);
    }
    forall a, b, c | InOrder(cal, keys, a, b) && InOrder(cal, keys, b, c) ensures InOrder(cal, keys, a, c) {
      InOrderTransitive(cal, keys, a, b, c);
    }
  }

  // ---- Every query -----------------------------------------------------------------------------------

  /** The database can give one answer only. */
  ghost predicate Determined(cal: Calendar, db: Database, q: Query) {
    forall x, y | Answers(cal, db, q, x) && Answers(cal, db, q, y) :: x == y
  }

  lemma AnswerOf(cal: Calendar, db: Database, q: Query, all: seq<Row>)
    requires SortOf(all, Candidates(cal, db, q), Precedes(cal, q.ordering))
    ensures Answers(cal, db, q, Take(all, q.limit))
  {
    hide Candidates, InOrder;
    assert Sorted(cal, q.ordering, all);
  }

  lemma SortOfAnswer(cal: Calendar, db: Database, q: Query, out: seq<Row>) returns (all: seq<Row>)
    requires Answers(cal, db, q, out)
    ensures SortOf(all, Candidates(cal, db, q), Precedes(cal, q.ordering)) && out == Take(all, q.limit)
  {
    hide Candidates, InOrder;
    all :|
      && multiset(all) == multiset(Candidates(cal, db, q)) && Sorted(cal, q.ordering, all)
      && out == Take(all, q.limit);
  }

  /** For every query: one answer exactly when no two different tied candidates reach the
      first `limit` places. */
  lemma QueryDetermined(cal: Calendar, db: Database, q: Query)
    ensures Determined(cal, db, q) <==> !Ambiguous(Candidates(cal, db, q), Precedes(cal, q.ordering), q.limit)
  {
    hide Candidates, InOrder, Answers, SortOf, Ambiguous, Precedes, Take;
    var rows, before := Candidates(cal, db, q), Precedes(cal, q.ordering);
    PrecedesOrders(cal, q.ordering, rows);
    CutIsFixedExactly(rows, before, q.limit);
    if CutIsFixed(rows, before, q.limit) {
      forall x, y | Answers(cal, db, q, x) && Answers(cal, db, q, y) ensures x == y {
        var xs := SortOfAnswer(cal, db, q, x);
        var ys := SortOfAnswer(cal, db, q, y);
      }
    } else {
      var xs, ys :| SortOf(xs, rows, before) && SortOf(ys, rows, before) && Take(xs, q.limit) != Take(ys, q.limit);
      AnswerOf(cal, db, q, xs);
      AnswerOf(cal, db, q, ys);
    }
  }

  // ---- Limited rankings --------------------------------------------------------------------------------

  /** A ranking that the compiler completes by the identity of its groups. */
  predicate Ranks(p: Plan) {
    p.limit.Some? && p.orderBy != [] && p.metrics != []
  }

  /** An asked timestamp key is compared by instant and not completed by its text. */
  predicate ByInstantOnly(p: Plan, o: Output) {
    o.Dimension? && KindOf(o.field) == Timestamp && Orders(p, o)
  }

  predicate SameRank(x: Value, y: Value) {
    !Less(x, y) && !Less(y, x)
  }

  /** Nothing in the ranking tells the groups apart: they agree on every asked key and on
      every group output, except that ordered timestamps agree as instants only. */
  predicate Interchangeable(cal: Calendar, p: Plan, a: Row, b: Row) {
    && (forall o | o in p.orderBy :: SameRank(SortValue(cal, KeyFor(o), a), SortValue(cal, KeyFor(o), b)))
    && (forall o | o in GroupOutputs(p) && !ByInstantOnly(p, o) :: At(a, o) == At(b, o))
  }

  /** Every group output that is not compared by instant is among the sort keys as it is shown. */
  lemma GroupOutputSorted(p: Plan, o: Output) returns (k: SortKey)
    requires Ranks(p) && o in GroupOutputs(p) && !ByInstantOnly(p, o)
    ensures k in Map(p.orderBy, KeyFor) + TieBreakers(p) && k.output == o && !k.byInstant
  {
    hide GroupOutputs;
    var keys := Map(p.orderBy, KeyFor);
    if Orders(p, o) {
      var i :| 0 <= i < |p.orderBy| && p.orderBy[i].output == o;
      assert p.orderBy[i] in p.orderBy;
      k := keys[i];
      assert k in keys;
    } else {
      k := SortKey(o, false, false);
      var free := (o: Output) => !Orders(p, o);
      FilterMember(GroupOutputs(p), free, o);
      var i :| 0 <= i < |Filter(GroupOutputs(p), free)| && Filter(GroupOutputs(p), free)[i] == o;
      assert TieBreakers(p)[i] == k;
    }
  }

  lemma KeyMeans(p: Plan, k: SortKey)
    requires k in Map(p.orderBy, KeyFor) + TieBreakers(p)
    ensures (exists o | o in p.orderBy :: k == KeyFor(o))
         || (k.output in GroupOutputs(p) && !ByInstantOnly(p, k.output) && !k.byInstant)
  {
    hide GroupOutputs;
    var keys := Map(p.orderBy, KeyFor);
    var i :| 0 <= i < |keys + TieBreakers(p)| && (keys + TieBreakers(p))[i] == k;
    if i < |keys| {
      assert p.orderBy[i] in p.orderBy && k == KeyFor(p.orderBy[i]);
    } else {
      var free := (o: Output) => !Orders(p, o);
      var o := Filter(GroupOutputs(p), free)[i - |keys|];
      assert k == SortKey(o, false, false);
      FilterMember(GroupOutputs(p), free, o);
    }
  }

  lemma OrderedKey(p: Plan, o: Ordering)
    requires o in p.orderBy
    ensures KeyFor(o) in Map(p.orderBy, KeyFor) + TieBreakers(p)
  {
    hide TieBreakers, KeyFor;
    var i :| 0 <= i < |p.orderBy| && p.orderBy[i] == o;
    assert Map(p.orderBy, KeyFor)[i] == KeyFor(o);
  }

  /** Values without reals that tie are equal. */
  lemma ExactRank(x: Value, y: Value)
    requires !x.Real? && !y.Real?
    ensures SameRank(x, y) <==> x == y
  {
    ValueOrder(x, y);
    ValueOrder(x, x);
  }

  lemma TieIsInterchangeable(cal: Calendar, p: Plan, a: Row, b: Row)
    requires Ranks(p) && forall o | o in GroupOutputs(p) :: !At(a, o).Real? && !At(b, o).Real?
    ensures Tied(Precedes(cal, Map(p.orderBy, KeyFor) + TieBreakers(p)), a, b) <==> Interchangeable(cal, p, a, b)
  {
    hide GroupOutputs, Less, InOrder, TieBreakers, Map, At, ByInstantOnly, KeyFor;
    var keys := Map(p.orderBy, KeyFor) + TieBreakers(p);
    if Tied(Precedes(cal, keys), a, b) {
      TiedOnKeys(cal, keys, a, b);
      forall o | o in p.orderBy ensures SameRank(SortValue(cal, KeyFor(o), a), SortValue(cal, KeyFor(o), b)) {
        OrderedKey(p, o);
      }
      forall o | o in GroupOutputs(p) && !ByInstantOnly(p, o) ensures At(a, o) == At(b, o) {
        var k := GroupOutputSorted(p, o);
        ExactRank(At(a, o), At(b, o));
      }
    }
    if Interchangeable(cal, p, a, b) {
      forall k | k in keys ensures SameRank(SortValue(cal, k, a), SortValue(cal, k, b)) {
        KeyMeans(p, k);
        if !exists o | o in p.orderBy :: k == KeyFor(o) { ExactRank(At(a, k.output), At(b, k.output)); }
      }
      AllTied(cal, keys, a, b);
      AllTied(cal, keys, b, a);
    }
  }

  lemma RanksOrdering(p: Plan, s: Snapshot, cal: Calendar, db: Database, q: Query)
    requires Compile(p, s, cal) == Success(q) && db.Valid() && p.metrics != []
    ensures q.ordering == Map(p.orderBy, KeyFor) + TieBreakers(p)
    ensures CleanGroups(p, Candidates(cal, db, q))
  {
    hide Compile, CompileFilters, CompileSuccess, CompileHavings, CompileOrdering, CheckSelection, CheckWindow,
      MeansBeforeOrder, Candidates, LimitOf, Columns, GroupExprs, TieBreakers, CleanGroups, Map;
    CompileParts(p, s, cal, q);
    OrderingShape(p);
    CandidatesMean(p, s, cal, db, q);
    MeantClean(cal, db, p, Candidates(cal, db, q));
  }

  /** Two different candidates that nothing in the ranking tells apart, within the first
      `limit` places. */
  ghost predicate TiesAtCut(cal: Calendar, db: Database, p: Plan, q: Query) {
    var rows := Candidates(cal, db, q);
    exists a, b | a in rows && b in rows ::
      a != b && Interchangeable(cal, p, a, b) && Rank(rows, Precedes(cal, q.ordering), a) < q.limit
  }

  lemma CandidatesTie(cal: Calendar, p: Plan, rows: seq<Row>, a: Row, b: Row)
    requires Ranks(p) && CleanGroups(p, rows) && a in rows && b in rows
    ensures Tied(Precedes(cal, Map(p.orderBy, KeyFor) + TieBreakers(p)), a, b) <==> Interchangeable(cal, p, a, b)
  {
    hide GroupOutputs, Tied, Precedes, TieBreakers, Map, Interchangeable, DistinctGroups, Ranks;
    TieIsInterchangeable(cal, p, a, b);
  }

  /** Main result, for every compiled ranking with a limit: it has one answer if and only
      if no two different candidates that agree on every asked key, and on every group
      output that is not an ordered timestamp, reach the first `limit` places. */
  lemma RankingDetermined(p: Plan, s: Snapshot, cal: Calendar, db: Database, q: Query)
    requires Compile(p, s, cal) == Success(q) && db.Valid() && Ranks(p)
    ensures Determined(cal, db, q) <==> !TiesAtCut(cal, db, p, q)
  {
    hide Compile, Candidates, Precedes, Determined, Tied, Interchangeable, Rank, CleanGroups, TieBreakers, Map;
    RanksOrdering(p, s, cal, db, q);
    QueryDetermined(cal, db, q);
    var rows, before := Candidates(cal, db, q), Precedes(cal, q.ordering);
    forall a, b | a in rows && b in rows ensures Tied(before, a, b) <==> Interchangeable(cal, p, a, b) {
      CandidatesTie(cal, p, rows, a, b);
    }
  }

  predicate NoTimestampOrdered(p: Plan) {
    forall o | o in p.orderBy :: o.output.Dimension? ==> KindOf(o.output.field) != Timestamp
  }

  /** Without an asked timestamp key nothing ties, so every such ranking has one answer. */
  lemma TopNDeterministic(p: Plan, s: Snapshot, cal: Calendar, db: Database, q: Query, x: seq<Row>, y: seq<Row>)
    requires Compile(p, s, cal) == Success(q) && db.Valid()
    requires p.limit.Some? && p.orderBy != [] && p.metrics != [] && NoTimestampOrdered(p)
    requires Answers(cal, db, q, x) && Answers(cal, db, q, y)
    ensures x == y
  {
    hide Compile, Candidates, Precedes, Rank, CleanGroups, TieBreakers, Map, Interchangeable, Answers;
    RanksOrdering(p, s, cal, db, q);
    RankingDetermined(p, s, cal, db, q);
    var rows := Candidates(cal, db, q);
    forall a, b | a in rows && b in rows && Interchangeable(cal, p, a, b) ensures a == b {
      OneRowPerGroup(cal, p, rows, a, b);
    }
  }

  lemma OneRowPerGroup(cal: Calendar, p: Plan, rows: seq<Row>, a: Row, b: Row)
    requires NoTimestampOrdered(p) && CleanGroups(p, rows) && a in rows && b in rows && Interchangeable(cal, p, a, b)
    ensures a == b
  {
    hide GroupOutputs, SameRank, KeyFor, SortValue, Apart;
    var i :| 0 <= i < |rows| && rows[i] == a;
    var j :| 0 <= j < |rows| && rows[j] == b;
    if i != j {
      ApartSymmetric(p, rows[i], rows[j]);
      AgreeEverywhere(cal, p, a, b);
      assert false;
    }
  }

  lemma AgreeEverywhere(cal: Calendar, p: Plan, a: Row, b: Row)
    requires NoTimestampOrdered(p) && Interchangeable(cal, p, a, b)
    ensures !Apart(p, a, b)
  {
    hide GroupOutputs, SameRank, KeyFor, SortValue, At, ByInstantOnly, NoTimestampOrdered;
    forall o | o in GroupOutputs(p) ensures At(a, o) == At(b, o) {
      NotByInstant(p, o);
    }
  }

  lemma NotByInstant(p: Plan, o: Output)
    requires NoTimestampOrdered(p)
    ensures !ByInstantOnly(p, o)
  {
    if o.Dimension? && Orders(p, o) {
      var i :| 0 <= i < |p.orderBy| && p.orderBy[i].output == o;
      assert p.orderBy[i] in p.orderBy;
    }
  }
}
