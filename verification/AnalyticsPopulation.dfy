/** The compiled FROM and WHERE select exactly the plan's population. */
module AnalyticsPopulation {
  import opened Basics
  import opened AnalyticsPlan
  import opened AnalyticsData
  import opened AnalyticsSql
  import opened AnalyticsCompiler
  import opened AnalyticsMeaning

  // ---- The join -------------------------------------------------------------------------

  lemma {:induction false} MatchesParent(db: Database, l: Log, incidents: seq<Incident>)
    requires forall i, j | 0 <= i < j < |incidents| :: incidents[i].id != incidents[j].id
    ensures |Filter(incidents, (q: Incident) => l.incident == Some(q.id))| <= 1
  {
    if incidents != [] {
      var keep := (q: Incident) => l.incident == Some(q.id);
      MatchesParent(db, l, incidents[1..]);
      if keep(incidents[0]) {
        FilterNone(incidents[1..], keep);
      }
    }
  }

  /** With unique incident identities the outer join adds no row to a log. */
  lemma LeftJoinIsParent(db: Database, l: Log)
    requires db.Valid()
    ensures LeftJoin(db, l) == [Joined(Some(l), ParentOf(db, l))]
  {
    hide Filter;
    var keep := (q: Incident) => l.incident == Some(q.id);
    MatchesParent(db, l, db.incidents);
    assert Matches(db, l) == Filter(db.incidents, keep) by {
      FilterAgrees(db.incidents, keep, (q: Incident) => l.incident == Some(q.id));
    }
    FilterMembers(db.incidents, keep);
    if ParentOf(db, l).Some? {
      assert ParentOf(db, l).value in Matches(db, l);
    } else {
      FilterNone(db.incidents, keep);
    }
  }

  lemma {:induction false} FlattenSingles<T, U>(xs: seq<T>, f: T -> seq<U>, g: T -> U)
    requires forall x | x in xs :: f(x) == [g(x)]
    ensures Flatten(Map(xs, f)) == Map(xs, g)
  {
    if xs != [] {
      FlattenSingles(xs[1..], f, g);
    }
  }

  lemma SourceIsSubjects(db: Database, e: Entity)
    requires db.Valid()
    ensures Source(db, e) == Subjects(db, e)
  {
    if e == Events {
      var f, g := (l: Log) => LeftJoin(db, l), (l: Log) => Joined(Some(l), ParentOf(db, l));
      forall l | l in db.logs ensures f(l) == [g(l)] { LeftJoinIsParent(db, l); }
      FlattenSingles(db.logs, f, g);
    }
  }

  // ---- Single tests ------------------------------------------------------------------------

  lemma TextCompares(op: Operator, a: string, b: string)
    ensures (Compare(op, Text(a), Text(b)) == True) == Relates(op, StringLess(a, b), StringLess(b, a))
  {
  }

  /** What a successfully compiled filter looks like. */
  lemma FilterShape(e: Entity, s: Snapshot, cal: Calendar, c: Criterion)
    requires CompileFilter(e, s, cal, c).Success?
    ensures CompileFilter(e, s, cal, c).value ==
      match c.op
      case IsNull | NotNull => NullTest(c.field, c.op == NotNull)
      case Comparing(op) =>
        match (KindOf(c.field), c.value)
        case (Integral, Some(Whole(n))) => ValueTest(c.field, op, Int(n))
        case (Textual, Some(Word(t))) => ValueTest(c.field, op, Text(t))
        case (Timestamp, Some(Word(t))) =>
          if cal.utc(t).Some? then InstantTest(c.field, op, cal.utc(t).value) else NonnegativeDuration
        case _ => NonnegativeDuration
    ensures c.op.Comparing? ==>
      if KindOf(c.field) == Integral then c.value.Some? && c.value.value.Whole?
      else c.value.Some? && c.value.value.Word? && (KindOf(c.field) == Timestamp ==> cal.utc(c.value.value.text).Some?)
  {
    hide CheckField, EnumOf, FitsInt64;
    var f := CheckField(e, s, c.field).value;
    assert f == c.field by { FieldKept(e, s, c.field); }
  }

  lemma FieldKept(e: Entity, s: Snapshot, f: Field)
    ensures CheckField(e, s, f).Success? ==> CheckField(e, s, f).value == f
  {
    hide Snapshot.Available;
  }

  /** A compiled filter is true on exactly the rows that meet the criterion; a missing
      or unreadable value makes it unknown, never true. */
  lemma FilterMeans(e: Entity, s: Snapshot, cal: Calendar, row: Joined, c: Criterion)
    requires CompileFilter(e, s, cal, c).Success?
    ensures (EvalTest(cal, row, CompileFilter(e, s, cal, c).value) == True) == Meets(cal, row, c)
  {
    hide CompileFilter, ValueOf, StringLess;
    FilterShape(e, s, cal, c);
    ValueKinds(row, c.field);
    if c.op.Comparing? && KindOf(c.field) == Textual && ValueOf(row, c.field).Text? {
      TextCompares(c.op.op, ValueOf(row, c.field).text, c.value.value.text);
    }
  }

  lemma ValueKinds(row: Joined, f: Field)
    ensures ValueOf(row, f) == Null || (if KindOf(f) == Integral then ValueOf(row, f).Int? else ValueOf(row, f).Text?)
  {
  }

  // ---- The whole condition -------------------------------------------------------------------

  lemma {:induction false} AllTrue(ts: seq<Truth>)
    ensures (AndAll(ts) == True) == (forall i | 0 <= i < |ts| :: ts[i] == True)
  {
    if ts != [] {
      AllTrue(ts[1..]);
      assert forall i | 0 < i < |ts| :: ts[i] == ts[1..][i - 1];
    }
  }

  lemma {:induction false} SomeTrue(ts: seq<Truth>)
    ensures (OrAll(ts) == True) == (exists i | 0 <= i < |ts| :: ts[i] == True)
  {
    if ts != [] {
      SomeTrue(ts[1..]);
      assert forall i | 0 < i < |ts| :: ts[i] == ts[1..][i - 1];
      if i :| 0 <= i < |ts[1..]| && ts[1..][i] == True { assert ts[i + 1] == True; }
    }
  }

  lemma UserMeans(p: Plan, s: Snapshot, cal: Calendar, row: Joined, user: seq<Test>)
    requires CompileFilters(p, s, cal) == Success(user)
    ensures |user| == |p.filters|
    ensures forall i | 0 <= i < |user| :: (EvalTests(cal, row, user)[i] == True) == Meets(cal, row, p.filters[i])
  {
    hide CompileFilter, EvalTest, Meets;
    forall i | 0 <= i < |user| ensures (EvalTests(cal, row, user)[i] == True) == Meets(cal, row, p.filters[i]) {
      assert CompileFilter(p.entity, s, cal, p.filters[i]) == Success(user[i]);
      FilterMeans(p.entity, s, cal, row, p.filters[i]);
    }
  }

  lemma BothTrue(cal: Calendar, row: Joined, x: Test, y: Test)
    ensures (AndAll(EvalTests(cal, row, [x, y])) == True)
      == (EvalTest(cal, row, x) == True && EvalTest(cal, row, y) == True)
  {
    hide EvalTest;
    AllTrue(EvalTests(cal, row, [x, y]));
    assert EvalTests(cal, row, [x, y]) == [EvalTest(cal, row, x), EvalTest(cal, row, y)];
  }

  lemma SuccessShape(p: Plan, s: Snapshot, system: seq<Test>)
    requires CompileSuccess(p, s) == Success(system)
    ensures system == if p.successOnly
      then [ValueTest(QueueStatus, Eq, Text("COMPLETED")), ValueTest(Outcome, Eq, Text("RECOVERED"))] else []
  {
    hide CheckField, Conflicts;
    FieldKept(p.entity, s, QueueStatus);
    FieldKept(p.entity, s, Outcome);
  }

  lemma SystemMeans(p: Plan, s: Snapshot, cal: Calendar, row: Joined, system: seq<Test>)
    requires CompileSuccess(p, s) == Success(system)
    ensures (AndAll(EvalTests(cal, row, system)) == True)
         == (p.successOnly ==> row.incident.Some? && row.incident.value.status == Some("COMPLETED")
                               && row.incident.value.outcome == Some("RECOVERED"))
  {
    hide Compare, EvalTests, AndAll, CompileSuccess;
    SuccessShape(p, s, system);
    if p.successOnly {
      BothTrue(cal, row, system[0], system[1]);
      EqualsText(ValueOf(row, QueueStatus), "COMPLETED");
      EqualsText(ValueOf(row, Outcome), "RECOVERED");
    } else {
      AllTrue([]);
      NoTests(cal, row);
    }
  }

  lemma NoTests(cal: Calendar, row: Joined)
    ensures EvalTests(cal, row, []) == []
  {
  }

  lemma EqualsText(v: Value, t: string)
    ensures (Compare(Eq, v, Text(t)) == True) == (v == Text(t))
  {
    if v.Text? {
      StringOrderTotal(v.text, t);
      StringOrderTotal(t, t);
    }
  }

  /** Filters joined by OR never weaken the mandatory success constraints. */
  lemma WhereMeans(p: Plan, s: Snapshot, cal: Calendar, row: Joined, user: seq<Test>, system: seq<Test>)
    requires CompileFilters(p, s, cal) == Success(user) && CompileSuccess(p, s) == Success(system)
    ensures (EvalWhere(cal, row, Where(user, p.either, system)) == True) == InScope(cal, p, row)
  {
    hide CompileFilters, CompileSuccess, EvalTests, Meets;
    UserMeans(p, s, cal, row, user);
    SystemMeans(p, s, cal, row, system);
    var ts := EvalTests(cal, row, user);
    assert |ts| == |user| by { EvalTestsLength(cal, row, user); }
    AllTrue(ts);
    SomeTrue(ts);
    if p.either {
      if i :| 0 <= i < |ts| && ts[i] == True {
        assert Meets(cal, row, p.filters[i]);
      }
      if c :| c in p.filters && Meets(cal, row, c) {
        var i :| 0 <= i < |p.filters| && p.filters[i] == c;
        assert ts[i] == True;
      }
    } else {
      if forall i | 0 <= i < |ts| :: ts[i] == True {
        forall c | c in p.filters ensures Meets(cal, row, c) {
          var i :| 0 <= i < |p.filters| && p.filters[i] == c;
          assert ts[i] == True;
        }
      }
      if forall c | c in p.filters :: Meets(cal, row, c) {
        forall i | 0 <= i < |ts| ensures ts[i] == True {
          assert p.filters[i] in p.filters;
        }
      }
    }
  }

  lemma EvalTestsLength(cal: Calendar, row: Joined, ts: seq<Test>)
    ensures |EvalTests(cal, row, ts)| == |ts|
  {
  }

  // ---- Members ------------------------------------------------------------------------------

  /** The members of a population: subjects of the database, none twice. */
  ghost predicate Members(db: Database, e: Entity, members: seq<Joined>) {
    && NoDuplicates(members)
    && forall r | r in members ::
         if e == Incidents then r.log.None? && r.incident.Some? && r.incident.value in db.incidents
         else r.log.Some? && r.log.value in db.logs && r.incident == ParentOf(db, r.log.value)
  }

  lemma PopulationMembers(cal: Calendar, db: Database, p: Plan)
    requires db.Valid()
    ensures Members(db, p.entity, Population(cal, db, p))
  {
    var all, keep := Subjects(db, p.entity), (r: Joined) => InScope(cal, p, r);
    assert NoDuplicates(all);
    FilterUnique(all, keep);
    FilterMembers(all, keep);
  }

  lemma FilterKeepsMembers(db: Database, e: Entity, members: seq<Joined>, keep: Joined -> bool)
    requires Members(db, e, members)
    ensures Members(db, e, Filter(members, keep))
  {
    FilterUnique(members, keep);
    FilterMembers(members, keep);
  }

  /** The rows that reach grouping are the plan's population. */
  lemma RowsArePopulation(p: Plan, s: Snapshot, cal: Calendar, db: Database, user: seq<Test>, system: seq<Test>)
    requires db.Valid()
    requires CompileFilters(p, s, cal) == Success(user) && CompileSuccess(p, s) == Success(system)
    ensures Filter(Source(db, p.entity), (r: Joined) => EvalWhere(cal, r, Where(user, p.either, system)) == True)
         == Population(cal, db, p)
  {
    hide CompileFilters, CompileSuccess, EvalWhere, InScope, Filter;
    SourceIsSubjects(db, p.entity);
    var w := (r: Joined) => EvalWhere(cal, r, Where(user, p.either, system)) == True;
    var keep := (r: Joined) => InScope(cal, p, r);
    forall r | r in Subjects(db, p.entity) ensures w(r) == keep(r) { WhereMeans(p, s, cal, r, user, system); }
    FilterAgrees(Subjects(db, p.entity), w, keep);
  }
}
