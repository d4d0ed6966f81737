/** The compiler as it runs: lists filled in loops, each equal to its specification. */
module AnalyticsService {
  import opened Basics
  import opened AnalyticsPlan
  import opened AnalyticsData
  import opened AnalyticsSql
  import opened AnalyticsCompiler

  method CollectFilters(p: Plan, s: Snapshot, cal: Calendar) returns (r: Result<seq<Test>>)
    ensures r == CompileFilters(p, s, cal)
  {
    hide CompileFilter;
    if |p.filters| > 20 { return Failure("Expected bounded list"); }
    ghost var f := (c: Criterion) => CompileFilter(p.entity, s, cal, c);
    var userConditions: seq<Test> := [];
    for i := 0 to |p.filters|
      invariant Traverse(p.filters[..i], f) == Success(userConditions)
    {
      var test := CompileFilter(p.entity, s, cal, p.filters[i]);
      TraverseNext(p.filters, i, f);
      if test.Failure? { return Failure(test.error); }
      userConditions := userConditions + [test.value];
    }
    assert p.filters[..|p.filters|] == p.filters;
    return Success(userConditions);
  }

  method CollectHavings(p: Plan) returns (r: Result<seq<HavingTest>>)
    ensures r == CompileHavings(p)
  {
    hide CompileHaving;
    if |p.having| > 8 { return Failure("Expected bounded list"); }
    ghost var f := (h: Having) => CompileHaving(p, h);
    var conditions: seq<HavingTest> := [];
    for i := 0 to |p.having|
      invariant Traverse(p.having[..i], f) == Success(conditions)
    {
      var condition := CompileHaving(p, p.having[i]);
      TraverseNext(p.having, i, f);
      if condition.Failure? { return Failure(condition.error); }
      conditions := conditions + [condition.value];
    }
    assert p.having[..|p.having|] == p.having;
    return Success(conditions);
  }

  method CollectOrder(p: Plan) returns (r: Result<seq<SortKey>>)
    ensures r == Traverse(p.orderBy, (o: Ordering) => CompileOrder(p, o))
  {
    hide CompileOrder;
    ghost var f := (o: Ordering) => CompileOrder(p, o);
    var ordering: seq<SortKey> := [];
    for i := 0 to |p.orderBy|
      invariant Traverse(p.orderBy[..i], f) == Success(ordering)
    {
      var key := CompileOrder(p, p.orderBy[i]);
      TraverseNext(p.orderBy, i, f);
      if key.Failure? { return Failure(key.error); }
      ordering := ordering + [key.value];
    }
    assert p.orderBy[..|p.orderBy|] == p.orderBy;
    return Success(ordering);
  }

  /** The tie-breakers among some names. */
  function Completion(p: Plan, names: seq<Output>): seq<SortKey> {
    Map(Filter(names, (o: Output) => !Orders(p, o)), (o: Output) => SortKey(o, false, false))
  }

  lemma CompletionNext(p: Plan, names: seq<Output>, i: nat)
    requires i < |names|
    ensures Completion(p, names[..0]) == []
    ensures Completion(p, names[..i + 1])
         == Completion(p, names[..i]) + (if Orders(p, names[i]) then [] else [SortKey(names[i], false, false)])
  {
    hide Orders;
    var free, key := (o: Output) => !Orders(p, o), (o: Output) => SortKey(o, false, false);
    assert names[..i + 1] == names[..i] + [names[i]];
    FilterAppend(names[..i], [names[i]], free);
    MapAppend(Filter(names[..i], free), Filter([names[i]], free), key);
  }

  /** Group outputs that are not ordered yet complete a limited ranking. */
  method CompleteOrder(p: Plan, ordering: seq<SortKey>) returns (complete: seq<SortKey>)
    requires Traverse(p.orderBy, (o: Ordering) => CompileOrder(p, o)) == Success(ordering)
    ensures complete == ordering + TieBreakers(p)
  {
    hide GroupOutputs, Completion, Orders;
    complete := ordering;
    var orderedNames := set i | 0 <= i < |ordering| :: ordering[i].output;
    assert forall o :: Orders(p, o) <==> o in orderedNames by { OrderedNames(p, ordering); }
    if ordering != [] && p.limit.Some? && p.metrics != [] {
      var names := GroupOutputs(p);
      assert Completion(p, names[..0]) == [] by { EmptyCompletion(p, names); }
      for i := 0 to |names|
        invariant complete == ordering + Completion(p, names[..i])
      {
        CompletionNext(p, names, i);
        if names[i] !in orderedNames { complete := complete + [SortKey(names[i], false, false)]; }
      }
      assert names[..|names|] == names;
      assert TieBreakers(p) == Completion(p, names) by { TieBreakersComplete(p); }
    }
  }

  lemma EmptyCompletion(p: Plan, names: seq<Output>)
    ensures Completion(p, names[..0]) == []
  {
  }

  lemma TieBreakersComplete(p: Plan)
    ensures TieBreakers(p) == if p.orderBy == [] || p.limit.None? || p.metrics == [] then []
      else Completion(p, GroupOutputs(p))
  {
    hide GroupOutputs, Orders;
  }

  lemma OrderedNames(p: Plan, ordering: seq<SortKey>)
    requires Traverse(p.orderBy, (o: Ordering) => CompileOrder(p, o)) == Success(ordering)
    ensures forall o :: Orders(p, o) <==> exists i | 0 <= i < |ordering| :: ordering[i].output == o
  {
    assert forall i | 0 <= i < |ordering| :: CompileOrder(p, p.orderBy[i]) == Success(ordering[i]);
    assert forall i | 0 <= i < |ordering| :: ordering[i].output == p.orderBy[i].output;
  }

  method CollectOrdering(p: Plan) returns (r: Result<seq<SortKey>>)
    ensures r == CompileOrdering(p)
  {
    hide TieBreakers, CompileOrder;
    if |p.orderBy| > 12 { return Failure("Expected bounded list"); }
    var keys := CollectOrder(p);
    if keys.Failure? { return Failure(keys.error); }
    var ordering := CompleteOrder(p, keys.value);
    return Success(ordering);
  }

  /** Validation is part of compilation: no plan becomes a query without every check. */
  method CompilePlan(p: Plan, s: Snapshot, cal: Calendar) returns (r: Result<Query>)
    ensures r == Compile(p, s, cal)
  {
    hide CheckSelection, CheckWindow, CompileFilters, CompileSuccess, CheckSources, CheckColumns, CompileHavings,
      CompileOrdering, CheckAssumptions, QueryOf;
    var _ :- CheckSelection(p, s);
    var _ :- CheckWindow(p, s);
    var user :- CollectFilters(p, s, cal);
    var system :- CompileSuccess(p, s);
    var _ :- CheckSources(p, s);
    var _ :- CheckColumns(p, s);
    var having :- CollectHavings(p);
    var ordering :- CollectOrdering(p);
    var _ :- CheckAssumptions(p);
    return Success(QueryOf(p, s, user, system, having, ordering));
  }
}
