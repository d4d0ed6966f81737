/** Choosing the chunks to answer from: ranking, removal of repeated points, and a round
    robin over runbooks under caps. */
module RagSelection {
  import opened Basics
  import opened Sorting

  /** A runbook at one version. */
  datatype Runbook = Runbook(id: string, version: int)

  datatype Chunk = Chunk(pointId: string, score: real, runbook: Runbook, section: string, text: string)

  // ---- Ranking -------------------------------------------------------------------------------

  /** Descending score; equal scores by point identity. */
  predicate Ahead(a: Chunk, b: Chunk) { a.score > b.score || (a.score == b.score && StringLess(a.pointId, b.pointId)) }

  function Ranked(candidates: seq<Chunk>): seq<Chunk> { SortBy(candidates, Ahead) }

  predicate DistinctPoints(chunks: seq<Chunk>) { forall i,
          j | 0 <= i < j < |chunks| :: chunks[i].pointId != chunks[j].pointId }

  lemma AheadOrders(chunks: seq<Chunk>)
    ensures StrictOrder(Ahead, chunks)
  {
    forall a, b | a in chunks && b in chunks && Ahead(a, b) ensures !Ahead(b, a) {
      StringOrderTotal(a.pointId, b.pointId);
    }
    forall a, b, c | a in chunks && b in chunks && c in chunks && !Ahead(b, a) && !Ahead(c, b) ensures !Ahead(c, a) {
      if c.score == b.score == a.score { NotBefore(a.pointId, b.pointId, c.pointId); }
    }
  }

  lemma NotBefore(a: string, b: string, c: string)
    requires !StringLess(b, a) && !StringLess(c, b)
    ensures !StringLess(c, a)
  {
    StringOrderTotal(a, b);
    StringOrderTotal(b, c);
    StringOrderTotal(a, c);
    if StringLess(c, a) && a != b {
      StringOrderTransitive(c, a, b);
    }
  }

  lemma AheadSeparates(chunks: seq<Chunk>)
    requires DistinctPoints(chunks)
    ensures Separates(Ahead, chunks)
  {
    forall a, b | a in chunks && b in chunks && a != b ensures Ahead(a, b) || Ahead(b, a) {
      var i :| 0 <= i < |chunks| && chunks[i] == a;
      var j :| 0 <= j < |chunks| && chunks[j] == b;
      StringOrderTotal(a.pointId, b.pointId);
    }
  }

  /** The first chunk of every point. */
  function Unique(chunks: seq<Chunk>): seq<Chunk> {
    if chunks == [] then []
    else
      var front, last := Unique(chunks[..|chunks| - 1]), chunks[|chunks| - 1];
      if exists i | 0 <= i < |chunks| - 1 :: chunks[i].pointId == last.pointId then front else front + [last]
  }

  lemma {:induction false} UniqueOfDistinct(chunks: seq<Chunk>)
    requires DistinctPoints(chunks)
    ensures Unique(chunks) == chunks
  {
    if chunks != [] {
      var front := chunks[..|chunks| - 1];
      assert forall i | 0 <= i < |front| :: front[i] == chunks[i];
      UniqueOfDistinct(front);
      assert chunks == front + [chunks[|chunks| - 1]];
    }
  }

  // ---- Round robin ------------------------------------------------------------------------------

  function Own(chunks: seq<Chunk>, r: Runbook): seq<Chunk> { Filter(chunks, (c: Chunk) => c.runbook == r) }

  function Runbooks(chunks: seq<Chunk>): seq<Runbook> { Distinct(Map(chunks, (c: Chunk) => c.runbook)) }

  /** Runbooks by their best chunk; equal scores by identity and version. */
  predicate RunbookAhead(chunks: seq<Chunk>, a: Runbook, b: Runbook) {
    var x, y := Best(chunks, a), Best(chunks, b);
    x > y || (x == y && (StringLess(a.id, b.id) || (a.id == b.id && a.version < b.version)))
  }

  function Best(chunks: seq<Chunk>, r: Runbook): real { if Own(chunks, r) == [] then 0.0 else Own(chunks, r)[0].score }

  function RankedRunbooks(chunks: seq<Chunk>): seq<Runbook> {
    SortBy(Runbooks(chunks), (a: Runbook, b: Runbook) => RunbookAhead(chunks, a, b))
  }

  /** The chunks of one rank, runbook after runbook. */
  function Round(chunks: seq<Chunk>, runbooks: seq<Runbook>, rank: nat): seq<Chunk> {
    if runbooks == [] then []
    else
      (if rank < |Own(chunks, runbooks[0])| then [Own(chunks, runbooks[0])[rank]] else [])
      + Round(chunks, runbooks[1..], rank)
  }

  /** The rounds before `cap`, one after the other. */
  function Rounds(chunks: seq<Chunk>, runbooks: seq<Runbook>, cap: nat): seq<Chunk> {
    if cap == 0 then [] else Rounds(chunks, runbooks, cap - 1) + Round(chunks, runbooks, cap - 1)
  }

  function Diversified(chunks: seq<Chunk>, cap: nat): seq<Chunk> { Rounds(chunks, RankedRunbooks(chunks), cap) }

  /** The limit is checked after each choice, so a first chunk is chosen in any case. */
  function Cut(chunks: seq<Chunk>, limit: int): seq<Chunk> { Take(chunks, if limit < 1 then 1 else limit) }

  function Selected(candidates: seq<Chunk>, limit: nat, cap: nat, diversify: bool): seq<Chunk> {
    var unique := Unique(Ranked(candidates));
    if diversify then Cut(Diversified(unique, cap), limit) else Take(unique, limit)
  }

  /** The order in which the search returns different points does not matter. */
  lemma SelectionIgnoresOrder(xs: seq<Chunk>, ys: seq<Chunk>, limit: nat, cap: nat, diversify: bool)
    requires multiset(xs) == multiset(ys) && DistinctPoints(xs)
    ensures Selected(xs, limit, cap, diversify) == Selected(ys, limit, cap, diversify)
  {
    AheadOrders(xs);
    AheadSeparates(xs);
    SortPermuted(xs, ys, Ahead);
  }

  // ---- What a round robin takes ------------------------------------------------------------------

  function Lesser(a: nat, b: nat): nat { if a < b then a else b }

  lemma {:induction false} OwnOfRound(chunks: seq<Chunk>, runbooks: seq<Runbook>, rank: nat, r: Runbook)
    requires NoDuplicates(runbooks)
    ensures Own(Round(chunks, runbooks, rank), r)
         == if r in runbooks && rank < |Own(chunks, r)| then [Own(chunks, r)[rank]] else []
  {
    var same := (c: Chunk) => c.runbook == r;
    if runbooks != [] {
      var first := runbooks[0];
      var head := if rank < |Own(chunks, first)| then [Own(chunks, first)[rank]] else [];
      OwnOfRound(chunks, runbooks[1..], rank, r);
      FilterAppend(head, Round(chunks, runbooks[1..], rank), same);
      assert r in runbooks <==> r == first || r in runbooks[1..];
      if head != [] { OwnedBy(chunks, first, rank); }
      assert Own(head, r) == if r == first then head else [];
    }
  }

  lemma OwnedBy(chunks: seq<Chunk>, r: Runbook, k: nat)
    requires k < |Own(chunks, r)|
    ensures Own(chunks, r)[k].runbook == r && Own(chunks, r)[k] in chunks
  {
    FilterMember(chunks, (c: Chunk) => c.runbook == r, Own(chunks, r)[k]);
  }

  /** Every runbook contributes its best chunks, as many as there are rounds. */
  lemma {:induction false} OwnOfRounds(chunks: seq<Chunk>, runbooks: seq<Runbook>, cap: nat, r: Runbook)
    requires NoDuplicates(runbooks) && r in runbooks
    ensures Own(Rounds(chunks, runbooks, cap), r) == Own(chunks, r)[..Lesser(cap, |Own(chunks, r)|)]
  {
    hide Rounds, Round;
    if cap == 0 {
      NoRounds(chunks, runbooks);
      assert Own([], r) == [];
    } else {
      OwnOfRounds(chunks, runbooks, cap - 1, r);
      OwnOfRound(chunks, runbooks, cap - 1, r);
      OwnAppend(Rounds(chunks, runbooks, cap - 1), Round(chunks, runbooks, cap - 1), r);
      NextRound(chunks, runbooks, cap - 1);
      OneLonger(Own(chunks, r), cap - 1);
    }
  }

  lemma OwnAppend(xs: seq<Chunk>, ys: seq<Chunk>, r: Runbook)
    ensures Own(xs + ys, r) == Own(xs, r) + Own(ys, r)
  {
    FilterAppend(xs, ys, (c: Chunk) => c.runbook == r);
  }

  lemma OneLonger<T>(xs: seq<T>, n: nat)
    ensures xs[..Lesser(n + 1, |xs|)] == xs[..Lesser(n, |xs|)] + (if n < |xs| then [xs[n]] else [])
  {
  }

  lemma NoRounds(chunks: seq<Chunk>, runbooks: seq<Runbook>)
    ensures Rounds(chunks, runbooks, 0) == []
  {
  }

  lemma NextRound(chunks: seq<Chunk>, runbooks: seq<Runbook>, rank: nat)
    ensures Rounds(chunks, runbooks, rank + 1) == Rounds(chunks, runbooks, rank) + Round(chunks, runbooks, rank)
  {
  }

  /** How many chunks a runbook may contribute. */
  function Quota(chunks: seq<Chunk>, cap: nat, r: Runbook): nat { Lesser(cap, |Own(chunks, r)|) }

  function Quotas(chunks: seq<Chunk>, runbooks: seq<Runbook>, cap: nat): nat {
    if runbooks == [] then 0 else Quota(chunks, cap, runbooks[0]) + Quotas(chunks, runbooks[1..], cap)
  }

  lemma {:induction false} RoundAdds(chunks: seq<Chunk>, runbooks: seq<Runbook>, rank: nat)
    ensures Quotas(chunks, runbooks, rank) + |Round(chunks, runbooks, rank)| == Quotas(chunks, runbooks, rank + 1)
  {
    if runbooks != [] {
      RoundAdds(chunks, runbooks[1..], rank);
    }
  }

  lemma {:induction false} RoundsLength(chunks: seq<Chunk>, runbooks: seq<Runbook>, cap: nat)
    ensures |Rounds(chunks, runbooks, cap)| == Quotas(chunks, runbooks, cap)
  {
    if cap == 0 {
      NoQuotas(chunks, runbooks);
    } else {
      RoundsLength(chunks, runbooks, cap - 1);
      RoundAdds(chunks, runbooks, cap - 1);
    }
  }

  lemma {:induction false} NoQuotas(chunks: seq<Chunk>, runbooks: seq<Runbook>)
    ensures Quotas(chunks, runbooks, 0) == 0
  {
    if runbooks != [] {
      NoQuotas(chunks, runbooks[1..]);
    }
  }

  // ---- Any prefix is fair ----------------------------------------------------------------------------

  lemma {:induction false} RoundsGrow(chunks: seq<Chunk>, runbooks: seq<Runbook>, few: nat, many: nat)
    requires few <= many
    ensures Rounds(chunks, runbooks, few) <= Rounds(chunks, runbooks, many)
    decreases many - few
  {
    if few < many {
      RoundsGrow(chunks, runbooks, few, many - 1);
    }
  }

  /** A prefix ends within some round. */
  lemma {:induction false} CutWithinRound(chunks: seq<Chunk>, runbooks: seq<Runbook>, cap: nat,
          n: nat) returns (rank: nat)
    requires n <= |Rounds(chunks, runbooks, cap)|
    ensures rank <= cap && Rounds(chunks, runbooks, rank) <= Rounds(chunks, runbooks, cap)[..n]
    ensures rank < cap ==> Rounds(chunks, runbooks, cap)[..n] <= Rounds(chunks, runbooks, rank + 1)
    ensures rank == cap ==> n == |Rounds(chunks, runbooks, cap)|
  {
    hide Rounds;
    if cap == 0 || n == |Rounds(chunks, runbooks, cap)| {
      NoRounds(chunks, runbooks);
      rank := cap;
    } else if n >= |Rounds(chunks, runbooks, cap - 1)| {
      rank := cap - 1;
      RoundsGrow(chunks, runbooks, cap - 1, cap);
    } else {
      rank := CutWithinRound(chunks, runbooks, cap - 1, n);
      RoundsGrow(chunks, runbooks, cap - 1, cap);
      assert Rounds(chunks, runbooks, cap)[..n] == Rounds(chunks, runbooks, cap - 1)[..n];
    }
  }

  lemma FilterPrefix<T>(xs: seq<T>, ys: seq<T>, keep: T -> bool)
    requires xs <= ys
    ensures Filter(xs, keep) <= Filter(ys, keep)
  {
    assert ys == xs + ys[|xs|..];
    FilterAppend(xs, ys[|xs|..], keep);
  }

  /** Of any prefix, each runbook holds its best chunks, and no runbook holds more than
      one chunk more than another one that could still contribute. */
  lemma PrefixIsFair(chunks: seq<Chunk>, runbooks: seq<Runbook>, cap: nat, n: nat, a: Runbook, b: Runbook)
    requires NoDuplicates(runbooks) && a in runbooks && b in runbooks && n <= |Rounds(chunks, runbooks, cap)|
    ensures var taken := Rounds(chunks, runbooks, cap)[..n];
      && Own(taken, a) <= Own(chunks, a)
      && (|Own(taken, a)| <= |Own(taken, b)| + 1 || |Own(taken, b)| == Quota(chunks, cap, b))
  {
    hide Rounds, Own;
    var taken := Rounds(chunks, runbooks, cap)[..n];
    var rank := CutWithinRound(chunks, runbooks, cap, n);
    var upper := if rank < cap then rank + 1 else cap;
    var ofA, ofB := (c: Chunk) => c.runbook == a, (c: Chunk) => c.runbook == b;
    assert taken <= Rounds(chunks, runbooks, upper);
    OwnIsFilter(a);
    OwnIsFilter(b);
    FilterPrefix(taken, Rounds(chunks, runbooks, upper), ofA);
    FilterPrefix(Rounds(chunks, runbooks, rank), taken, ofB);
    FilterPrefix(taken, Rounds(chunks, runbooks, upper), ofB);
    OwnOfRounds(chunks, runbooks, upper, a);
    OwnOfRounds(chunks, runbooks, upper, b);
    OwnOfRounds(chunks, runbooks, rank, b);
  }

  lemma OwnIsFilter(r: Runbook)
    ensures forall chunks :: Own(chunks, r) == Filter(chunks, (c: Chunk) => c.runbook == r)
  {
  }

  // ---- The selection ---------------------------------------------------------------------------------

  lemma RunbooksListed(chunks: seq<Chunk>)
    ensures NoDuplicates(RankedRunbooks(chunks))
    ensures forall r :: r in RankedRunbooks(chunks) <==> r in Runbooks(chunks)
  {
    var before := (a: Runbook, b: Runbook) => RunbookAhead(chunks, a, b);
    SortKeeps(Runbooks(chunks), before);
    PermutedElements(Runbooks(chunks), RankedRunbooks(chunks));
    DistinctPermuted(Runbooks(chunks), RankedRunbooks(chunks));
  }

  /** Diversified selection from different points: the length is the limit or all quotas
      together; every runbook contributes its best chunks in order; and none leads another
      that could still contribute by more than one. */
  lemma SelectionIsFair(candidates: seq<Chunk>, limit: nat, cap: nat, a: Runbook, b: Runbook)
    requires DistinctPoints(candidates) && limit > 0
    requires a in Runbooks(Ranked(candidates)) && b in Runbooks(Ranked(candidates))
    ensures var ranked, chosen := Ranked(candidates), Selected(candidates, limit, cap, true);
      && |chosen| == Lesser(limit, Quotas(ranked, RankedRunbooks(ranked), cap))
      && Own(chosen, a) <= Own(ranked, a)
      && |Own(chosen, a)| <= Quota(ranked, cap, a)
      && (|Own(chosen, a)| <= |Own(chosen, b)| + 1 || |Own(chosen, b)| == Quota(ranked, cap, b))
  {
    hide Rounds, Own, RankedRunbooks, Quotas, Ranked, Unique;
    var ranked := Ranked(candidates);
    UniqueOfRanked(candidates);
    var runbooks := RankedRunbooks(ranked);
    RunbooksListed(ranked);
    RoundsLength(ranked, runbooks, cap);
    var all := Rounds(ranked, runbooks, cap);
    var n := Lesser(limit, |all|);
    assert Selected(candidates, limit, cap, true) == all[..n];
    PrefixIsFair(ranked, runbooks, cap, n, a, b);
    OwnIsFilter(a);
    FilterPrefix(all[..n], all, (c: Chunk) => c.runbook == a);
    OwnOfRounds(ranked, runbooks, cap, a);
  }

  lemma UniqueOfRanked(candidates: seq<Chunk>)
    requires DistinctPoints(candidates)
    ensures DistinctPoints(Ranked(candidates)) && Unique(Ranked(candidates)) == Ranked(candidates)
  {
    var point := (c: Chunk) => c.pointId;
    SortKeeps(candidates, Ahead);
    MapPermuted(candidates, Ranked(candidates), point);
    assert NoDuplicates(Map(candidates, point));
    DistinctPermuted(Map(candidates, point), Map(Ranked(candidates), point));
    assert forall i | 0 <= i < |Ranked(candidates)| ::
      Map(Ranked(candidates), point)[i] == Ranked(candidates)[i].pointId;
    UniqueOfDistinct(Ranked(candidates));
  }

  // ---- The computation ---------------------------------------------------------------------------------

  method RemoveRepeats(ordered: seq<Chunk>) returns (unique: seq<Chunk>)
    ensures unique == Unique(ordered)
  {
    unique := [];
    var seenPoints: set<string> := {};
    for n := 0 to |ordered|
      invariant unique == Unique(ordered[..n])
      invariant forall p :: p in seenPoints <==> exists i | 0 <= i < n :: ordered[i].pointId == p
    {
      assert ordered[..n + 1][..n] == ordered[..n];
      assert forall i | 0 <= i < n :: ordered[..n + 1][i] == ordered[i];
      if ordered[n].pointId !in seenPoints {
        seenPoints := seenPoints + {ordered[n].pointId};
        unique := unique + [ordered[n]];
      }
    }
    assert ordered[..|ordered|] == ordered;
  }

  lemma RoundNext(chunks: seq<Chunk>, runbooks: seq<Runbook>, i: nat, rank: nat)
    requires i < |runbooks|
    ensures Round(chunks, runbooks[i..], rank)
         == (if rank < |Own(chunks, runbooks[i])| then [Own(chunks, runbooks[i])[rank]] else [])
           + Round(chunks, runbooks[i + 1..], rank)
  {
    assert runbooks[i..][0] == runbooks[i] && runbooks[i..][1..] == runbooks[i + 1..];
  }

  /** The rounds one chunk at a time, until there are enough. */
  method TakeTurns(chunks: seq<Chunk>, runbooks: seq<Runbook>, cap: nat, limit: int) returns (result: seq<Chunk>)
    ensures result == Cut(Rounds(chunks, runbooks, cap), limit)
  {
    hide Own, Rounds, Round;
    result := [];
    assert Rounds(chunks, runbooks, 0) == [] by { NoRounds(chunks, runbooks); }
    for rank := 0 to cap
      invariant result == Rounds(chunks, runbooks, rank) && (result == [] || |result| < limit)
    {
      ghost var done := result;
      NextRound(chunks, runbooks, rank);
      assert runbooks[0..] == runbooks && [] + Round(chunks, runbooks, rank) == Round(chunks, runbooks, rank);
      assert Rounds(chunks, runbooks, rank + 1) <= Rounds(chunks, runbooks, cap) by {
        RoundsGrow(chunks, runbooks, rank + 1, cap);
      }
      for i := 0 to |runbooks|
        invariant result + Round(chunks, runbooks[i..], rank) == Rounds(chunks, runbooks, rank + 1)
        invariant result == [] || |result| < limit
      {
        RoundNext(chunks, runbooks, i, rank);
        var own := Own(chunks, runbooks[i]);
        if rank < |own| {
          Associative(result, [own[rank]], Round(chunks, runbooks[i + 1..], rank));
          result := result + [own[rank]];
          if |result| >= limit {
            assert result <= Rounds(chunks, runbooks, rank + 1) <= Rounds(chunks, runbooks, cap);
            return;
          }
        } else {
          assert [] + Round(chunks, runbooks[i + 1..], rank) == Round(chunks, runbooks[i + 1..], rank);
        }
      }
      assert runbooks[|runbooks|..] == [] && Round(chunks, [], rank) == [] by { NoRound(chunks, rank); }
    }
  }

  lemma NoRound(chunks: seq<Chunk>, rank: nat)
    ensures Round(chunks, [], rank) == []
  {
  }

  method SelectRankedChunks(candidates: seq<Chunk>, limit: nat, cap: nat, diversify: bool)
    returns (result: seq<Chunk>, duplicates: int)
    ensures result == Selected(candidates, limit, cap, diversify)
    ensures duplicates == |candidates| - |Unique(Ranked(candidates))| >= 0
  {
    hide Unique, RankedRunbooks, Rounds;
    var ordered := Ranked(candidates);
    SortKeeps(candidates, Ahead);
    var unique := RemoveRepeats(ordered);
    UniqueIsShorter(ordered);
    duplicates := |ordered| - |unique|;
    if !diversify { return Take(unique, limit), duplicates; }
    result := TakeTurns(unique, RankedRunbooks(unique), cap, limit);
  }

  lemma {:induction false} UniqueIsShorter(chunks: seq<Chunk>)
    ensures |Unique(chunks)| <= |chunks|
  {
    if chunks != [] {
      UniqueIsShorter(chunks[..|chunks| - 1]);
    }
  }
}
