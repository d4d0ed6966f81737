/** Repairing a selection so that the sections an answer needs are present, and cutting
    the result to the context budget. */
module RagCoverage {
  import opened Basics
  import opened Sorting
  import opened RagSelection

  // ---- Searching ------------------------------------------------------------------------------

  /** The last place that passes, or -1. */
  function LastWhere<T>(xs: seq<T>, p: T -> bool): (i: int)
    ensures -1 <= i < |xs|
    ensures i >= 0 ==> p(xs[i])
    ensures forall j | i < j < |xs| :: !p(xs[j])
  {
    if xs == [] then -1 else if p(xs[|xs| - 1]) then |xs| - 1 else LastWhere(xs[..|xs| - 1], p)
  }

  /** The first element that passes. */
  function FirstWhere<T>(xs: seq<T>, p: T -> bool): (r: Option<T>)
    ensures r.Some? ==> r.value in xs && p(r.value)
    ensures r.None? ==> forall x | x in xs :: !p(x)
  {
    if xs == [] then None else if p(xs[0]) then Some(xs[0]) else FirstWhere(xs[1..], p)
  }

  // ---- One section ------------------------------------------------------------------------------

  predicate Bears(c: Chunk, r: Runbook, section: string) { c.runbook == r && c.section == section }

  predicate Covers(chunks: seq<Chunk>, r: Runbook, section: string) {
    exists i | 0 <= i < |chunks| :: Bears(chunks[i], r, section)
  }

  /** Where a chunk gives way: the last one of the same runbook without a requested
      section, else the last one of any runbook, when others may give way. */
  function Victim(result: seq<Chunk>, r: Runbook, requested: seq<string>, anyRunbook: bool): (i: int)
    ensures -1 <= i < |result|
    ensures i >= 0 ==> result[i].section !in requested
  {
    var own := LastWhere(result, (c: Chunk) => c.runbook == r && c.section !in requested);
    if own >= 0 || !anyRunbook then own else LastWhere(result, (c: Chunk) => c.section !in requested)
  }

  function Cover(ranked: seq<Chunk>, result: seq<Chunk>, r: Runbook, section: string, requested: seq<string>,
          limit: nat, anyRunbook: bool): seq<Chunk> {
    var replacement := FirstWhere(ranked, (c: Chunk) => Bears(c, r, section));
    if Covers(result, r, section) || replacement.None? then result
    else if |result| < limit then result + [replacement.value]
    else
      var i := Victim(result, r, requested, anyRunbook);
      if i < 0 then result else result[i := replacement.value]
  }

  /** The sections from the front, one after the other. */
  function CoverAll(ranked: seq<Chunk>, result: seq<Chunk>, r: Runbook, sections: seq<string>,
          requested: seq<string>, limit: nat, anyRunbook: bool): seq<Chunk> {
    if sections == [] then result
    else
      var front := CoverAll(ranked, result, r, sections[..|sections| - 1], requested, limit, anyRunbook);
      Cover(ranked, front, r, sections[|sections| - 1], requested, limit, anyRunbook)
  }

  function CoverRunbooks(ranked: seq<Chunk>, result: seq<Chunk>, runbooks: seq<Runbook>, requested: seq<string>,
          limit: nat, anyRunbook: bool): seq<Chunk> {
    if runbooks == [] then result
    else
      var front := CoverRunbooks(ranked, result, runbooks[..|runbooks| - 1], requested, limit, anyRunbook);
      CoverAll(ranked, front, runbooks[|runbooks| - 1], requested, requested, limit, anyRunbook)
  }

  // ---- Order of presentation ----------------------------------------------------------------------

  function Priority(requested: seq<string>, c: Chunk): nat {
    var i := LastWhere(requested, (s: string) => s == c.section);
    if i < 0 then |Distinct(requested)| else i
  }

  function OriginalPlace(selected: seq<Chunk>, c: Chunk): nat {
    var i := LastWhere(selected, (x: Chunk) => x.pointId == c.pointId);
    if i < 0 then |Distinct(Map(selected, (x: Chunk) => x.pointId))| else i
  }

  predicate Presented(requested: seq<string>, selected: seq<Chunk>, a: Chunk, b: Chunk) {
    var x, y := Priority(requested, a), Priority(requested, b);
    x < y || (x == y && OriginalPlace(selected, a) < OriginalPlace(selected, b))
  }

  function Reorder(requested: seq<string>, selected: seq<Chunk>, result: seq<Chunk>): seq<Chunk> {
    SortBy(result, (a: Chunk, b: Chunk) => Presented(requested, selected, a, b))
  }

  /** The runbooks to cover: the one of the best candidate, or all selected ones. */
  function Targets(candidates: seq<Chunk>, selected: seq<Chunk>, everyRunbook: bool): seq<Runbook>
    requires candidates != []
  {
    SortKeeps(candidates, Ahead);
    if everyRunbook then Runbooks(selected) else [Ranked(candidates)[0].runbook]
  }

  function Repaired(candidates: seq<Chunk>, selected: seq<Chunk>, requested: seq<string>, limit: nat,
          everyRunbook: bool): seq<Chunk> {
    if candidates == [] || selected == [] || requested == [] || limit == 0 then selected
    else
      var result := CoverRunbooks(Ranked(candidates), selected, Targets(candidates, selected, everyRunbook),
        requested, limit, !everyRunbook);
      Take(Reorder(requested, selected, result), limit)
  }

  // ---- What every repair keeps ------------------------------------------------------------------------

  /** A selection of candidates without repetition, within the limit. */
  ghost predicate Proper(result: seq<Chunk>, ranked: seq<Chunk>, limit: nat) {
    && |result| <= limit
    && DistinctPoints(result)
    && forall i | 0 <= i < |result| :: result[i] in ranked
  }

  /** Chunks with a requested section stay. */
  ghost predicate Retains(before: seq<Chunk>, after: seq<Chunk>, requested: seq<string>) {
    forall c | c in before && c.section in requested :: c in after
  }

  lemma SamePoint(ranked: seq<Chunk>, a: Chunk, b: Chunk)
    requires DistinctPoints(ranked) && a in ranked && b in ranked && a.pointId == b.pointId
    ensures a == b
  {
    var i :| 0 <= i < |ranked| && ranked[i] == a;
    var j :| 0 <= j < |ranked| && ranked[j] == b;
  }

  lemma CoverKeeps(ranked: seq<Chunk>, result: seq<Chunk>, r: Runbook, section: string, requested: seq<string>,
          limit: nat, anyRunbook: bool)
    requires DistinctPoints(ranked) && Proper(result, ranked, limit)
    ensures var after := Cover(ranked, result, r, section, requested, limit, anyRunbook);
      Proper(after, ranked, limit) && Retains(result, after, requested) && |after| >= |result|
  {
    var replacement := FirstWhere(ranked, (c: Chunk) => Bears(c, r, section));
    var after := Cover(ranked, result, r, section, requested, limit, anyRunbook);
    if !Covers(result, r, section) && replacement.Some? {
      var c := replacement.value;
      forall i | 0 <= i < |result| ensures result[i].pointId != c.pointId {
        if result[i].pointId == c.pointId { SamePoint(ranked, result[i], c); }
      }
      forall x | x in result && x.section in requested ensures x in after {
        var i :| 0 <= i < |result| && result[i] == x;
        assert after[i] == x;
      }
    }
  }

  /** The section is present; or the selection is full of requested sections; or no
      candidate of the runbook has it. */
  ghost predicate Settled(ranked: seq<Chunk>, result: seq<Chunk>, r: Runbook, section: string,
          requested: seq<string>, limit: nat) {
    || Covers(result, r, section)
    || !Covers(ranked, r, section)
    || (|result| == limit && forall i | 0 <= i < |result| :: result[i].section in requested)
  }

  lemma CoverSettles(ranked: seq<Chunk>, result: seq<Chunk>, r: Runbook, section: string, requested: seq<string>,
          limit: nat)
    requires |result| <= limit
    ensures Settled(ranked, Cover(ranked, result, r, section, requested, limit, true), r, section, requested, limit)
  {
    var replacement := FirstWhere(ranked, (c: Chunk) => Bears(c, r, section));
    var after := Cover(ranked, result, r, section, requested, limit, true);
    if !Covers(result, r, section) {
      if replacement.None? {
        assert forall i | 0 <= i < |ranked| :: ranked[i] in ranked;
      } else if |result| < limit {
        assert Bears(after[|result|], r, section);
      } else if Victim(result, r, requested, true) >= 0 {
        assert Bears(after[Victim(result, r, requested, true)], r, section);
      }
    }
  }

  /** Covering one section never uncovers another requested one. */
  lemma CoverKeepsSettled(ranked: seq<Chunk>, result: seq<Chunk>, r: Runbook, section: string, other: string,
          requested: seq<string>, limit: nat)
    requires |result| <= limit && other in requested && Settled(ranked, result, r, other, requested, limit)
    ensures Settled(ranked, Cover(ranked, result, r, section, requested, limit, true), r, other, requested, limit)
  {
    var after := Cover(ranked, result, r, section, requested, limit, true);
    if Covers(result, r, other) {
      var i :| 0 <= i < |result| && Bears(result[i], r, other);
      assert Bears(after[i], r, other);
    }
  }

  lemma {:induction false} CoverAllSettles(ranked: seq<Chunk>, result: seq<Chunk>, r: Runbook, sections: seq<string>,
          requested: seq<string>, limit: nat)
    requires DistinctPoints(ranked) && Proper(result, ranked, limit) && forall s | s in sections :: s in requested
    ensures var after := CoverAll(ranked, result, r, sections, requested, limit, true);
      && Proper(after, ranked, limit) && Retains(result, after, requested)
      && forall s | s in sections :: Settled(ranked, after, r, s, requested, limit)
  {
    hide Cover, Settled, DistinctPoints;
    if sections != [] {
      var n := |sections| - 1;
      var front := CoverAll(ranked, result, r, sections[..n], requested, limit, true);
      assert forall s | s in sections[..n] :: s in sections;
      CoverAllSettles(ranked, result, r, sections[..n], requested, limit);
      CoverKeeps(ranked, front, r, sections[n], requested, limit, true);
      CoverSettles(ranked, front, r, sections[n], requested, limit);
      forall s | s in sections[..n]
        ensures Settled(ranked, Cover(ranked, front, r, sections[n], requested, limit, true), r, s, requested, limit) {
        CoverKeepsSettled(ranked, front, r, sections[n], s, requested, limit);
      }
      assert forall s | s in sections :: s in sections[..n] || s == sections[n];
    }
  }

  // ---- Section coverage ------------------------------------------------------------------------------------

  lemma RankedCandidates(candidates: seq<Chunk>)
    requires DistinctPoints(candidates)
    ensures DistinctPoints(Ranked(candidates)) && |Ranked(candidates)| == |candidates|
    ensures forall c :: c in Ranked(candidates) <==> c in candidates
  {
    UniqueOfRanked(candidates);
    SortKeeps(candidates, Ahead);
    PermutedElements(candidates, Ranked(candidates));
  }

  lemma SameCovers(xs: seq<Chunk>, ys: seq<Chunk>, r: Runbook, section: string)
    requires forall c :: c in xs <==> c in ys
    ensures Covers(xs, r, section) == Covers(ys, r, section)
  {
    if i :| 0 <= i < |xs| && Bears(xs[i], r, section) {
      assert xs[i] in ys;
      var j :| 0 <= j < |ys| && ys[j] == xs[i];
    }
    if i :| 0 <= i < |ys| && Bears(ys[i], r, section) {
      assert ys[i] in xs;
      var j :| 0 <= j < |xs| && xs[j] == ys[i];
    }
  }

  lemma ReorderKeeps(requested: seq<string>, selected: seq<Chunk>, result: seq<Chunk>)
    ensures |Reorder(requested, selected, result)| == |result|
    ensures forall c :: c in Reorder(requested, selected, result) <==> c in result
    ensures DistinctPoints(result) ==> DistinctPoints(Reorder(requested, selected, result))
  {
    var before := (a: Chunk, b: Chunk) => Presented(requested, selected, a, b);
    var point := (c: Chunk) => c.pointId;
    var reordered := SortBy(result, before);
    SortKeeps(result, before);
    PermutedElements(result, reordered);
    if DistinctPoints(result) {
      MapPermuted(result, reordered, point);
      assert NoDuplicates(Map(result, point));
      DistinctPermuted(Map(result, point), Map(reordered, point));
      assert forall i | 0 <= i < |reordered| :: Map(reordered, point)[i] == reordered[i].pointId;
    }
  }

  /** After the repair for the strongest runbook: every requested section that it has
      among the candidates is present, or the selection is full and every chunk in it
      bears a requested section.  The selection stays within the limit, without
      repetition and among the candidates, and no chunk with a requested section left. */
  lemma SectionsAreCovered(candidates: seq<Chunk>, selected: seq<Chunk>, requested: seq<string>, limit: nat,
          section: string)
    requires candidates != [] && selected != [] && limit > 0 && section in requested
    requires DistinctPoints(candidates) && DistinctPoints(selected) && |selected| <= limit
    requires forall i | 0 <= i < |selected| :: selected[i] in candidates
    ensures var after, strongest := Repaired(candidates, selected, requested, limit, false),
      Targets(candidates, selected, false)[0];
      && Settled(candidates, after, strongest, section, requested, limit)
      && Proper(after, candidates, limit)
      && Retains(selected, after, requested)
  {
    hide Ranked, CoverAll, Reorder, DistinctPoints;
    var ranked := Ranked(candidates);
    RankedCandidates(candidates);
    var strongest := Targets(candidates, selected, false)[0];
    CoverAllSettles(ranked, selected, strongest, requested, requested, limit);
    var result := CoverAll(ranked, selected, strongest, requested, requested, limit, true);
    OneTarget(ranked, selected, strongest, requested, limit);
    ReorderKeeps(requested, selected, result);
    var after := Repaired(candidates, selected, requested, limit, false);
    assert after == Reorder(requested, selected, result);
    SameCovers(result, after, strongest, section);
    SameCovers(ranked, candidates, strongest, section);
    forall i | 0 <= i < |after| ensures after[i] in candidates {
      assert after[i] in result;
    }
    if |result| == limit && forall i | 0 <= i < |result| :: result[i].section in requested {
      forall i | 0 <= i < |after| ensures after[i].section in requested { assert after[i] in result; }
    }
  }

  lemma OneTarget(ranked: seq<Chunk>, selected: seq<Chunk>, r: Runbook, requested: seq<string>, limit: nat)
    ensures CoverRunbooks(ranked, selected, [r], requested, limit, true)
      == CoverAll(ranked, selected, r, requested, requested, limit, true)
  {
    assert [r][..0] == [];
  }

  /** Requested sections come first, in the order in which they were requested. */
  lemma PresentedInOrder(requested: seq<string>, selected: seq<Chunk>, result: seq<Chunk>)
    ensures var r := Reorder(requested, selected, result);
      forall i, j | 0 <= i < j < |r| :: Priority(requested, r[i]) <= Priority(requested, r[j])
  {
    hide Priority, OriginalPlace;
    var before := (a: Chunk, b: Chunk) => Presented(requested, selected, a, b);
    assert StrictOrder(before, result);
    SortSorts(result, before);
    var r := Reorder(requested, selected, result);
    forall i, j | 0 <= i < j < |r| ensures Priority(requested, r[i]) <= Priority(requested, r[j]) {
      assert !before(r[j], r[i]);
    }
  }

  /** When no section is requested twice, a chunk of a requested section has that section's
      place as its priority, and every other chunk comes after all of them. */
  lemma PriorityMeans(requested: seq<string>, c: Chunk)
    requires NoDuplicates(requested)
    ensures c.section in requested ==>
              Priority(requested, c) < |requested| && requested[Priority(requested, c)] == c.section
    ensures c.section !in requested ==> Priority(requested, c) == |requested|
  {
    SameElements(Distinct(requested), requested);
    assert |multiset(Distinct(requested))| == |multiset(requested)|;
  }

  /** Requested sections lead: no other chunk stands before one of them, and they stand in
      the order in which they were requested. */
  lemma RequestedLead(requested: seq<string>, selected: seq<Chunk>, result: seq<Chunk>)
    requires NoDuplicates(requested)
    ensures var r := Reorder(requested, selected, result);
      forall i, j | 0 <= i < j < |r| && r[j].section in requested ::
        r[i].section in requested && Priority(requested, r[i]) <= Priority(requested, r[j])
  {
    hide Priority, Reorder;
    PresentedInOrder(requested, selected, result);
    var r := Reorder(requested, selected, result);
    forall i, j | 0 <= i < j < |r| && r[j].section in requested ensures r[i].section in requested {
      PriorityMeans(requested, r[i]);
      PriorityMeans(requested, r[j]);
    }
  }

  // ---- The repair as it runs ---------------------------------------------------------------------------------

  /** Some place was added, or given to a requested section. */
  ghost predicate Touched(selected: seq<Chunk>, result: seq<Chunk>, requested: seq<string>) {
    || |result| > |selected|
    || exists i | 0 <= i < |selected| && i < |result| ::
      selected[i].section !in requested && result[i].section in requested
  }

  /** A place holds what it held, or a requested section instead of another one. */
  ghost predicate Tracked(selected: seq<Chunk>, result: seq<Chunk>, requested: seq<string>) {
    && |result| >= |selected|
    && forall i | 0 <= i < |selected| ::
         result[i] == selected[i] || (selected[i].section !in requested && result[i].section in requested)
  }

  lemma TouchedDiffers(selected: seq<Chunk>, result: seq<Chunk>, requested: seq<string>)
    requires Tracked(selected, result, requested)
    ensures Touched(selected, result, requested) <==> result != selected
  {
  }

  lemma CoverTracks(ranked: seq<Chunk>, selected: seq<Chunk>, result: seq<Chunk>, r: Runbook, section: string,
          requested: seq<string>, limit: nat, anyRunbook: bool)
    requires Tracked(selected, result, requested) && section in requested
    ensures var after := Cover(ranked, result, r, section, requested, limit, anyRunbook);
      && Tracked(selected, after, requested)
      && (after == result || Touched(selected, after, requested))
      && (Touched(selected, result, requested) ==> Touched(selected, after, requested))
  {
  }

  method CoverRunbook(ranked: seq<Chunk>, selected: seq<Chunk>, start: seq<Chunk>, r: Runbook,
          requested: seq<string>, limit: nat,
          anyRunbook: bool, before: bool)
    returns (result: seq<Chunk>, changed: bool)
    requires Tracked(selected, start, requested) && (before <==> Touched(selected, start, requested))
    ensures result == CoverAll(ranked, start, r, requested, requested, limit, anyRunbook)
    ensures Tracked(selected, result, requested) && (changed <==> Touched(selected, result, requested))
  {
    hide Tracked, Touched, Cover;
    result, changed := start, before;
    for i := 0 to |requested|
      invariant result == CoverAll(ranked, start, r, requested[..i], requested, limit, anyRunbook)
      invariant Tracked(selected, result, requested) && (changed <==> Touched(selected, result, requested))
    {
      assert requested[..i + 1][..i] == requested[..i];
      CoverTracks(ranked, selected, result, r, requested[i], requested, limit, anyRunbook);
      var covered := CoverSection(ranked, result, r, requested[i], requested, limit, anyRunbook);
      if covered != result { changed := true; }
      result := covered;
    }
    assert requested[..|requested|] == requested;
  }

  method CoverSection(ranked: seq<Chunk>, result: seq<Chunk>, r: Runbook, section: string, requested: seq<string>,
          limit: nat, anyRunbook: bool)
    returns (covered: seq<Chunk>)
    ensures covered == Cover(ranked, result, r, section, requested, limit, anyRunbook)
  {
    if Covers(result, r, section) { return result; }
    var replacement := FirstWhere(ranked, (c: Chunk) => Bears(c, r, section));
    if replacement.None? { return result; }
    if |result| < limit { return result + [replacement.value]; }
    var index := FindVictim(result, r, requested, anyRunbook);
    if index < 0 { return result; }
    return result[index := replacement.value];
  }

  /** The search for a place runs from the end. */
  method FindVictim(result: seq<Chunk>, r: Runbook, requested: seq<string>, anyRunbook: bool) returns (index: int)
    ensures index == Victim(result, r, requested, anyRunbook)
  {
    index := |result| - 1;
    while index >= 0 && !(result[index].runbook == r && result[index].section !in requested)
      invariant -1 <= index < |result|
      invariant forall j | index < j < |result| :: !(result[j].runbook == r && result[j].section !in requested)
    {
      index := index - 1;
    }
    if index >= 0 || !anyRunbook { return; }
    index := |result| - 1;
    while index >= 0 && result[index].section in requested
      invariant -1 <= index < |result|
      invariant forall j | index < j < |result| :: result[j].section in requested
    {
      index := index - 1;
    }
  }

  method EnsureSectionCoverage(candidates: seq<Chunk>, selected: seq<Chunk>, requested: seq<string>, limit: nat,
          everyRunbook: bool)
    returns (repaired: seq<Chunk>, changed: bool)
    ensures repaired == Repaired(candidates, selected, requested, limit, everyRunbook)
    ensures changed ==> candidates != [] && selected != [] && requested != [] && limit > 0
    ensures !changed && |selected| <= limit ==>
              Map(repaired, (c: Chunk) => c.pointId) == Map(selected, (c: Chunk) => c.pointId)
  {
    hide CoverAll, Touched, Tracked, Ranked, Reorder;
    if candidates == [] || selected == [] || requested == [] || limit == 0 { return selected, false; }
    var ranked, targets := Ranked(candidates), Targets(candidates, selected, everyRunbook);
    var result := selected;
    changed := false;
    assert Tracked(selected, selected, requested) && !Touched(selected, selected, requested) by {
      NothingTouched(selected, requested);
    }
    for i := 0 to |targets|
      invariant result == CoverRunbooks(ranked, selected, targets[..i], requested, limit, !everyRunbook)
      invariant Tracked(selected, result, requested) && (changed <==> Touched(selected, result, requested))
    {
      assert targets[..i + 1][..i] == targets[..i];
      result, changed := CoverRunbook(ranked, selected, result, targets[i], requested, limit, !everyRunbook, changed);
    }
    assert targets[..|targets|] == targets;
    var reordered := Reorder(requested, selected, result);
    TouchedDiffers(selected, result, requested);
    var points := (c: Chunk) => c.pointId;
    changed := changed || Map(reordered, points) != Map(result, points);
    repaired := Take(reordered, limit);
  }

  lemma NothingTouched(selected: seq<Chunk>, requested: seq<string>)
    ensures Tracked(selected, selected, requested) && !Touched(selected, selected, requested)
  {
  }

  // ---- The context budget ------------------------------------------------------------------------------------------

  function Shortened(c: Chunk, room: int): Chunk { if |c.text| > room >= 0 then c.(text := c.text[..room]) else c }

  /** The chunks that fit the room, the last one shortened if need be. */
  function Budgeted(chunks: seq<Chunk>, room: int, topK: nat): seq<Chunk> {
    if chunks == [] || room <= 0 || topK == 0 then []
    else [Shortened(chunks[0], room)] + Budgeted(chunks[1..], room - |Shortened(chunks[0], room).text|, topK - 1)
  }

  function Used(chunks: seq<Chunk>): int { if chunks == [] then 0 else |chunks[0].text| + Used(chunks[1..]) }

  /** The context stays within its budget; only its last chunk can be shortened; and
      chunks are left out only when the budget or the number of chunks is exhausted. */
  lemma {:induction false} BudgetHolds(chunks: seq<Chunk>, room: int, topK: nat)
    requires room >= 0
    ensures var kept := Budgeted(chunks, room, topK);
      && Used(kept) <= room && |kept| <= topK && |kept| <= |chunks|
      && (forall i | 0 <= i < |kept| - 1 :: kept[i] == chunks[i])
      && (kept != [] ==>
            var last := |kept| - 1;
            kept[last] == chunks[last].(text := kept[last].text) && kept[last].text <= chunks[last].text)
      && (kept != [] && kept[|kept| - 1] != chunks[|kept| - 1] ==> Used(kept) == room)
      && (|kept| < |chunks| ==> |kept| == topK || Used(kept) == room)
  {
    if chunks != [] && room > 0 && topK > 0 {
      var first := Shortened(chunks[0], room);
      BudgetHolds(chunks[1..], room - |first.text|, topK - 1);
      var kept, rest := Budgeted(chunks, room, topK), Budgeted(chunks[1..], room - |first.text|, topK - 1);
      assert kept == [first] + rest && kept[1..] == rest;
      if rest != [] { assert first == chunks[0]; }
    }
  }

  predicate Eligible(c: Chunk, dense: bool, threshold: real) { !dense || c.score >= threshold }

  lemma UsedAppend(xs: seq<Chunk>, c: Chunk)
    ensures Used(xs + [c]) == Used(xs) + |c.text|
  {
    if xs == [] {
      assert xs + [c] == [c];
    } else {
      UsedAppend(xs[1..], c);
      assert (xs + [c])[1..] == xs[1..] + [c];
    }
  }

  /** The last loop of retrieval: dense scores below the threshold are skipped, the rest
      fills the context. */
  method FillContext(ranked: seq<Chunk>, dense: bool, threshold: real, maxChars: nat,
          topK: nat) returns (selected: seq<Chunk>)
    requires topK > 0
    ensures selected == Budgeted(Filter(ranked, (c: Chunk) => Eligible(c, dense, threshold)), maxChars, topK)
  {
    hide Filter, Budgeted, Used, Eligible;
    ghost var keep := (c: Chunk) => Eligible(c, dense, threshold);
    selected := [];
    var usedChars := 0;
    assert ranked[0..] == ranked && [] + Budgeted(Filter(ranked, keep), maxChars, topK)
      == Budgeted(Filter(ranked, keep), maxChars, topK);
    assert Used([]) == 0 by { NothingUsed(); }
    for i := 0 to |ranked|
      invariant usedChars == Used(selected) && |selected| < topK
      invariant selected + Budgeted(Filter(ranked[i..], keep), maxChars - usedChars, topK - |selected|)
             == Budgeted(Filter(ranked, keep), maxChars, topK)
    {
      NextEligible(ranked, i, keep);
      if !Eligible(ranked[i], dense, threshold) { continue; }
      ghost var rest := Filter(ranked[i + 1..], keep);
      BudgetNext(ranked[i], rest, maxChars - usedChars, topK - |selected|);
      var remaining := maxChars - usedChars;
      if remaining <= 0 {
        assert selected + [] == selected;
        return;
      }
      var item := Shortened(ranked[i], remaining);
      UsedAppend(selected, item);
      Associative(selected, [item], Budgeted(rest, remaining - |item.text|, topK - |selected| - 1));
      selected := selected + [item];
      usedChars := usedChars + |item.text|;
      if |selected| >= topK {
        NoBudget(rest, maxChars - usedChars);
        assert selected + [] == selected;
        return;
      }
    }
    NothingEligible(keep, maxChars - usedChars, topK - |selected|);
    assert ranked[|ranked|..] == [] && selected + [] == selected;
  }

  lemma NothingUsed()
    ensures Used([]) == 0
  {
  }

  lemma NextEligible(ranked: seq<Chunk>, i: nat, keep: Chunk -> bool)
    requires i < |ranked|
    ensures Filter(ranked[i..], keep) == (if keep(ranked[i]) then [ranked[i]] else []) + Filter(ranked[i + 1..], keep)
    ensures !keep(ranked[i]) ==> Filter(ranked[i..], keep) == Filter(ranked[i + 1..], keep)
  {
    assert ranked[i..] == [ranked[i]] + ranked[i + 1..];
    FilterCons(ranked[i], ranked[i + 1..], keep);
  }

  lemma BudgetNext(c: Chunk, rest: seq<Chunk>, room: int, topK: nat)
    requires topK > 0
    ensures Budgeted([c] + rest, room, topK) ==
      if room <= 0 then [] else [Shortened(c, room)] + Budgeted(rest, room - |Shortened(c, room).text|, topK - 1)
  {
    assert ([c] + rest)[1..] == rest;
  }

  lemma NoBudget(chunks: seq<Chunk>, room: int)
    ensures Budgeted(chunks, room, 0) == []
  {
  }

  lemma NothingEligible(keep: Chunk -> bool, room: int, topK: nat)
    ensures Budgeted(Filter([], keep), room, topK) == []
  {
  }
}
