/** The evidence gate: whether the candidates are strong and unambiguous enough to answer
    from. */
module RagEvidence {
  import opened Basics
  import opened Sorting
  import opened RagSelection

  datatype Gate = Accepted(chunks: seq<Chunk>) | Rejected(reason: string)

  /** What the query and the configuration ask for.  `matches` tells whether a candidate
      names one of the query's anchors; zero switches a threshold off. */
  datatype Evidence = Evidence(anchored: bool, matches: Chunk -> bool, requireAnchor: bool, minScore: real,
    minMargin: real)

  // ---- Best scores of the runbooks ------------------------------------------------------------

  /** The score of every runbook's first chunk, in the order of first appearance. */
  function BestScores(ordered: seq<Chunk>): seq<(Runbook, real)> {
    if ordered == [] then []
    else
      var front, last := BestScores(ordered[..|ordered| - 1]), ordered[|ordered| - 1];
      if exists i | 0 <= i < |front| :: front[i].0 == last.runbook then front else front + [(last.runbook, last.score)]
  }

  function Descending(scores: seq<real>): seq<real> { SortBy(scores, (x: real, y: real) => x > y) }

  function Values(best: seq<(Runbook, real)>): seq<real> { Map(best, (b: (Runbook, real)) => b.1) }

  predicate TooClose(scores: seq<real>, minMargin: real) { |scores| > 1 && scores[0] - scores[1] < minMargin }

  function Assess(candidates: seq<Chunk>, e: Evidence): Gate {
    if candidates == [] then Rejected("no_qdrant_candidates")
    else
      var filtered := if e.anchored && e.requireAnchor then Filter(candidates, e.matches) else candidates;
      if filtered == [] then Rejected("strong_anchor_not_found")
      else
        var ordered := Ranked(filtered);
        SortKeeps(filtered, Ahead);
        if e.minScore != 0.0 && ordered[0].score < e.minScore then Rejected("score_below_evidence_threshold")
        else if !e.anchored && e.minMargin != 0.0 && TooClose(Descending(Values(BestScores(ordered))), e.minMargin) then
          Rejected("rank_margin_below_evidence_threshold")
        else Accepted(ordered)
  }

  // ---- The margin ----------------------------------------------------------------------------------

  lemma {:induction false} SortedStays<T>(xs: seq<T>, before: (T, T) -> bool)
    requires SortedBy(xs, before)
    ensures SortBy(xs, before) == xs
  {
    if xs != [] {
      SortedStays(xs[1..], before);
      assert |xs| > 1 ==> xs[1] == xs[1..][0] && !before(xs[1], xs[0]);
      assert xs == [xs[0]] + xs[1..];
    }
  }

  predicate Falling(scores: seq<real>) { forall i, j | 0 <= i < j < |scores| :: scores[i] >= scores[j] }

  predicate ScoresFall(ordered: seq<Chunk>) { forall i,
          j | 0 <= i < j < |ordered| :: ordered[i].score >= ordered[j].score }

  lemma {:induction false} EntriesAbove(ordered: seq<Chunk>, bound: real)
    requires forall i | 0 <= i < |ordered| :: ordered[i].score >= bound
    ensures forall i | 0 <= i < |BestScores(ordered)| :: BestScores(ordered)[i].1 >= bound
  {
    if ordered != [] {
      EntriesAbove(ordered[..|ordered| - 1], bound);
    }
  }

  lemma {:induction false} EntriesFall(ordered: seq<Chunk>)
    requires ScoresFall(ordered)
    ensures forall i, j | 0 <= i < j < |BestScores(ordered)| :: BestScores(ordered)[i].1 >= BestScores(ordered)[j].1
  {
    if ordered != [] {
      var n := |ordered| - 1;
      ShorterFall(ordered);
      EntriesFall(ordered[..n]);
      assert forall i | 0 <= i < n :: ordered[..n][i] == ordered[i];
      EntriesAbove(ordered[..n], ordered[n].score);
    }
  }

  lemma ShorterFall(ordered: seq<Chunk>)
    requires ScoresFall(ordered) && ordered != []
    ensures ScoresFall(ordered[..|ordered| - 1])
  {
  }

  lemma BestScoresFall(ordered: seq<Chunk>)
    requires ScoresFall(ordered)
    ensures Falling(Values(BestScores(ordered)))
  {
    hide BestScores;
    EntriesFall(ordered);
  }

  /** The first entry is the strongest chunk's; the second one is the strongest chunk of
      any other runbook. */
  lemma {:induction false} TwoStrongest(ordered: seq<Chunk>) returns (k: nat)
    requires ordered != []
    ensures var best := BestScores(ordered);
      && |best| > 0 && best[0] == (ordered[0].runbook, ordered[0].score)
      && (|best| == 1 ==> forall j | 0 <= j < |ordered| :: ordered[j].runbook == ordered[0].runbook)
      && (|best| > 1 ==> k < |ordered| && best[1].1 == ordered[k].score && ordered[k].runbook != ordered[0].runbook
                         && forall j | 0 <= j < k :: ordered[j].runbook == ordered[0].runbook)
  {
    var n := |ordered| - 1;
    k := 0;
    var front := BestScores(ordered[..n]);
    assert forall i | 0 <= i < n :: ordered[..n][i] == ordered[i];
    if n == 0 {
      assert front == [];
    } else {
      k := TwoStrongest(ordered[..n]);
      if |front| == 1 {
        assert (exists i | 0 <= i < |front| :: front[i].0 == ordered[n].runbook)
          <==> ordered[n].runbook == ordered[0].runbook;
        if ordered[n].runbook != ordered[0].runbook { k := n; }
      }
    }
  }

  /** Another runbook comes within the margin of the strongest chunk. */
  predicate Ambiguous(ordered: seq<Chunk>, minMargin: real) {
    ordered != [] && exists j | 0 <= j < |ordered| ::
      ordered[j].runbook != ordered[0].runbook && ordered[0].score - ordered[j].score < minMargin
  }

  lemma MarginMeans(ordered: seq<Chunk>, minMargin: real)
    requires ordered != [] && ScoresFall(ordered)
    ensures TooClose(Descending(Values(BestScores(ordered))), minMargin) <==> Ambiguous(ordered, minMargin)
  {
    hide BestScores, SortBy;
    var best := BestScores(ordered);
    var k := TwoStrongest(ordered);
    BestScoresFall(ordered);
    SortedStays(Values(best), (x: real, y: real) => x > y);
    assert Descending(Values(best)) == Values(best);
    if |best| > 1 {
      assert Values(best)[0] == ordered[0].score && Values(best)[1] == ordered[k].score;
    }
  }

  lemma RankedFalls(chunks: seq<Chunk>)
    ensures ScoresFall(Ranked(chunks))
  {
    hide SortBy;
    AheadOrders(chunks);
    SortSorts(chunks, Ahead);
    var r := Ranked(chunks);
    forall i, j | 0 <= i < j < |r| ensures r[i].score >= r[j].score { assert !Ahead(r[j], r[i]); }
  }

  /** The gate lets exactly the ranked, anchored candidates through, and does so exactly
      when there are any, the strongest is strong enough, and no other runbook comes
      within the margin.  Two chunks of one runbook never make it ambiguous. */
  lemma GateMeans(candidates: seq<Chunk>, e: Evidence)
    ensures var filtered := if e.anchored && e.requireAnchor then Filter(candidates, e.matches) else candidates;
      var ordered := Ranked(filtered);
      Assess(candidates, e) == Accepted(ordered) <==>
        && ordered != []
        && (e.minScore != 0.0 ==> ordered[0].score >= e.minScore)
        && (!e.anchored && e.minMargin != 0.0 ==> !Ambiguous(ordered, e.minMargin))
  {
    hide Ranked, BestScores, Descending, Filter, Ambiguous, TooClose;
    var filtered := if e.anchored && e.requireAnchor then Filter(candidates, e.matches) else candidates;
    RankedLength(filtered);
    RankedFalls(filtered);
    NothingToFilter(e.matches);
    if filtered != [] { MarginMeans(Ranked(filtered), e.minMargin); }
  }

  lemma NothingToFilter(keep: Chunk -> bool)
    ensures Filter([], keep) == []
  {
  }

  lemma RankedLength(chunks: seq<Chunk>)
    ensures |Ranked(chunks)| == |chunks|
  {
    SortKeeps(chunks, Ahead);
  }

  // ---- The computation ------------------------------------------------------------------------------

  /** The first score seen of every runbook is kept. */
  method CollectBestScores(ordered: seq<Chunk>) returns (best: seq<(Runbook, real)>)
    ensures best == BestScores(ordered)
  {
    best := [];
    for n := 0 to |ordered|
      invariant best == BestScores(ordered[..n])
    {
      assert ordered[..n + 1][..n] == ordered[..n];
      if !exists i | 0 <= i < |best| :: best[i].0 == ordered[n].runbook {
        best := best + [(ordered[n].runbook, ordered[n].score)];
      }
    }
    assert ordered[..|ordered|] == ordered;
  }

  method ApplyEvidenceGate(candidates: seq<Chunk>, e: Evidence) returns (gate: Gate)
    ensures gate == Assess(candidates, e)
  {
    hide BestScores, Descending, Ranked;
    if candidates == [] { return Rejected("no_qdrant_candidates"); }
    var filtered := candidates;
    if e.anchored && e.requireAnchor {
      filtered := Filter(candidates, e.matches);
      if filtered == [] { return Rejected("strong_anchor_not_found"); }
    }
    var ordered := Ranked(filtered);
    RankedLength(filtered);
    if e.minScore != 0.0 && ordered[0].score < e.minScore { return Rejected("score_below_evidence_threshold"); }
    if !e.anchored && e.minMargin != 0.0 {
      var best := CollectBestScores(ordered);
      if TooClose(Descending(Values(best)), e.minMargin) { return Rejected("rank_margin_below_evidence_threshold"); }
    }
    return Accepted(ordered);
  }
}
