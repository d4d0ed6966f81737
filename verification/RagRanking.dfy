/** Graded nDCG of a ranking: a rearrangement inequality over any gain that grows with
    the relevance and any discount that falls with the rank. */
module RagRanking {
  import opened Basics
  import opened Sorting

  type Id = string

  /** The gain of a score and the discount of a rank, counted from zero.  The service
      uses 2^score - 1 and the inverse of log2(rank + 2). */
  datatype Scale = Scale(gain: real -> real, discount: nat -> real) {
    ghost predicate Valid() {
      && gain(0.0) == 0.0
      && (forall x, y | x < y :: gain(x) < gain(y))
      && (forall i: nat :: discount(i) > 0.0)
      && (forall i: nat :: discount(i + 1) < discount(i))
    }
  }

  function Score(relevance: map<Id, real>, id: Id): real { if id in relevance then relevance[id] else 0.0 }

  function Scores(relevance: map<Id, real>, ids: seq<Id>): seq<real> { Map(ids, (id: Id) => Score(relevance, id)) }

  /** Discounted sum of the gains of some scores, the first at the given rank. */
  function Discounted(s: Scale, scores: seq<real>, rank: nat): real {
    if scores == [] then 0.0 else s.gain(scores[0]) * s.discount(rank) + Discounted(s, scores[1..], rank + 1)
  }

  /** An ideal ranking: every relevant id once, the most relevant first. */
  predicate Ideal(relevance: map<Id, real>, order: seq<Id>) {
    && NoDuplicates(order)
    && (forall id | id in order :: id in relevance)
    && (forall id | id in relevance :: id in order)
    && (forall i, j | 0 <= i < j < |order| :: Score(relevance, order[i]) >= Score(relevance, order[j]))
  }

  /** nDCG at `k`, from the ranked ids and the scores in descending order. */
  function Ndcg(s: Scale, ids: seq<Id>, relevance: map<Id, real>, descending: seq<real>, k: nat): Option<real> {
    if relevance == map[] then None
    else
      var dcg, ideal := Discounted(s, Scores(relevance, Take(ids, k)), 0), Discounted(s, Take(descending, k), 0);
      Some(if ideal == 0.0 then 0.0 else dcg / ideal)
  }

  // ---- Top sums -----------------------------------------------------------------------------

  function Gains(s: Scale, scores: seq<real>): real {
    if scores == [] then 0.0 else s.gain(scores[0]) + Gains(s, scores[1..])
  }

  lemma {:induction false} GainsAppend(s: Scale, xs: seq<real>, ys: seq<real>)
    ensures Gains(s, xs + ys) == Gains(s, xs) + Gains(s, ys)
  {
    if xs == [] {
      assert xs + ys == ys;
    } else {
      GainsAppend(s, xs[1..], ys);
      assert (xs + ys)[1..] == xs[1..] + ys;
    }
  }

  lemma GainIsMonotone(s: Scale, x: real, y: real)
    requires s.Valid() && x <= y
    ensures s.gain(x) <= s.gain(y)
  {
  }

  /** Scores by id, falling along `order` and zero elsewhere. */
  ghost predicate Falls(score: Id -> real, order: seq<Id>) {
    && NoDuplicates(order)
    && (forall i, j | 0 <= i < j < |order| :: score(order[i]) >= score(order[j]))
    && (forall i | 0 <= i < |order| :: score(order[i]) >= 0.0)
  }

  function TopScores(score: Id -> real, order: seq<Id>, n: nat): seq<real> { Map(Take(order, n), score) }

  /** No `n` different ids have more gain together than the first `n` of the order. */
  lemma {:induction false} TopSum(s: Scale, score: Id -> real, order: seq<Id>, ids: seq<Id>)
    requires s.Valid() && Falls(score, order) && NoDuplicates(ids)
    requires forall id | id in ids :: id in order || score(id) == 0.0
    ensures Gains(s, Map(ids, score)) <= Gains(s, TopScores(score, order, |ids|))
    decreases |order| + |ids|
  {
    if ids == [] {
      assert Gains(s, Map(ids, score)) <= Gains(s, TopScores(score, order, 0)) by { NothingTop(s, score, order, ids); }
    } else if order == [] {
      AllZero(s, score, ids);
      assert Gains(s, TopScores(score, order, |ids|)) == 0.0 by { NothingTop(s, score, order, []); }
    } else {
      hide Gains, TopScores, Scale.Valid, Falls;
      var p := 0;
      if order[0] in ids { p := Position(ids, order[0]); }
      LaterFalls(score, order);
      Without(ids, p);
      Remaining(score, order, ids, p);
      TopSum(s, score, order[1..], ids[..p] + ids[p + 1..]);
      TopStep(s, score, order, ids, p);
    }
  }

  lemma LaterFalls(score: Id -> real, order: seq<Id>)
    requires Falls(score, order) && order != []
    ensures Falls(score, order[1..])
  {
  }

  /** Without the best id, or else any one, the rest is ranked by the later places. */
  lemma Remaining(score: Id -> real, order: seq<Id>, ids: seq<Id>, p: nat)
    requires order != [] && p < |ids| && NoDuplicates(ids)
    requires order[0] in ids ==> ids[p] == order[0]
    requires forall id | id in ids :: id in order || score(id) == 0.0
    ensures forall id | id in ids[..p] + ids[p + 1..] :: id in order[1..] || score(id) == 0.0
  {
    Without(ids, p);
    assert forall id :: id in order <==> id == order[0] || id in order[1..];
  }

  lemma TopStep(s: Scale, score: Id -> real, order: seq<Id>, ids: seq<Id>, p: nat)
    requires s.Valid() && order != [] && Falls(score, order) && p < |ids| && (ids[p] in order || score(ids[p]) == 0.0)
    requires var rest := ids[..p] + ids[p + 1..];
      Gains(s, Map(rest, score)) <= Gains(s, TopScores(score, order[1..], |rest|))
    ensures Gains(s, Map(ids, score)) <= Gains(s, TopScores(score, order, |ids|))
  {
    hide Gains, TopScores, Scale.Valid, Falls, Map;
    var rest := ids[..p] + ids[p + 1..];
    TakeOut(s, score, ids, p);
    TopCons(score, order, |ids|);
    HighestFirst(score, order, ids[p]);
    GainIsMonotone(s, score(ids[p]), score(order[0]));
    GainsCons(s, score(order[0]), TopScores(score, order[1..], |rest|));
  }

  lemma GainsCons(s: Scale, x: real, rest: seq<real>)
    ensures Gains(s, [x] + rest) == s.gain(x) + Gains(s, rest)
  {
    assert ([x] + rest)[1..] == rest;
  }

  lemma NothingTop(s: Scale, score: Id -> real, order: seq<Id>, ids: seq<Id>)
    requires ids == []
    ensures Gains(s, Map(ids, score)) == 0.0 && Gains(s, TopScores(score, order, 0)) == 0.0
    ensures order == [] ==> forall n :: Gains(s, TopScores(score, order, n)) == 0.0
  {
    if order == [] {
      forall n: nat ensures Gains(s, TopScores(score, order, n)) == 0.0 { assert TopScores(score, order, n) == []; }
    }
  }

  lemma HighestFirst(score: Id -> real, order: seq<Id>, id: Id)
    requires order != [] && Falls(score, order) && (id in order || score(id) == 0.0)
    ensures score(id) <= score(order[0])
  {
    if id in order {
      var i :| 0 <= i < |order| && order[i] == id;
    }
  }

  lemma TopCons(score: Id -> real, order: seq<Id>, n: nat)
    requires order != [] && n > 0
    ensures TopScores(score, order, n) == [score(order[0])] + TopScores(score, order[1..], n - 1)
  {
    assert Take(order, n) == [order[0]] + Take(order[1..], n - 1);
  }

  lemma {:induction false} AllZero(s: Scale, score: Id -> real, ids: seq<Id>)
    requires s.Valid() && forall id | id in ids :: score(id) == 0.0
    ensures Gains(s, Map(ids, score)) == 0.0
  {
    if ids != [] {
      assert ids[0] in ids && forall id | id in ids[1..] :: id in ids;
      AllZero(s, score, ids[1..]);
      assert Map(ids, score)[1..] == Map(ids[1..], score);
    }
  }

  lemma Position(ids: seq<Id>, id: Id) returns (p: nat)
    requires id in ids
    ensures p < |ids| && ids[p] == id
  {
    p :| 0 <= p < |ids| && ids[p] == id;
  }

  lemma Without(ids: seq<Id>, p: nat)
    requires NoDuplicates(ids) && p < |ids|
    ensures NoDuplicates(ids[..p] + ids[p + 1..])
    ensures forall id :: id in ids[..p] + ids[p + 1..] <==> id in ids && id != ids[p]
  {
    var rest := ids[..p] + ids[p + 1..];
    assert forall i | 0 <= i < |rest| :: rest[i] == ids[if i < p then i else i + 1];
    forall id | id in ids && id != ids[p] ensures id in rest {
      var i :| 0 <= i < |ids| && ids[i] == id;
      assert rest[if i < p then i else i - 1] == id;
    }
  }

  lemma TakeOut(s: Scale, score: Id -> real, ids: seq<Id>, p: nat)
    requires p < |ids|
    ensures Gains(s, Map(ids, score)) == s.gain(score(ids[p])) + Gains(s, Map(ids[..p] + ids[p + 1..], score))
  {
    assert ids == ids[..p] + ([ids[p]] + ids[p + 1..]);
    MapAppend(ids[..p], [ids[p]] + ids[p + 1..], score);
    MapAppend([ids[p]], ids[p + 1..], score);
    MapAppend(ids[..p], ids[p + 1..], score);
    GainsAppend(s, Map(ids[..p], score), Map([ids[p]], score) + Map(ids[p + 1..], score));
    GainsAppend(s, Map([ids[p]], score), Map(ids[p + 1..], score));
    GainsAppend(s, Map(ids[..p], score), Map(ids[p + 1..], score));
  }

  // ---- Summation by parts ---------------------------------------------------------------------

  function Zeros(n: nat): seq<real> { seq(n, i => 0.0) }

  /** Scores continued with zeros up to length `n`. */
  function Padded(xs: seq<real>, n: nat): (r: seq<real>)
    requires |xs| <= n
    ensures |r| == n
    ensures forall i | 0 <= i < n :: r[i] == if i < |xs| then xs[i] else 0.0
  {
    xs + Zeros(n - |xs|)
  }

  lemma {:induction false} DiscountedAppend(s: Scale, xs: seq<real>, ys: seq<real>, rank: nat)
    ensures Discounted(s, xs + ys, rank) == Discounted(s, xs, rank) + Discounted(s, ys, rank + |xs|)
  {
    if xs == [] {
      assert xs + ys == ys;
    } else {
      DiscountedAppend(s, xs[1..], ys, rank + 1);
      assert (xs + ys)[1..] == xs[1..] + ys;
    }
  }

  lemma {:induction false} ZerosAddNothing(s: Scale, n: nat, rank: nat)
    requires s.Valid()
    ensures Discounted(s, Zeros(n), rank) == 0.0 && Gains(s, Zeros(n)) == 0.0
    decreases n
  {
    if n > 0 {
      assert Zeros(n)[1..] == Zeros(n - 1);
      ZerosAddNothing(s, n - 1, rank + 1);
    }
  }

  lemma PaddedAddsNothing(s: Scale, xs: seq<real>, n: nat)
    requires s.Valid() && |xs| <= n
    ensures Discounted(s, Padded(xs, n), 0) == Discounted(s, xs, 0)
  {
    DiscountedAppend(s, xs, Zeros(n - |xs|), 0);
    ZerosAddNothing(s, n - |xs|, |xs|);
  }

  /** No prefix of `xs` has more gain than the same prefix of `ys`. */
  ghost predicate Dominated(s: Scale, xs: seq<real>, ys: seq<real>) {
    |xs| == |ys| && forall j | 0 <= j <= |xs| :: Gains(s, xs[..j]) <= Gains(s, ys[..j])
  }

  lemma PartsStep(difference: real, prefix: real, next: real, d0: real, d1: real)
    requires prefix >= 0.0 && next >= 0.0 && d0 > d1 > 0.0 && difference >= prefix * d0
    ensures difference + (next - prefix) * d1 >= next * d1 >= 0.0
    ensures difference + (next - prefix) * d1 == 0.0 ==> prefix == 0.0 && next == 0.0 && difference == 0.0
  {
    var drop := d0 - d1;
    assert prefix * d0 == prefix * d1 + prefix * drop;
    assert prefix * drop >= 0.0 && next * d1 >= 0.0;
    assert (next - prefix) * d1 == next * d1 - prefix * d1;
    if difference + (next - prefix) * d1 == 0.0 {
      ZeroFactor(next, d1);
      ZeroFactor(prefix, drop);
    }
  }

  lemma ZeroFactor(x: real, d: real)
    requires x >= 0.0 && d > 0.0
    ensures x * d == 0.0 ==> x == 0.0
  {
  }

  /** One more score, seen in both sums. */
  lemma LastScore(s: Scale, xs: seq<real>)
    requires xs != []
    ensures var n := |xs| - 1;
      && Discounted(s, xs, 0) == Discounted(s, xs[..n], 0) + s.gain(xs[n]) * s.discount(n)
      && Gains(s, xs) == Gains(s, xs[..n]) + s.gain(xs[n])
  {
    var n := |xs| - 1;
    hide Discounted, Gains;
    assert xs == xs[..n] + [xs[n]];
    DiscountedAppend(s, xs[..n], [xs[n]], 0);
    GainsAppend(s, xs[..n], [xs[n]]);
    OneScore(s, xs[n], n);
  }

  lemma OneScore(s: Scale, x: real, rank: nat)
    ensures Discounted(s, [x], rank) == s.gain(x) * s.discount(rank) && Gains(s, [x]) == s.gain(x)
  {
    assert [x][1..] == [];
  }

  lemma PrefixOfPrefix<T>(xs: seq<T>, n: nat, j: nat)
    requires j <= n <= |xs|
    ensures xs[..n][..j] == xs[..j]
  {
  }

  lemma ShorterDominated(s: Scale, xs: seq<real>, ys: seq<real>)
    requires Dominated(s, xs, ys) && xs != []
    ensures Dominated(s, xs[..|xs| - 1], ys[..|xs| - 1])
    ensures Gains(s, xs) <= Gains(s, ys)
  {
    hide Gains;
    var n := |xs| - 1;
    forall j | 0 <= j <= n ensures Gains(s, xs[..n][..j]) <= Gains(s, ys[..n][..j]) {
      PrefixOfPrefix(xs, n, j);
      PrefixOfPrefix(ys, n, j);
    }
    assert xs[..|xs|] == xs && ys[..|xs|] == ys;
  }

  /** All prefixes have equal gain. */
  ghost predicate Matched(s: Scale, xs: seq<real>, ys: seq<real>) {
    |xs| == |ys| && forall j | 0 <= j <= |xs| :: Gains(s, xs[..j]) == Gains(s, ys[..j])
  }

  lemma LongerMatched(s: Scale, xs: seq<real>, ys: seq<real>)
    requires |xs| == |ys| > 0 && Matched(s, xs[..|xs| - 1], ys[..|xs| - 1]) && Gains(s, xs) == Gains(s, ys)
    ensures Matched(s, xs, ys)
  {
    var n := |xs| - 1;
    forall j | 0 <= j <= |xs| ensures Gains(s, xs[..j]) == Gains(s, ys[..j]) {
      if j <= n {
        assert xs[..n][..j] == xs[..j] && ys[..n][..j] == ys[..j];
      } else {
        assert xs[..j] == xs && ys[..j] == ys;
      }
    }
  }

  /** Dominated prefixes give a smaller discounted sum; the sums are equal only if all
      prefixes have equal gain. */
  lemma {:induction false} SummationByParts(s: Scale, xs: seq<real>, ys: seq<real>)
    requires s.Valid() && Dominated(s, xs, ys)
    ensures Discounted(s, ys, 0) - Discounted(s, xs, 0) >= 0.0
    ensures xs != [] ==>
              Discounted(s, ys, 0) - Discounted(s, xs, 0) >= (Gains(s, ys) - Gains(s, xs)) * s.discount(|xs| - 1)
    ensures Discounted(s, ys, 0) == Discounted(s, xs, 0) ==> Matched(s, xs, ys)
  {
    hide Scale.Valid, Dominated, Discounted, Gains, Matched;
    if xs == [] {
      assert ys == [] && Matched(s, [], []) by { NothingMatched(s, xs, ys); }
    } else {
      var n := |xs| - 1;
      assert |ys| == |xs| by { SameLength(s, xs, ys); }
      ShorterDominated(s, xs, ys);
      SummationByParts(s, xs[..n], ys[..n]);
      LastScore(s, xs);
      LastScore(s, ys);
      var difference, prefix := Discounted(s, ys[..n], 0) - Discounted(s, xs[..n], 0),
        Gains(s, ys[..n]) - Gains(s, xs[..n]);
      assert prefix >= 0.0 by {
        if n > 0 { ShorterDominated(s, xs[..n], ys[..n]); } else { EmptyGains(s, xs[..n], ys[..n]); }
      }
      if n == 0 { EmptyGains(s, xs[..n], ys[..n]); }
      LastTerm(s, xs[n], ys[n], difference, prefix, Gains(s, ys) - Gains(s, xs), n);
      if Discounted(s, ys, 0) == Discounted(s, xs, 0) { LongerMatched(s, xs, ys); }
    }
  }

  lemma NothingMatched(s: Scale, xs: seq<real>, ys: seq<real>)
    requires xs == [] && Dominated(s, xs, ys)
    ensures ys == [] && Matched(s, xs, ys)
  {
  }

  lemma SameLength(s: Scale, xs: seq<real>, ys: seq<real>)
    requires Dominated(s, xs, ys)
    ensures |xs| == |ys|
  {
  }

  lemma EmptyGains(s: Scale, xs: seq<real>, ys: seq<real>)
    requires xs == ys == []
    ensures Gains(s, xs) == Gains(s, ys) == 0.0 && Discounted(s, xs, 0) == Discounted(s, ys, 0) == 0.0
  {
  }

  lemma LastTerm(s: Scale, x: real, y: real, difference: real, prefix: real, next: real, n: nat)
    requires s.Valid() && next == prefix + s.gain(y) - s.gain(x) && prefix >= 0.0 && next >= 0.0
    requires n == 0 ==> difference == 0.0 && prefix == 0.0
    requires n > 0 ==> difference >= prefix * s.discount(n - 1)
    ensures var total := difference + s.gain(y) * s.discount(n) - s.gain(x) * s.discount(n);
      && total >= next * s.discount(n) >= 0.0
      && (total == 0.0 ==> prefix == 0.0 && next == 0.0 && difference == 0.0)
  {
    var d := s.discount(n);
    assert s.gain(y) * d - s.gain(x) * d == (next - prefix) * d;
    if n == 0 {
      ZeroFactor(next, d);
      assert next * d >= 0.0;
    } else {
      assert s.discount(n - 1 + 1) < s.discount(n - 1);
      PartsStep(difference, prefix, next, s.discount(n - 1), d);
    }
  }

  // ---- nDCG ---------------------------------------------------------------------------------------

  predicate Positive(relevance: map<Id, real>) { forall id | id in relevance :: relevance[id] > 0.0 }

  lemma IdealFalls(relevance: map<Id, real>, order: seq<Id>)
    requires Positive(relevance) && Ideal(relevance, order)
    ensures Falls((id: Id) => Score(relevance, id), order)
  {
    assert forall i | 0 <= i < |order| :: order[i] in order;
  }

  lemma {:induction false} NonnegativeGains(s: Scale, xs: seq<real>)
    requires s.Valid() && forall i | 0 <= i < |xs| :: xs[i] >= 0.0
    ensures Gains(s, xs) >= 0.0 && forall n: nat | n <= |xs| :: Gains(s, xs[..n]) <= Gains(s, xs)
  {
    forall n: nat | n <= |xs| ensures Gains(s, xs[..n]) <= Gains(s, xs) {
      if n < |xs| {
        NonnegativeGains(s, xs[..|xs| - 1]);
        LastScore(s, xs);
        GainIsMonotone(s, 0.0, xs[|xs| - 1]);
        assert xs[..|xs| - 1][..n] == xs[..n];
      } else {
        assert xs[..n] == xs;
      }
    }
    assert xs[..0] == [];
  }

  /** The scores of a ranking, cut at `k` and continued with zeros. */
  function Cut(scores: seq<real>, k: nat): (r: seq<real>)
    ensures |r| == k
    ensures forall i | 0 <= i < k :: r[i] == if i < |scores| then scores[i] else 0.0
  {
    Padded(Take(scores, k), k)
  }

  lemma TakeScores(relevance: map<Id, real>, ids: seq<Id>, k: nat)
    ensures Scores(relevance, Take(ids, k)) == Take(Scores(relevance, ids), k)
  {
  }

  lemma CutGains(s: Scale, scores: seq<real>, k: nat, j: nat)
    requires s.Valid() && j <= k
    ensures Gains(s, Cut(scores, k)[..j]) == Gains(s, Take(scores, j))
  {
    var n := if j <= |scores| then j else |scores|;
    assert Cut(scores, k)[..j] == Take(scores, j) + Zeros(j - n);
    GainsAppend(s, Take(scores, j), Zeros(j - n));
    ZerosAddNothing(s, j - n, 0);
  }

  lemma ScoresNonnegative(relevance: map<Id, real>, ids: seq<Id>, k: nat)
    requires Positive(relevance)
    ensures forall i | 0 <= i < |Take(Scores(relevance, ids), k)| :: Take(Scores(relevance, ids), k)[i] >= 0.0
  {
  }

  lemma FirstScores(relevance: map<Id, real>, ids: seq<Id>, order: seq<Id>, j: nat, score: Id -> real)
    requires forall id :: score(id) == Score(relevance, id)
    ensures Map(Take(ids, j), score) == Take(Scores(relevance, ids), j)
    ensures var top, wider := TopScores(score, order, |Take(ids, j)|), Take(Scores(relevance, order), j);
            |top| <= |wider| && top == wider[..|top|]
  {
    hide Score;
  }

  lemma TopOfIds(s: Scale, relevance: map<Id, real>, ids: seq<Id>, order: seq<Id>, j: nat)
    requires s.Valid() && Positive(relevance) && Ideal(relevance, order) && NoDuplicates(ids)
    ensures Gains(s, Take(Scores(relevance, ids), j)) <= Gains(s, Take(Scores(relevance, order), j))
  {
    hide Gains, Scale.Valid, Falls, Score, Scores, Ideal, Positive, TopScores, Map;
    var score := (id: Id) => Score(relevance, id);
    var first := Take(ids, j);
    IdealFalls(relevance, order);
    Elsewhere(relevance, order, first);
    TopSum(s, score, order, first);
    FirstScores(relevance, ids, order, j, score);
    ScoresNonnegative(relevance, order, j);
    NonnegativeGains(s, Take(Scores(relevance, order), j));
  }

  lemma Elsewhere(relevance: map<Id, real>, order: seq<Id>, ids: seq<Id>)
    requires Ideal(relevance, order)
    ensures forall id | id in ids :: id in order || Score(relevance, id) == 0.0
  {
  }

  lemma CutsDominated(s: Scale, relevance: map<Id, real>, ids: seq<Id>, order: seq<Id>, k: nat)
    requires s.Valid() && Positive(relevance) && Ideal(relevance, order) && NoDuplicates(ids)
    ensures Dominated(s, Cut(Scores(relevance, ids), k), Cut(Scores(relevance, order), k))
  {
    hide Scale.Valid, Gains, Cut, Scores, Ideal, Positive, Take;
    var xs, ys := Cut(Scores(relevance, ids), k), Cut(Scores(relevance, order), k);
    forall j | 0 <= j <= k ensures Gains(s, xs[..j]) <= Gains(s, ys[..j]) {
      CutGains(s, Scores(relevance, ids), k, j);
      CutGains(s, Scores(relevance, order), k, j);
      TopOfIds(s, relevance, ids, order, j);
    }
  }

  lemma {:induction false} NonnegativeSum(s: Scale, xs: seq<real>, rank: nat)
    requires s.Valid() && forall i | 0 <= i < |xs| :: xs[i] >= 0.0
    ensures Discounted(s, xs, rank) >= 0.0
    ensures xs != [] && xs[0] > 0.0 ==> Discounted(s, xs, rank) > 0.0
  {
    if xs != [] {
      NonnegativeSum(s, xs[1..], rank + 1);
      GainIsMonotone(s, 0.0, xs[0]);
      Product(s.gain(xs[0]), s.discount(rank));
    }
  }

  lemma Product(x: real, d: real)
    requires x >= 0.0 && d > 0.0
    ensures x * d >= 0.0 && (x > 0.0 ==> x * d > 0.0)
  {
  }

  lemma RatioBounds(x: real, y: real)
    requires 0.0 <= x <= y && y > 0.0
    ensures 0.0 <= x / y <= 1.0 && (x / y == 1.0 <==> x == y)
  {
  }

  lemma GainIsInjective(s: Scale, x: real, y: real)
    requires s.Valid() && s.gain(x) == s.gain(y)
    ensures x == y
  {
  }

  /** Matching prefixes have matching scores. */
  lemma MatchedScores(s: Scale, xs: seq<real>, ys: seq<real>)
    requires s.Valid() && |xs| == |ys|
    ensures Matched(s, xs, ys) <==> xs == ys
  {
    if Matched(s, xs, ys) {
      forall i | 0 <= i < |xs| ensures xs[i] == ys[i] {
        assert xs[..i + 1][..i] == xs[..i] && ys[..i + 1][..i] == ys[..i];
        LastScore(s, xs[..i + 1]);
        LastScore(s, ys[..i + 1]);
        assert Gains(s, xs[..i + 1]) == Gains(s, ys[..i + 1]) && Gains(s, xs[..i]) == Gains(s, ys[..i]);
        GainIsInjective(s, xs[i], ys[i]);
      }
    }
  }

  /** The first places hold relevant ids, each with the score ideal for its place. */
  predicate Leads(ids: seq<Id>, relevance: map<Id, real>, order: seq<Id>, k: nat) {
    forall i | 0 <= i < k && i < |order| ::
      i < |ids| && ids[i] in relevance && Score(relevance, ids[i]) == Score(relevance, order[i])
  }

  lemma NothingLeft(relevance: map<Id, real>, ids: seq<Id>, order: seq<Id>, i: nat)
    requires Ideal(relevance, order) && NoDuplicates(ids) && |order| <= i < |ids|
    requires forall j | 0 <= j < |order| :: ids[j] in relevance
    ensures ids[i] !in relevance
  {
    var first := ids[..|order|];
    DistinctSize(first);
    DistinctSize(order);
    var firsts, all := set id | id in first, set id | id in order;
    assert firsts <= all;
    assert |all - firsts| == |all| - |firsts|;
    assert all - firsts == {};
    assert firsts == all;
    assert forall j | 0 <= j < |order| :: ids[j] != ids[i];
    assert ids[i] !in first;
    assert ids[i] !in all;
  }

  lemma CutsEqualIff(relevance: map<Id, real>, ids: seq<Id>, order: seq<Id>, k: nat)
    requires Positive(relevance) && Ideal(relevance, order) && NoDuplicates(ids)
    ensures Cut(Scores(relevance, ids), k) == Cut(Scores(relevance, order), k) <==> Leads(ids, relevance, order, k)
  {
    hide Cut;
    var xs, ys := Cut(Scores(relevance, ids), k), Cut(Scores(relevance, order), k);
    assert forall i | 0 <= i < |order| :: order[i] in order && Score(relevance, order[i]) > 0.0;
    if xs == ys {
      forall i | 0 <= i < k && i < |order| ensures i < |ids| && ids[i] in relevance
        && Score(relevance, ids[i]) == Score(relevance, order[i]) {
        assert ys[i] == Score(relevance, order[i]) && xs[i] == ys[i];
      }
    }
    if Leads(ids, relevance, order, k) {
      forall i | 0 <= i < k ensures xs[i] == ys[i] {
        if i >= |order| && i < |ids| { NothingLeft(relevance, ids, order, i); }
      }
    }
  }

  /** nDCG of a ranking of different ids lies between 0 and 1.  It is 1 exactly when the
      first places hold relevant ids in descending relevance, as far as there are any. */
  lemma NdcgBounds(s: Scale, ids: seq<Id>, relevance: map<Id, real>, order: seq<Id>, k: nat)
    requires s.Valid() && Positive(relevance) && Ideal(relevance, order) && NoDuplicates(ids) && k > 0
    ensures var ndcg := Ndcg(s, ids, relevance, Scores(relevance, order), k);
      && (ndcg.None? <==> relevance == map[])
      && (ndcg.Some? ==> 0.0 <= ndcg.value <= 1.0 && (ndcg.value == 1.0 <==> Leads(ids, relevance, order, k)))
  {
    hide Scale.Valid, Cut, Discounted, Leads, Take, Score, Matched, Dominated;
    if relevance != map[] {
      var xs, ys := Scores(relevance, ids), Scores(relevance, order);
      CutsDominated(s, relevance, ids, order, k);
      SummationByParts(s, Cut(xs, k), Cut(ys, k));
      MatchedScores(s, Cut(xs, k), Cut(ys, k));
      CutsEqualIff(relevance, ids, order, k);
      CutAddsNothing(s, xs, k);
      CutAddsNothing(s, ys, k);
      TakeScores(relevance, ids, k);
      Sums(s, relevance, ids, order, k);
      RatioBounds(Discounted(s, Take(xs, k), 0), Discounted(s, Take(ys, k), 0));
    }
  }

  lemma CutAddsNothing(s: Scale, xs: seq<real>, k: nat)
    requires s.Valid()
    ensures Discounted(s, Cut(xs, k), 0) == Discounted(s, Take(xs, k), 0)
  {
    PaddedAddsNothing(s, Take(xs, k), k);
  }

  lemma BestIsPositive(relevance: map<Id, real>, order: seq<Id>, k: nat)
    requires Positive(relevance) && Ideal(relevance, order) && relevance != map[] && k > 0
    ensures order != [] && Take(Scores(relevance, order), k) != [] && Take(Scores(relevance, order), k)[0] > 0.0
  {
    var id :| id in relevance;
    assert id in order;
    assert order[0] in order;
  }

  lemma Sums(s: Scale, relevance: map<Id, real>, ids: seq<Id>, order: seq<Id>, k: nat)
    requires s.Valid() && Positive(relevance) && Ideal(relevance, order) && relevance != map[] && k > 0
    ensures Discounted(s, Take(Scores(relevance, ids), k), 0) >= 0.0
    ensures Discounted(s, Take(Scores(relevance, order), k), 0) > 0.0
  {
    hide Take, Scores, Ideal, Positive, Scale.Valid, Discounted;
    BestIsPositive(relevance, order, k);
    ScoresNonnegative(relevance, ids, k);
    ScoresNonnegative(relevance, order, k);
    NonnegativeSum(s, Take(Scores(relevance, ids), k), 0);
    NonnegativeSum(s, Take(Scores(relevance, order), k), 0);
  }

  // ---- An ideal ranking exists ------------------------------------------------------------------------

  lemma {:induction false} Enumerate(ids: set<Id>) returns (xs: seq<Id>)
    ensures NoDuplicates(xs) && forall id :: id in xs <==> id in ids
  {
    if ids == {} {
      xs := [];
    } else {
      var id :| id in ids;
      var rest := Enumerate(ids - {id});
      xs := [id] + rest;
    }
  }

  lemma IdealExists(relevance: map<Id, real>) returns (order: seq<Id>)
    ensures Ideal(relevance, order)
  {
    var ids := Enumerate(relevance.Keys);
    hide SortBy, Score;
    var before := (a: Id, b: Id) => Score(relevance, a) > Score(relevance, b);
    order := SortBy(ids, before);
    SortSorts(ids, before);
    SortKeeps(ids, before);
    PermutedElements(ids, order);
    DistinctPermuted(ids, order);
    ByScore(relevance, order, before);
  }

  lemma ByScore(relevance: map<Id, real>, order: seq<Id>, before: (Id, Id) -> bool)
    requires SortedBy(order, before) && forall a, b :: before(a, b) == (Score(relevance, a) > Score(relevance, b))
    ensures forall i, j | 0 <= i < j < |order| :: Score(relevance, order[i]) >= Score(relevance, order[j])
  {
    forall i, j | 0 <= i < j < |order| ensures Score(relevance, order[i]) >= Score(relevance, order[j]) {
      assert !before(order[j], order[i]);
    }
  }

  // ---- The computation ------------------------------------------------------------------------------

  method SumDiscounted(s: Scale, scores: seq<real>) returns (sum: real)
    ensures sum == Discounted(s, scores, 0)
  {
    sum := 0.0;
    for index := 0 to |scores|
      invariant sum == Discounted(s, scores[..index], 0)
    {
      LastScore(s, scores[..index + 1]);
      assert scores[..index + 1][..index] == scores[..index];
      sum := sum + s.gain(scores[index]) * s.discount(index);
    }
    assert scores[..|scores|] == scores;
  }

  /** The ids of a relevance map, in some order. */
  predicate Lists(listing: seq<Id>, relevance: map<Id, real>) {
    && NoDuplicates(listing)
    && (forall id | id in listing :: id in relevance)
    && (forall id | id in relevance :: id in listing)
  }

  predicate Higher(x: real, y: real) { x > y }

  /** Sorting the relevance scores, in whatever order the map lists them, gives the scores
      of every ideal order. */
  lemma SortedIsIdeal(relevance: map<Id, real>, listing: seq<Id>, order: seq<Id>)
    requires Lists(listing, relevance) && Ideal(relevance, order)
    ensures SortBy(Scores(relevance, listing), Higher) == Scores(relevance, order)
  {
    SameElements(listing, order);
    MapPermuted(listing, order, (id: Id) => Score(relevance, id));
    var scores := Scores(relevance, listing);
    SortKeeps(scores, Higher);
    SortSorts(scores, Higher);
    SortedOnce(SortBy(scores, Higher), Scores(relevance, order), Higher);
  }

  method GradedNdcg(s: Scale, ids: seq<Id>, relevance: map<Id, real>, listing: seq<Id>,
          k: nat) returns (ndcg: Option<real>)
    requires Lists(listing, relevance)
    ensures forall order | Ideal(relevance, order) :: ndcg == Ndcg(s, ids, relevance, Scores(relevance, order), k)
  {
    if relevance == map[] { return None; }
    var dcg := SumDiscounted(s, Scores(relevance, Take(ids, k)));
    var idealScores := SortBy(Scores(relevance, listing), Higher);
    var ideal := SumDiscounted(s, Take(idealScores, k));
    ndcg := Some(if ideal == 0.0 then 0.0 else dcg / ideal);
    forall order | Ideal(relevance, order) ensures ndcg == Ndcg(s, ids, relevance, Scores(relevance, order), k) {
      SortedIsIdeal(relevance, listing, order);
    }
  }
}
