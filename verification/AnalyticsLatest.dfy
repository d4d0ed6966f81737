/** The latest-status window adds exactly one status to every root. */
module AnalyticsLatest {
  import opened Basics
  import opened AnalyticsPlan
  import opened AnalyticsData
  import opened AnalyticsSql
  import opened AnalyticsMeaning

  // ---- The window's order is strict and total on distinct identities ---------------------------

  lemma InstantKinds(cal: Calendar, v: Value)
    ensures Instant(cal, v) == Null || Instant(cal, v).Real?
  {
  }

  lemma AheadTotal(cal: Calendar, a: Incident, b: Incident)
    ensures !Ahead(cal, a, a)
    ensures !(Ahead(cal, a, b) && Ahead(cal, b, a))
    ensures a.id != b.id ==> Ahead(cal, a, b) || Ahead(cal, b, a)
  {
    hide Less;
    var x, y := Instant(cal, OfText(a.received)), Instant(cal, OfText(b.received));
    ValueOrder(x, y);
    ValueOrder(x, x);
    StringOrderTotal(a.id, b.id);
    StringOrderTotal(a.id, a.id);
  }

  lemma AheadTransitive(cal: Calendar, a: Incident, b: Incident, c: Incident)
    requires Ahead(cal, a, b) && Ahead(cal, b, c)
    ensures Ahead(cal, a, c)
  {
    var x, y, z := Instant(cal, OfText(a.received)), Instant(cal, OfText(b.received)), Instant(cal, OfText(c.received));
    InstantKinds(cal, OfText(a.received));
    InstantKinds(cal, OfText(b.received));
    InstantKinds(cal, OfText(c.received));
    if !Less(y, x) && !Less(z, y) {
      StringOrderTransitive(c.id, b.id, a.id);
    }
  }

  // ---- First of a partition -----------------------------------------------------------------------

  lemma FirstIsLatest(cal: Calendar, db: Database, q: Incident)
    requires db.Valid() && q in db.incidents
    ensures (RowNumber(cal, db, q) == 1) == IsLatest(cal, db, q)
  {
    hide Filter, Ahead;
    var before := (other: Incident) => other.root == q.root && Ahead(cal, other, q);
    FilterMembers(db.incidents, before);
    var ahead := Filter(db.incidents, before);
    assert RowNumber(cal, db, q) == 1 + |ahead|;
    if |ahead| != 0 {
      assert ahead[0] in ahead;
      AheadTotal(cal, ahead[0], q);
      AheadTotal(cal, q, q);
    } else {
      forall other | other in db.incidents && other.root == q.root && other != q ensures Ahead(cal, q, other) {
        assert other !in ahead;
        assert other.id != q.id;
        AheadTotal(cal, other, q);
      }
    }
  }

  lemma OneLatest(cal: Calendar, db: Database, a: Incident, b: Incident)
    requires IsLatest(cal, db, a) && IsLatest(cal, db, b) && a.root == b.root
    ensures a == b
  {
    AheadTotal(cal, a, b);
  }

  /** Every root in the table has a latest incident. */
  lemma {:induction false} LatestExists(cal: Calendar, incidents: seq<Incident>,
          root: Option<string>) returns (q: Incident)
    requires forall i, j | 0 <= i < j < |incidents| :: incidents[i].id != incidents[j].id
    requires exists r :: r in incidents && r.root == root
    ensures q in incidents && q.root == root
    ensures forall other | other in incidents && other.root == root && other != q :: Ahead(cal, q, other)
  {
    hide Ahead;
    var first, rest := incidents[0], incidents[1..];
    assert forall r :: r in incidents <==> r == first || r in rest;
    if exists r :: r in rest && r.root == root {
      var best := LatestExists(cal, rest, root);
      if first.root == root && Ahead(cal, first, best) {
        q := first;
        forall other | other in incidents && other.root == root && other != q ensures Ahead(cal, q, other) {
          if other != best { AheadTransitive(cal, first, best, other); }
        }
      } else {
        q := best;
        if first.root == root {
          var i :| 0 <= i < |rest| && rest[i] == best;
          assert incidents[i + 1].id != first.id;
          AheadTotal(cal, first, best);
        }
      }
    } else {
      q := first;
    }
  }

  lemma OnlyOne<T(!new)>(xs: seq<T>, x: T)
    requires NoDuplicates(xs) && x in xs && forall i | 0 <= i < |xs| :: xs[i] == x
    ensures xs == [x]
  {
    DistinctSize(xs);
    assert (set y | y in xs) == {x};
  }

  // ---- The join with the window --------------------------------------------------------------------

  /** A row of a root that occurs in the table joins exactly one incident. */
  lemma LatestJoinsOnce(cal: Calendar, db: Database, row: Row, sample: Incident)
    requires db.Valid() && sample in db.incidents && At(row, Dimension(Root)) == OfText(sample.root)
    ensures |JoinLatest(cal, db, row)| == 1 && AddsLatest(cal, db, row, JoinLatest(cal, db, row)[0])
  {
    hide Filter, RowNumber, Ahead;
    var q := LatestExists(cal, db.incidents, sample.root);
    assert IsLatest(cal, db, q);
    var first := (q: Incident) => RowNumber(cal, db, q) == 1 && OfText(q.root) == At(row, Dimension(Root));
    FilterMembers(db.incidents, first);
    FilterUnique(db.incidents, first);
    var matches := LatestMatches(cal, db, row);
    assert matches == Filter(db.incidents, first);
    FirstIsLatest(cal, db, q);
    forall i | 0 <= i < |matches| ensures matches[i] == q {
      assert matches[i] in matches;
      FirstIsLatest(cal, db, matches[i]);
      OneLatest(cal, db, q, matches[i]);
    }
    assert q in matches;
    OnlyOne(matches, q);
  }
}
