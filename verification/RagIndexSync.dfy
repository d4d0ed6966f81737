/** Keeping the vector index of a tenant equal to its runbook chunks: batched upserts,
    then removal of what is stale, with every request able to fail half way. */
module RagIndexSync {
  import opened Basics

  /** A chunk as the index sees it; the hash covers everything the payload holds. */
  datatype Chunk = Chunk(pointId: string, tenant: string, hash: string)

  datatype Point = Point(tenant: string, hash: string)

  type Points = map<string, Point>

  datatype Report = Report(inserted: nat, updated: nat, same: int, removed: nat)

  const BATCH := 64
  const PAGE := 256

  // ---- Specification --------------------------------------------------------------------------

  /** What the index holds for a tenant. */
  function View(points: Points, tenant: string): map<string, string> {
    map id | id in points && points[id].tenant == tenant :: points[id].hash
  }

  /** One chunk per point, in the place of the first and with the content of the last. */
  function Desired(chunks: seq<Chunk>, tenant: string): (r: seq<Chunk>)
    ensures forall i, j | 0 <= i < j < |r| :: r[i].pointId != r[j].pointId
    ensures forall i | 0 <= i < |r| :: r[i].tenant == tenant
  {
    if chunks == [] then []
    else
      var front, last := Desired(chunks[..|chunks| - 1], tenant), chunks[|chunks| - 1];
      if last.tenant != tenant then front
      else if exists i | 0 <= i < |front| :: front[i].pointId == last.pointId then Replace(front, last)
        else front + [last]
  }

  function Replace(chunks: seq<Chunk>, c: Chunk): (r: seq<Chunk>)
    ensures |r| == |chunks|
    ensures forall i | 0 <= i < |r| :: r[i] == if chunks[i].pointId == c.pointId then c else chunks[i]
  {
    Map(chunks, (x: Chunk) => if x.pointId == c.pointId then c else x)
  }

  /** The hashes that the index should hold. */
  function Hashes(desired: seq<Chunk>): map<string, string> {
    if desired == [] then map[]
    else Hashes(desired[..|desired| - 1])[desired[|desired| - 1].pointId := desired[|desired| - 1].hash]
  }

  function Put(points: Points, chunks: seq<Chunk>): Points {
    if chunks == [] then points
    else
      var last := chunks[|chunks| - 1];
      Put(points, chunks[..|chunks| - 1])[last.pointId := Point(last.tenant, last.hash)]
  }

  function Inserted(existing: map<string, string>, desired: seq<Chunk>): seq<Chunk> {
    Filter(desired, (c: Chunk) => c.pointId !in existing)
  }

  function Updated(existing: map<string, string>, desired: seq<Chunk>): seq<Chunk> {
    Filter(desired, (c: Chunk) => c.pointId in existing && existing[c.pointId] != c.hash)
  }

  function Unchanged(existing: map<string, string>, desired: seq<Chunk>): seq<Chunk> {
    Filter(desired, (c: Chunk) => c.pointId in existing && existing[c.pointId] == c.hash)
  }

  function Stale(existing: map<string, string>, desired: seq<Chunk>): set<string> {
    set id | id in existing && id !in Hashes(desired)
  }

  /** The index after a complete synchronisation. */
  function Synced(points: Points, desired: seq<Chunk>, tenant: string): Points {
    var existing := View(points, tenant);
    Put(points, ToWrite(existing, desired)) - Stale(existing, desired)
  }

  predicate OneEach(chunks: seq<Chunk>, tenant: string) {
    && (forall i, j | 0 <= i < j < |chunks| :: chunks[i].pointId != chunks[j].pointId)
    && (forall i | 0 <= i < |chunks| :: chunks[i].tenant == tenant)
  }

  // ---- Points after a put ------------------------------------------------------------------------

  lemma {:induction false} HashOf(desired: seq<Chunk>, tenant: string)
    requires OneEach(desired, tenant)
    ensures forall i | 0 <= i < |desired| ::
      desired[i].pointId in Hashes(desired) && Hashes(desired)[desired[i].pointId] == desired[i].hash
    ensures forall id | id in Hashes(desired) :: exists i | 0 <= i < |desired| :: desired[i].pointId == id
    ensures |Hashes(desired)| == |desired|
  {
    if desired != [] {
      HashOf(desired[..|desired| - 1], tenant);
    }
  }

  lemma {:induction false} PutAt(points: Points, chunks: seq<Chunk>, tenant: string)
    requires OneEach(chunks, tenant)
    ensures forall i | 0 <= i < |chunks| ::
      && chunks[i].pointId in Put(points, chunks)
      && Put(points, chunks)[chunks[i].pointId] == Point(tenant, chunks[i].hash)
    ensures forall id | id !in Hashes(chunks) ::
      (id in Put(points, chunks) <==> id in points) && (id in points ==> Put(points, chunks)[id] == points[id])
    ensures forall id | id in Put(points, chunks) :: id in points || id in Hashes(chunks)
  {
    if chunks != [] {
      PutAt(points, chunks[..|chunks| - 1], tenant);
    }
  }

  lemma {:induction false} PutAppend(points: Points, xs: seq<Chunk>, ys: seq<Chunk>)
    ensures Put(points, xs + ys) == Put(Put(points, xs), ys)
  {
    if ys == [] {
      assert xs + ys == xs;
    } else {
      assert (xs + ys)[..|xs + ys| - 1] == xs + ys[..|ys| - 1];
      PutAppend(points, xs, ys[..|ys| - 1]);
    }
  }

  /** The desired chunk of a point, if there is one. */
  lemma {:induction false} PutIsLocal(points: Points, chunks: seq<Chunk>, tenant: string, id: string)
    requires OneEach(chunks, tenant)
    ensures id in Put(points, chunks) <==> id in points || id in Hashes(chunks)
    ensures id in Hashes(chunks) ==> Put(points, chunks)[id] == Point(tenant, Hashes(chunks)[id])
    ensures id !in Hashes(chunks) && id in points ==> Put(points, chunks)[id] == points[id]
  {
    if chunks != [] {
      PutIsLocal(points, chunks[..|chunks| - 1], tenant, id);
    }
  }

  // ---- Convergence -----------------------------------------------------------------------------------

  /** The chunks that a synchronisation writes. */
  function ToWrite(existing: map<string, string>, desired: seq<Chunk>): seq<Chunk> {
    Inserted(existing, desired) + Updated(existing, desired)
  }

  predicate Current(existing: map<string, string>, c: Chunk) { c.pointId in existing && existing[c.pointId] == c.hash }

  lemma ToWriteMembers(existing: map<string, string>, desired: seq<Chunk>)
    ensures forall c :: c in ToWrite(existing, desired) <==> c in desired && !Current(existing, c)
  {
    hide Filter;
    FilterMembers(desired, (c: Chunk) => c.pointId !in existing);
    FilterMembers(desired, (c: Chunk) => c.pointId in existing && existing[c.pointId] != c.hash);
  }

  lemma ToWriteOneEach(existing: map<string, string>, desired: seq<Chunk>, tenant: string)
    requires OneEach(desired, tenant)
    ensures OneEach(ToWrite(existing, desired), tenant)
  {
    hide Filter;
    var missing := (c: Chunk) => c.pointId !in existing;
    var other := (c: Chunk) => c.pointId in existing && existing[c.pointId] != c.hash;
    var inserted, updated := Inserted(existing, desired), Updated(existing, desired);
    FilterMembers(desired, missing);
    FilterMembers(desired, other);
    FilterOneEach(desired, missing, tenant);
    FilterOneEach(desired, other, tenant);
    forall i, j | 0 <= i < |inserted| && 0 <= j < |updated| ensures inserted[i].pointId != updated[j].pointId {
      assert inserted[i] in inserted && updated[j] in updated;
    }
  }

  /** An identity has a hash exactly when a chunk carries it. */
  lemma HashMember(chunks: seq<Chunk>, tenant: string, c: Chunk)
    requires OneEach(chunks, tenant) && c in chunks
    ensures c.pointId in Hashes(chunks) && Hashes(chunks)[c.pointId] == c.hash
  {
    HashOf(chunks, tenant);
    var i :| 0 <= i < |chunks| && chunks[i] == c;
  }

  lemma Carrier(chunks: seq<Chunk>, tenant: string, id: string) returns (c: Chunk)
    requires OneEach(chunks, tenant) && id in Hashes(chunks)
    ensures c in chunks && c.pointId == id && c.hash == Hashes(chunks)[id]
  {
    HashOf(chunks, tenant);
    var i :| 0 <= i < |chunks| && chunks[i].pointId == id;
    c := chunks[i];
  }

  lemma ToWriteHashes(existing: map<string, string>, desired: seq<Chunk>, tenant: string, id: string)
    requires OneEach(desired, tenant)
    ensures var w := ToWrite(existing, desired);
      && (id in Hashes(w) <==> id in Hashes(desired) && !(id in existing && existing[id] == Hashes(desired)[id]))
      && (id in Hashes(w) ==> Hashes(w)[id] == Hashes(desired)[id])
  {
    hide Hashes, ToWrite, OneEach;
    var w := ToWrite(existing, desired);
    ToWriteMembers(existing, desired);
    ToWriteOneEach(existing, desired, tenant);
    if id in Hashes(w) {
      var c := Carrier(w, tenant, id);
      HashMember(desired, tenant, c);
    }
    if id in Hashes(desired) {
      var c := Carrier(desired, tenant, id);
      if !Current(existing, c) { HashMember(w, tenant, c); }
    }
  }

  lemma {:induction false} FilterOneEach(chunks: seq<Chunk>, keep: Chunk -> bool, tenant: string)
    requires OneEach(chunks, tenant)
    ensures OneEach(Filter(chunks, keep), tenant)
  {
    if chunks != [] {
      FilterOneEach(chunks[1..], keep, tenant);
      var rest := Filter(chunks[1..], keep);
      forall j | 0 <= j < |rest| ensures rest[j].pointId != chunks[0].pointId {
        FilterMember(chunks[1..], keep, rest[j]);
        var k :| 0 <= k < |chunks[1..]| && chunks[1..][k] == rest[j];
        assert chunks[k + 1] == rest[j];
      }
    }
  }

  /** The point with the identity, if any: what a complete synchronisation leaves there. */
  lemma SyncedAt(points: Points, desired: seq<Chunk>, tenant: string, id: string)
    requires OneEach(desired, tenant)
    ensures var after := Synced(points, desired, tenant);
      if id in Hashes(desired) then id in after && after[id] == Point(tenant, Hashes(desired)[id])
      else if id in points && points[id].tenant != tenant then id in after && after[id] == points[id]
      else id !in after
  {
    hide ToWrite, Hashes, Put;
    var existing := View(points, tenant);
    ToWriteOneEach(existing, desired, tenant);
    ToWriteHashes(existing, desired, tenant, id);
    PutIsLocal(points, ToWrite(existing, desired), tenant, id);
  }

  /** From any earlier state, a complete synchronisation leaves the tenant's index equal
      to the desired chunks, and every other point alone. */
  lemma SyncConverges(points: Points, desired: seq<Chunk>, tenant: string)
    requires OneEach(desired, tenant)
    ensures View(Synced(points, desired, tenant), tenant) == Hashes(desired)
    ensures forall id | id in points && points[id].tenant != tenant && id !in Hashes(desired) ::
      id in Synced(points, desired, tenant) && Synced(points, desired, tenant)[id] == points[id]
  {
    hide Synced, Hashes;
    forall id ensures var after := Synced(points, desired, tenant);
      if id in Hashes(desired) then id in after && after[id] == Point(tenant, Hashes(desired)[id])
      else if id in points && points[id].tenant != tenant then id in after && after[id] == points[id]
      else id !in after
    {
      SyncedAt(points, desired, tenant, id);
    }
  }

  /** Inserted, updated and unchanged chunks are all the desired ones. */
  lemma CountsAddUp(existing: map<string, string>, desired: seq<Chunk>)
    ensures |Inserted(existing, desired)| + |Updated(existing, desired)| + |Unchanged(existing, desired)| == |desired|
  {
    if desired != [] {
      CountsAddUp(existing, desired[1..]);
    }
  }

  /** A second synchronisation finds nothing to do. */
  lemma SecondSyncIsIdle(points: Points, desired: seq<Chunk>, tenant: string)
    requires OneEach(desired, tenant)
    ensures var after := Synced(points, desired, tenant);
      var existing := View(after, tenant);
      && Inserted(existing, desired) == [] && Updated(existing, desired) == [] && Stale(existing, desired) == {}
      && Synced(after, desired, tenant) == after
  {
    hide Synced, Hashes;
    SyncConverges(points, desired, tenant);
    HashOf(desired, tenant);
    var after := Synced(points, desired, tenant);
    var existing := View(after, tenant);
    FilterNone(desired, (c: Chunk) => c.pointId !in existing);
    FilterNone(desired, (c: Chunk) => c.pointId in existing && existing[c.pointId] != c.hash);
    IdleSync(after, desired, tenant);
  }

  lemma IdleSync(points: Points, desired: seq<Chunk>, tenant: string)
    requires var existing := View(points, tenant);
      Inserted(existing, desired) == [] && Updated(existing, desired) == [] && Stale(existing, desired) == {}
    ensures Synced(points, desired, tenant) == points
  {
    hide Inserted, Updated, Stale, View;
    var none: seq<Chunk> := [];
    assert none + none == none;
    assert Put(points, none) == points;
  }

  // ---- Interruption ---------------------------------------------------------------------------------------

  /** What an interrupted synchronisation may leave: every point is as before or as
      desired, desired points never vanish, and only stale points may be gone. */
  ghost predicate Between(points: Points, mid: Points, desired: seq<Chunk>, tenant: string) {
    forall id :: SomewhereBetween(points, mid, desired, tenant, id)
  }

  ghost predicate SomewhereBetween(points: Points, mid: Points, desired: seq<Chunk>, tenant: string, id: string) {
    || ((id in mid <==> id in points) && (id in points ==> mid[id] == points[id]))
    || (id in Hashes(desired) && id in mid && mid[id] == Point(tenant, Hashes(desired)[id]))
    || (id in points && points[id].tenant == tenant && id !in Hashes(desired) && id !in mid)
  }

  /** A complete synchronisation after an interrupted one ends exactly where an
      uninterrupted one would have. */
  lemma InterruptionIsHarmless(points: Points, mid: Points, desired: seq<Chunk>, tenant: string)
    requires OneEach(desired, tenant) && Between(points, mid, desired, tenant)
    ensures Synced(mid, desired, tenant) == Synced(points, desired, tenant)
  {
    hide Synced, Hashes;
    var x, y := Synced(mid, desired, tenant), Synced(points, desired, tenant);
    forall id ensures (id in x <==> id in y) && (id in x ==> x[id] == y[id]) {
      assert SomewhereBetween(points, mid, desired, tenant, id);
      SyncedAt(points, desired, tenant, id);
      SyncedAt(mid, desired, tenant, id);
    }
  }

  lemma {:induction false} PrefixHashes(chunks: seq<Chunk>, n: nat, tenant: string, id: string)
    requires OneEach(chunks, tenant) && n <= |chunks|
    ensures id in Hashes(chunks[..n]) ==> id in Hashes(chunks) && Hashes(chunks[..n])[id] == Hashes(chunks)[id]
  {
    hide Hashes;
    if id in Hashes(chunks[..n]) {
      var c := Carrier(chunks[..n], tenant, id);
      HashMember(chunks, tenant, c);
    }
  }

  /** Any number of the writes done: the index lies in between. */
  lemma WritesBetween(points: Points, desired: seq<Chunk>, tenant: string, n: nat)
    requires OneEach(desired, tenant) && n <= |ToWrite(View(points, tenant), desired)|
    ensures Between(points, Put(points, ToWrite(View(points, tenant), desired)[..n]), desired, tenant)
  {
    hide Hashes, Put, ToWrite, View, OneEach;
    var w := ToWrite(View(points, tenant), desired);
    ToWriteOneEach(View(points, tenant), desired, tenant);
    assert OneEach(w[..n], tenant) by { PrefixOneEach(w, n, tenant); }
    forall id ensures SomewhereBetween(points, Put(points, w[..n]), desired, tenant, id) {
      PutIsLocal(points, w[..n], tenant, id);
      PrefixHashes(w, n, tenant, id);
      ToWriteHashes(View(points, tenant), desired, tenant, id);
    }
  }

  lemma PrefixOneEach(chunks: seq<Chunk>, n: nat, tenant: string)
    requires OneEach(chunks, tenant) && n <= |chunks|
    ensures OneEach(chunks[..n], tenant)
  {
  }

  lemma SyncedBetween(points: Points, desired: seq<Chunk>, tenant: string)
    requires OneEach(desired, tenant)
    ensures Between(points, Synced(points, desired, tenant), desired, tenant)
  {
    hide Hashes, Synced;
    forall id ensures SomewhereBetween(points, Synced(points, desired, tenant), desired, tenant, id) {
      SyncedAt(points, desired, tenant, id);
    }
  }

  // ---- The index service ------------------------------------------------------------------------------------

  /** How a request ends: answered, or failed before or after its effect. */
  datatype Reply = Ok | Fail(applied: bool)

  class VectorStore {
    var ids: seq<string>
    var points: Points
    var replies: seq<Reply>

    /** Scrolling lists every point once. */
    ghost predicate Valid()
      reads this
    {
      NoDuplicates(ids) && forall id :: id in ids <==> id in points
    }

    method Answer() returns (r: Reply)
      requires Valid()
      modifies this`replies
      ensures Valid()
    {
      if replies == [] { return Ok; }
      r := replies[0];
      replies := replies[1..];
    }

    method Upsert(batch: seq<Chunk>) returns (ok: bool)
      requires Valid()
      modifies this
      ensures Valid() && (points == Put(old(points), batch) || (!ok && points == old(points)))
    {
      var r := Answer();
      ok := r.Ok?;
      if r.Fail? && !r.applied { return; }
      for i := 0 to |batch|
        invariant Valid() && points == Put(old(points), batch[..i])
      {
        assert batch[..i + 1][..i] == batch[..i];
        var c := batch[i];
        if c.pointId !in points { ids := ids + [c.pointId]; }
        points := points[c.pointId := Point(c.tenant, c.hash)];
      }
      assert batch[..|batch|] == batch;
    }

    method Delete(stale: set<string>) returns (ok: bool)
      requires Valid()
      modifies this
      ensures Valid() && (points == old(points) - stale || (!ok && points == old(points)))
    {
      var r := Answer();
      ok := r.Ok?;
      if r.Fail? && !r.applied { return; }
      var keep := (id: string) => id !in stale;
      FilterUnique(ids, keep);
      FilterMembers(ids, keep);
      ids := Filter(ids, keep);
      points := points - stale;
    }

    /** The identities of a tenant in the order of scrolling. */
    function Listed(tenant: string): seq<string>
      reads this
    {
      var ps := points;
      Filter(ids, (id: string) => id in ps && ps[id].tenant == tenant)
    }

    method Scroll(tenant: string, offset: nat) returns (ok: bool, page: seq<string>, next: Option<nat>)
      requires Valid() && offset <= |Listed(tenant)|
      modifies this`replies
      ensures Valid()
      ensures page == Take(Listed(tenant)[offset..], PAGE)
      ensures next == if offset + PAGE < |Listed(tenant)| then Some(offset + PAGE) else None
    {
      var r := Answer();
      ok := r.Ok?;
      var listed := Listed(tenant);
      page := Take(listed[offset..], PAGE);
      next := if offset + PAGE < |listed| then Some(offset + PAGE) else None;
    }
  }

  lemma {:induction false} PutAgain(points: Points, batch: seq<Chunk>, tenant: string)
    requires OneEach(batch, tenant)
    ensures Put(Put(points, batch), batch) == Put(points, batch)
  {
    hide Put;
    var once := Put(points, batch);
    forall id ensures (id in Put(once, batch) <==> id in once) && (id in once ==> Put(once, batch)[id] == once[id]) {
      PutIsLocal(points, batch, tenant, id);
      PutIsLocal(once, batch, tenant, id);
    }
  }

  class RunbookIndex {
    const store: VectorStore
    const maxRetries: nat

    constructor (store: VectorStore, maxRetries: nat)
      ensures this.store == store && this.maxRetries == maxRetries
    {
      this.store, this.maxRetries := store, maxRetries;
    }

    /** A batch of upserts, tried again when it fails: repeating it changes nothing. */
    method UpsertWithRetry(batch: seq<Chunk>, ghost tenant: string) returns (ok: bool)
      requires store.Valid() && OneEach(batch, tenant)
      modifies store
      ensures store.Valid()
      ensures store.points == Put(old(store.points), batch) || (!ok && store.points == old(store.points))
    {
      hide Put;
      PutAgain(store.points, batch, tenant);
      ok := false;
      for attempt := 0 to maxRetries + 1
        invariant store.Valid() && !ok
        invariant store.points == Put(old(store.points), batch) || store.points == old(store.points)
      {
        ok := store.Upsert(batch);
        if ok { return; }
      }
    }

    method DeleteWithRetry(stale: set<string>) returns (ok: bool)
      requires store.Valid()
      modifies store
      ensures store.Valid()
      ensures store.points == old(store.points) - stale || (!ok && store.points == old(store.points))
    {
      ok := false;
      for attempt := 0 to maxRetries + 1
        invariant store.Valid() && !ok
        invariant store.points == old(store.points) - stale || store.points == old(store.points)
      {
        ok := store.Delete(stale);
        if ok {
          assert old(store.points) - stale - stale == old(store.points) - stale;
          return;
        }
      }
    }

    /** The payload hashes of a tenant, page by page. */
    method ExistingPayloads(tenant: string) returns (r: Result<map<string, string>>)
      requires store.Valid()
      modifies store`replies
      ensures store.Valid()
      ensures r.Success? ==> r.value == View(store.points, tenant)
    {
      hide View, HashesOf, Take;
      ghost var listed := store.Listed(tenant);
      var result: map<string, string> := map[];
      var offset := 0;
      assert result == HashesOf(store.points, listed[..0]) by { NothingKnown(store.points, listed); }
      while true
        invariant store.Valid() && store.Listed(tenant) == listed && 0 <= offset <= |listed|
        invariant result == HashesOf(store.points, listed[..offset])
        decreases |listed| - offset
      {
        var ok, page, next := ScrollWithRetry(tenant, offset);
        if !ok { return Failure("Qdrant synchronization failed"); }
        NextPage(store.points, listed, offset, page);
        result := result + HashesOf(store.points, page);
        if next.None? {
          WholeListing(store.ids, store.points, tenant, listed);
          return Success(result);
        }
        offset := next.value;
      }
    }

    method ScrollWithRetry(tenant: string, offset: nat) returns (ok: bool, page: seq<string>, next: Option<nat>)
      requires store.Valid() && offset <= |store.Listed(tenant)|
      modifies store`replies
      ensures store.Valid()
      ensures ok ==> page == Take(store.Listed(tenant)[offset..], PAGE)
      ensures ok ==> next == if offset + PAGE < |store.Listed(tenant)| then Some(offset + PAGE) else None
    {
      ok, page, next := false, [], None;
      for attempt := 0 to maxRetries + 1
        invariant store.Valid() && !ok
      {
        ok, page, next := store.Scroll(tenant, offset);
        if ok { return; }
      }
    }

    /** The writes in batches, in order; the first batch that fails ends them. */
    method WriteBatches(items: seq<Chunk>, ghost tenant: string) returns (ok: bool)
      requires store.Valid() && OneEach(items, tenant)
      modifies store
      ensures store.Valid()
      ensures ok ==> store.points == Put(old(store.points), items)
      ensures exists n: nat | n <= |items| :: store.points == Put(old(store.points), items[..n])
    {
      hide Put;
      ghost var before := store.points;
      var start := 0;
      assert items[..0] == [] && Put(before, items[..0]) == before by { NothingPut(before); }
      while start < |items|
        invariant 0 <= start <= |items| && store.Valid()
        invariant store.points == Put(before, items[..start])
      {
        var end := if start + BATCH < |items| then start + BATCH else |items|;
        var batch := items[start..end];
        assert items[..end] == items[..start] + batch;
        PutAppend(before, items[..start], batch);
        ok := UpsertWithRetry(batch, tenant);
        if !ok { return; }
        start := end;
      }
      assert items[..|items|] == items;
      ok := true;
    }

    method Sync(chunks: seq<Chunk>, tenant: string, dryRun: bool) returns (r: Result<Report>)
      requires store.Valid()
      modifies store
      ensures store.Valid()
      ensures dryRun ==> r == Success(Report(|Desired(chunks, tenant)|, 0, 0, 0)) && store.points == old(store.points)
      ensures !dryRun && r.Success? ==>
        var desired, existing := Desired(chunks, tenant), View(old(store.points), tenant);
        && store.points == Synced(old(store.points), desired, tenant)
        && r.value == Report(|Inserted(existing, desired)|, |Updated(existing, desired)|,
          |Unchanged(existing, desired)|,
                             |Stale(existing, desired)|)
      ensures r.Failure? ==> Between(old(store.points), store.points, Desired(chunks, tenant), tenant)
    {
      hide Put, Between, View, Inserted, Updated, Stale, Hashes, Unchanged;
      var desired := Desired(chunks, tenant);
      ghost var before := store.points;
      assert OneEach(desired, tenant);
      if dryRun { return Success(Report(|desired|, 0, 0, 0)); }
      assert Between(before, before, desired, tenant) by { NothingDone(before, desired, tenant); }
      var existing :- ExistingPayloads(tenant);
      var inserted, updated := Inserted(existing, desired), Updated(existing, desired);
      CountsAddUp(existing, desired);
      var same := |desired| - |inserted| - |updated|;
      ToWriteOneEach(existing, desired, tenant);
      var ok := WriteBatches(inserted + updated, tenant);
      ghost var n: nat :| n <= |ToWrite(existing, desired)|
        && store.points == Put(before, ToWrite(existing, desired)[..n]);
      WritesBetween(before, desired, tenant, n);
      if !ok { return Failure("Qdrant synchronization failed"); }
      var stale := Stale(existing, desired);
      SyncedBetween(before, desired, tenant);
      if stale == {} {
        assert store.points - stale == store.points;
      } else {
        ok := DeleteWithRetry(stale);
        if !ok { return Failure("Qdrant synchronization failed"); }
      }
      return Success(Report(|inserted|, |updated|, same, |stale|));
    }
  }

  lemma NothingPut(points: Points)
    ensures Put(points, []) == points
  {
  }

  lemma NothingDone(points: Points, desired: seq<Chunk>, tenant: string)
    ensures Between(points, points, desired, tenant)
  {
  }

  /** The payload hashes of some points. */
  function HashesOf(points: Points, ids: seq<string>): map<string, string> {
    map id | id in ids && id in points :: points[id].hash
  }

  lemma NothingKnown(points: Points, ids: seq<string>)
    ensures HashesOf(points, ids[..0]) == map[]
  {
  }

  /** One more page; after the last one all of the listing is known. */
  lemma NextPage(points: Points, listed: seq<string>, offset: nat, page: seq<string>)
    requires offset <= |listed| && page == Take(listed[offset..], PAGE)
    ensures var known := HashesOf(points, listed[..offset]) + HashesOf(points, page);
      known == if offset + PAGE < |listed| then HashesOf(points, listed[..offset + PAGE]) else HashesOf(points, listed)
  {
    var end := if offset + PAGE < |listed| then offset + PAGE else |listed|;
    assert listed[..end] == listed[..offset] + page;
    assert listed[..|listed|] == listed;
  }

  lemma WholeListing(ids: seq<string>, points: Points, tenant: string, listed: seq<string>)
    requires forall id :: id in ids <==> id in points
    requires listed == Filter(ids, (id: string) => id in points && points[id].tenant == tenant)
    ensures HashesOf(points, listed) == View(points, tenant)
  {
    FilterMembers(ids, (id: string) => id in points && points[id].tenant == tenant);
  }
}
