/** Within an incident, a replacement is created under a name that no earlier
    create of the incident used; only the retry of a timed-out create repeats the
    name it is completing.  Writes may fail inside an action; what breaks the rule
    is an error row that hides the name on record. */
module HealingFreshNames {
  import opened Basics
  import opened ConnectorNames
  import opened HealingDomain
  import opened HealingWorld
  import opened HealingSteps
  import opened HealingBudgets

  datatype Creation = Creation(name: Name, retry: bool)

  /** The creates requested so far, in order. */
  function Creations(calls: seq<Call>): seq<Creation> {
    if calls == [] then []
    else
      var last := calls[|calls| - 1];
      Creations(calls[..|calls| - 1]) + if last.op.CreateOp? then [Creation(last.name, last.op.retry)] else []
  }

  lemma CreationsIssue(kc: Kc, kc': Kc, op: Op, name: Name, ok: bool)
    requires kc' == Issue(kc, op, name, ok, kc'.cluster)
    ensures Creations(kc'.calls) == Creations(kc.calls) + if op.CreateOp? then [Creation(name, op.retry)] else []
  {
    assert kc'.calls[..|kc.calls|] == kc.calls;
  }

  /** Every create that is not a retry has a name unused before, the original name
      of the incident included. */
  predicate AllFresh(original: Name, cs: seq<Creation>) {
    forall i | 0 <= i < |cs| && !cs[i].retry ::
      cs[i].name != original && forall j | 0 <= j < i :: cs[j].name != cs[i].name
  }

  predicate Below(original: Name, cs: seq<Creation>, top: nat) {
    Sequence(original) <= top && forall i | 0 <= i < |cs| :: Sequence(cs[i].name) <= top
  }

  predicate Named(s: Summary, name: Name) {
    s.latest.Some? && s.latest.value.details.newName == Some(name)
  }

  // ---- The creates of each action ------------------------------------------------------

  lemma AbandonNames(job: Job, w: World, name: Name, kind: EventKind)
    requires kind in {ConnectorResumeFailed, OffsetPatchFailed}
    ensures var (w', d) := AbandonReplacement(job, w, name, kind);
            && w'.kc == w.kc
            && (d.Returned? ==> Named(Project(w'.db.log), name) && w'.db.current == name)
  {
    hide Project, AuditOf;
  }

  lemma FinishNames(s: Settings, job: Job, w: World, name: Name, kind: EventKind, attempt: nat)
    requires kind in {RecreateWithOffset, RecreateWithoutOffset}
    ensures var (w', d) := FinishReplacement(s, job, w, name, kind, attempt);
            && Creations(w'.kc.calls) == Creations(w.kc.calls)
            && (d.Returned? ==> Named(Project(w'.db.log), name) && w'.db.current == name)
  {
    hide Project, AuditOf, IsVersioned, Creations, DeleteConnector;
    CreationsIssue(w.kc, DeleteConnector(w.kc, job.name), DeleteOp, job.name, First(w.kc.replies).Ok?);
  }

  lemma PatchNames(s: Settings, job: Job, w: World, name: Name, offsets: Offsets)
    ensures var (w', d) := PatchReplacement(s, job, w, name, offsets);
            && Creations(w'.kc.calls) == Creations(w.kc.calls)
            && (d.Returned? ==> Named(Project(w'.db.log), name) && w'.db.current == name)
  {
    hide Project, AuditOf, AbandonReplacement, FinishReplacement, Creations, PatchOffsets, ResumeConnector;
    var (kc1, ok1) := PatchOffsets(w.kc, name, offsets);
    CreationsIssue(w.kc, kc1, PatchOp, name, ok1);
    AbandonNames(job, w.(kc := kc1), name, OffsetPatchFailed);
    var (kc2, ok2) := ResumeConnector(kc1, name);
    CreationsIssue(kc1, kc2, ResumeOp, name, ok2);
    AbandonNames(job, w.(kc := kc2), name, ConnectorResumeFailed);
    FinishNames(s, job, w.(kc := kc2), name, RecreateWithOffset, job.WithOffsetCount() + 1);
  }

  lemma CreateNames(s: Settings, job: Job, w: World, name: Name, offsets: Offsets)
    ensures var (w', d) := CreateReplacement(s, job, w, name, offsets);
            && Creations(w'.kc.calls) == Creations(w.kc.calls) + [Creation(name, false)]
            && (d.Returned? ==>
                  && Named(Project(w'.db.log), name)
                  && (w'.db.current == name || Project(w'.db.log).latest.value.kind == RecreateWithOffsetFailed))
  {
    hide Project, AuditOf, PatchReplacement, Creations, CreateConnector;
    var (kc, d) := CreateConnector(w.kc, name, false, false);
    CreationsIssue(w.kc, kc, CreateOp(false, false), name, d.Returned?);
    PatchNames(s, job, w.(kc := kc), name, offsets);
  }

  lemma FailNames(job: Job, w: World, connector: Name, details: Details)
    ensures var (w', d) := FailRecreate(job, w, connector, details);
            && w'.kc == w.kc && w'.db.current == w.db.current
            && (d.Returned? ==>
                  && Project(w'.db.log).latest.Some? && Project(w'.db.log).latest.value.details == details
                  && Project(w'.db.log).latest.value.kind == RecreateWithOffsetFailed)
  {
    hide Project, AuditOf;
  }

  /** A recreate with offset creates at most one connector, under the replacement
      name, and then has that name on record. */
  lemma RecreateNames(s: Settings, job: Job, w: World, t: Tick)
    ensures var (w', d) := RecreateWithOffsets(s, job, w, t);
            var name, latest := job.ReplacementName(), Project(w'.db.log).latest;
            && (|| Creations(w'.kc.calls) == Creations(w.kc.calls)
                || Creations(w'.kc.calls) == Creations(w.kc.calls) + [Creation(name, false)])
            && (d.Returned? ==>
                  && latest.Some?
                  && (|| (&& latest.value.details.newName == Some(name)
                          && (w'.db.current == name || latest.value.kind == RecreateWithOffsetFailed))
                      || (&& latest.value.details.newName == None && latest.value.kind == RecreateWithOffsetFailed
                          && w'.db.current == w.db.current && w'.kc == w.kc)))
  {
    hide Project, AuditOf, StopConnector, CreateReplacement, Creations, Job.ReplacementName, Record, FailRecreate,
      Job.OriginalName, Job.WithOffsetCount;
    if t.offsets.OffsetsRead? && t.config.Config? {
      var offsets := t.offsets.offsets;
      var w1 := Captured(job, w, offsets);
      var name := job.ReplacementName();
      var (kc, ok) := StopConnector(w1.kc, job.name);
      var w2 := w1.(kc := kc);
      CreationsIssue(w1.kc, kc, StopOp, job.name, ok);
      FailNames(job, w1, job.name, NO_DETAILS.(original := Some(job.OriginalName()), offsets := offsets));
      FailNames(job, w1, job.name, Involved(job, None));
      FailNames(job, w2, job.name, Involved(job, Some(name)));
      if offsets.Some? {
        CreateNames(s, job, w2, name, offsets.value);
      }
    }
  }

  lemma CompleteRetryNames(job: Job, w: World, offsets: Offsets)
    ensures var (w', d) := CompleteRetry(job, w, offsets);
            && Creations(w'.kc.calls) == Creations(w.kc.calls)
            && w'.db.current == w.db.current
            && (d == Returned(true) ==> Named(Project(w'.db.log), job.name))
  {
    hide Project, AuditOf, Creations, PatchOffsets, ResumeConnector;
    var (kc1, ok1) := PatchOffsets(w.kc, job.name, offsets);
    CreationsIssue(w.kc, kc1, PatchOp, job.name, ok1);
    var (kc2, ok2) := ResumeConnector(kc1, job.name);
    CreationsIssue(kc1, kc2, ResumeOp, job.name, ok2);
  }

  lemma RetryNames(job: Job, w: World, t: Tick)
    ensures var (w', d) := RetryWithOffsets(job, w, t);
            && (|| Creations(w'.kc.calls) == Creations(w.kc.calls)
                || Creations(w'.kc.calls) == Creations(w.kc.calls) + [Creation(job.name, true)])
            && w'.db.current == w.db.current
            && (d == Returned(true) ==> Named(Project(w'.db.log), job.name))
  {
    hide Project, AuditOf, Creations, StopConnector, CreateConnector, CompleteRetry;
    var (kc1, ok) := StopConnector(w.kc, job.name);
    CreationsIssue(w.kc, kc1, StopOp, job.name, ok);
    var (kc2, d) := CreateConnector(w.kc, job.name, true, false);
    CreationsIssue(w.kc, kc2, CreateOp(true, false), job.name, d.Returned?);
    if job.LatestDetails().offsets.Some? {
      var offsets := job.LatestDetails().offsets.value;
      CompleteRetryNames(job, w.(kc := kc1), offsets);
      CompleteRetryNames(job, w.(kc := kc2), offsets);
    }
  }

  lemma FreshRecreateNames(s: Settings, job: Job, w: World, t: Tick)
    ensures var (w', d) := RecreateWithoutOffsets(s, job, w, t);
            var name := job.ReplacementName();
            && (|| Creations(w'.kc.calls) == Creations(w.kc.calls)
                || Creations(w'.kc.calls) == Creations(w.kc.calls) + [Creation(name, false)])
            && (d == Returned(true) ==> Named(Project(w'.db.log), name) && w'.db.current == name)
  {
    hide Project, AuditOf, Creations, StopConnector, CreateConnector, FinishReplacement, Job.ReplacementName;
    var name := job.ReplacementName();
    var (kc1, ok) := StopConnector(w.kc, job.name);
    CreationsIssue(w.kc, kc1, StopOp, job.name, ok);
    var (kc2, d) := CreateConnector(kc1, name, false, true);
    CreationsIssue(kc1, kc2, CreateOp(false, true), name, d.Returned?);
    FinishNames(s, job, w.(kc := kc2), name, RecreateWithoutOffset, job.WithoutOffsetCount() + 1);
  }

  // ---- The invariant ---------------------------------------------------------------------

  /** The name whose successor the next replacement gets. */
  function Seed(s: Summary, current: Name): Name {
    if s.latest.Some? && s.latest.value.details.newName.Some? then s.latest.value.details.newName.value else current
  }

  /** Only a row that names a replacement makes the next name differ from the successor
      of the current one; after a timeout the current connector is that replacement. */
  predicate SeedFits(s: Summary, current: Name) {
    s.latest.Some? && s.latest.value.kind !in NAMING - {RecreateWithOffsetTimeout} ==> Seed(s, current) == current
  }

  predicate OnRecord(original: Name, cs: seq<Creation>, s: Summary, current: Name) {
    Below(original, cs, Sequence(Seed(s, current))) && SeedFits(s, current)
  }

  /** While automation may continue, every name used so far is at most the seed of
      the next one. */
  predicate NamesFresh(original: Name, w: World) {
    var cs := Creations(w.kc.calls);
    && AllFresh(original, cs)
    && (w.db.Open() && !w.mem.uncertain ==> OnRecord(original, cs, Project(w.db.log), w.db.current))
  }

  lemma FreshCreation(original: Name, cs: seq<Creation>, seed: Name, name: Name)
    requires AllFresh(original, cs) && Below(original, cs, Sequence(seed)) && name == ConnectorNames.Next(seed)
    ensures AllFresh(original, cs + [Creation(name, false)])
    ensures Below(original, cs + [Creation(name, false)], Sequence(name)) && Below(original, cs, Sequence(name))
  {
    hide Sequence, ConnectorNames.Next, Base, IsVersioned;
    NextVersion(seed);
  }

  lemma RetryCreation(original: Name, cs: seq<Creation>, name: Name)
    requires AllFresh(original, cs) && Below(original, cs, Sequence(name))
    ensures AllFresh(original, cs + [Creation(name, true)])
    ensures Below(original, cs + [Creation(name, true)], Sequence(name))
  {
    hide Sequence;
  }

  /** The state an action starts from: only observations were logged since the job
      was read. */
  predicate ActsFresh(original: Name, job: Job, w: World, a: Action) {
    var cs := Creations(w.kc.calls);
    && job.name == w.db.current
    && AllFresh(original, cs) && Below(original, cs, Sequence(Seed(job.sum, job.name)))
    && (a in {RestartTasks, RestartWholeConnector, Recreate, RetryRecreate} ==> Seed(job.sum, job.name) == job.name)
  }

  predicate StaysFresh(original: Name, r: (World, Done)) {
    var cs := Creations(r.0.kc.calls);
    && AllFresh(original, cs)
    && (r.1.Returned? && r.0.db.Open() ==> OnRecord(original, cs, Project(r.0.db.log), r.0.db.current))
  }

  lemma RestartKeepsFresh(original: Name, job: Job, w: World, t: Tick, onlyFailed: bool)
    requires ActsFresh(original, job, w, if onlyFailed then RestartTasks else RestartWholeConnector)
    ensures StaysFresh(original, RestartStep(job, w, t, onlyFailed))
  {
    hide Project, AuditOf, Creations, AllFresh, Below, Sequence, RestartConnector;
    var (kc, d) := RestartConnector(w.kc, job.name, onlyFailed);
    CreationsIssue(w.kc, kc, if onlyFailed then RestartFailed else RestartAll, job.name, d.Returned?);
    var (w', d') := RestartStep(job, w, t, onlyFailed);
    assert Creations(w'.kc.calls) == Creations(w.kc.calls);
    if d'.Returned? {
      assert Seed(Project(w'.db.log), w'.db.current) == w.db.current;
    }
  }

  lemma RecreateKeepsFresh(original: Name, s: Settings, job: Job, w: World, t: Tick)
    requires ActsFresh(original, job, w, Recreate)
    ensures StaysFresh(original, RecreateWithOffsets(s, job, w, t))
  {
    hide Project, AuditOf, Creations, AllFresh, Below, Sequence, RecreateWithOffsets, ConnectorNames.Next;
    RecreateNames(s, job, w, t);
    var name := job.ReplacementName();
    FreshCreation(original, Creations(w.kc.calls), Seed(job.sum, job.name), name);
    var (w', d) := RecreateWithOffsets(s, job, w, t);
    if d.Returned? {
      var seed := Seed(Project(w'.db.log), w'.db.current);
      assert seed == name || (seed == job.name && w'.kc == w.kc);
    }
  }

  lemma EscalateKeepsFresh(original: Name, w: World, kind: EventKind, connector: Name)
    requires AllFresh(original, Creations(w.kc.calls))
    ensures var r := LogAndComplete(w, kind, connector, NO_DETAILS, Escalated);
            StaysFresh(original, r) && r.0.kc == w.kc && r.0.mem == w.mem && (r.1.Returned? ==> !r.0.db.Open())
  {
    hide Project, AuditOf, Creations, AllFresh, OnRecord;
  }

  lemma RetryKeepsFresh(original: Name, job: Job, w: World, t: Tick)
    requires ActsFresh(original, job, w, RetryRecreate)
    ensures StaysFresh(original, OrEscalate(job, RetryWithOffsets(job, w, t)))
  {
    hide Project, AuditOf, Creations, AllFresh, Below, Sequence, RetryWithOffsets, LogAndComplete;
    RetryNames(job, w, t);
    RetryCreation(original, Creations(w.kc.calls), job.name);
    var (w', d) := RetryWithOffsets(job, w, t);
    EscalateKeepsFresh(original, w', HealingEscalated, job.name);
    if d == Returned(true) {
      assert Seed(Project(w'.db.log), w'.db.current) == job.name;
    }
  }

  lemma FreshKeepsFresh(original: Name, s: Settings, job: Job, w: World, t: Tick)
    requires ActsFresh(original, job, w, Action.RecreateFresh)
    ensures StaysFresh(original, OrEscalate(job, RecreateWithoutOffsets(s, job, w, t)))
  {
    hide Project, AuditOf, Creations, AllFresh, Below, Sequence, RecreateWithoutOffsets, LogAndComplete,
      ConnectorNames.Next;
    FreshRecreateNames(s, job, w, t);
    var name := job.ReplacementName();
    FreshCreation(original, Creations(w.kc.calls), Seed(job.sum, job.name), name);
    var (w', d) := RecreateWithoutOffsets(s, job, w, t);
    EscalateKeepsFresh(original, w', HealingEscalated, job.name);
    if d == Returned(true) {
      assert Seed(Project(w'.db.log), w'.db.current) == name;
    }
  }

  lemma DispatchKeepsFresh(original: Name, s: Settings, job: Job, w: World, t: Tick, a: Action)
    requires ActsFresh(original, job, w, a) && !a.Debounce?
    ensures StaysFresh(original, Dispatch(s, job, w, t, a))
  {
    hide ActsFresh, StaysFresh, RecreateWithoutOffsets, RetryWithOffsets, RecreateWithOffsets, LogAndComplete,
      RestartStep, OrEscalate;
    assert AllFresh(original, Creations(w.kc.calls)) by { ActsFreshSoFar(original, job, w, a); }
    EscalateKeepsFresh(original, w, HealingLevelLimitReached, job.name);
    EscalateKeepsFresh(original, w, HealingEscalated, job.name);
    match a {
      case RestartTasks => RestartKeepsFresh(original, job, w, t, true);
      case RestartWholeConnector => RestartKeepsFresh(original, job, w, t, false);
      case Recreate => RecreateKeepsFresh(original, s, job, w, t);
      case RetryRecreate => RetryKeepsFresh(original, job, w, t);
      case RecreateFresh => FreshKeepsFresh(original, s, job, w, t);
      case _ =>
    }
  }

  lemma ActsFreshSoFar(original: Name, job: Job, w: World, a: Action)
    requires ActsFresh(original, job, w, a)
    ensures AllFresh(original, Creations(w.kc.calls))
  {
  }

  /** An action either returns with the name on record, or its item is quarantined. */
  lemma ExecuteKeepsFresh(original: Name, s: Settings, job: Job, w: World, t: Tick, a: Action)
    requires ActsFresh(original, job, w, a) && !a.Debounce?
    ensures NamesFresh(original, Execute(s, job, w, t, a).0)
    ensures Execute(s, job, w, t, a).1.Raised? ==> Execute(s, job, w, t, a).0.mem.uncertain
  {
    hide Project, AuditOf, Creations, AllFresh, OnRecord, LogAndComplete, Dispatch, ActsFresh;
    DispatchKeepsFresh(original, s, job, w, t, a);
    var (w1, d) := Dispatch(s, job, w, t, a);
    EscalateKeepsFresh(original, w1.(mem := w1.mem.(uncertain := true)), HealingEscalated, job.name);
  }

  // ---- Steps and runs ----------------------------------------------------------------------

  /** Restarts, the first recreate and the retry follow rows that leave the current
      name as the seed. */
  lemma DecideSeeds(p: Policy, job: Job, job': Job, failedTasks: bool)
    requires SeedFits(job.sum, job.name) && job'.name == job.name && job'.sum == job.sum
    ensures var a := Decide(p, job', failedTasks);
            a in {Debounce, RestartTasks, RestartWholeConnector, Recreate, RetryRecreate} ==>
              Seed(job.sum, job.name) == job.name
  {
  }

  /** An unhealthy check either raises before its action, or keeps the names fresh. */
  lemma UnhealthyKeepsFresh(original: Name, s: Settings, job: Job, w: World, t: Tick)
    requires NamesFresh(original, w) && w.db.Open() && !w.mem.uncertain && job == ReadJob(w.db)
    ensures var (w', d) := HandleUnhealthy(s, job, w, t);
            (d.Raised? ==> w'.mem.uncertain) ==> NamesFresh(original, w')
  {
    hide Project, AuditOf, Creations, AllFresh, Below, Sequence, Execute, Decide, Clamp, Seed, SeedFits;
    ObservationNames(s, job, w, t);
    var (seen, confirming) := Observed(s, job, w, t);
    var job' := ObservedJob(s, job, t, confirming);
    var a := Decide(s.policy, job', FailedTasks(t));
    DecideSeeds(s.policy, job, job', FailedTasks(t));
    if !a.Debounce? {
      assert ActsFresh(original, job', seen, a);
      ExecuteKeepsFresh(original, s, job', seen, t, a);
    }
  }

  /** The rows of an observation name no replacement. */
  lemma ObservationNames(s: Settings, job: Job, w: World, t: Tick)
    ensures var w' := Observed(s, job, w, t).0;
            && w'.kc == w.kc && w'.db.current == w.db.current
            && (First(w.db.replies).Ok? ==>
                  Seed(Project(w'.db.log), w.db.current) == w.db.current && SeedFits(Project(w'.db.log), w.db.current))
  {
    hide Project, AuditOf;
  }

  lemma {:induction false} DeleteAllCreations(kc: Kc, names: seq<Name>)
    ensures Creations(DeleteAll(kc, names).calls) == Creations(kc.calls)
    decreases |names|
  {
    hide Creations;
    if names != [] {
      CreationsIssue(kc, DeleteConnector(kc, names[0]), DeleteOp, names[0], First(kc.replies).Ok?);
      DeleteAllCreations(DeleteConnector(kc, names[0]), names[1..]);
    }
  }

  lemma HealthyKeepsFresh(original: Name, s: Settings, job: Job, w: World)
    requires NamesFresh(original, w) && w.db.Open() && !w.mem.uncertain
    ensures var (w', d) := HandleHealthy(s, job, w);
            (d.Raised? ==> w'.mem.uncertain) ==> NamesFresh(original, w')
  {
    hide Project, AuditOf, Creations, AllFresh, OnRecord, DeleteAll, Superseded, NoAutomatedStep, LatestIn;
    DeleteAllCreations(w.kc, Superseded(s, job));
  }

  lemma QuarantineKeepsFresh(original: Name, job: Job, w: World)
    requires AllFresh(original, Creations(w.kc.calls)) && w.mem.uncertain
    ensures NamesFresh(original, Quarantine(job, w).0)
  {
    hide Project, AuditOf, Creations, AllFresh, OnRecord, LogAndComplete;
    EscalateKeepsFresh(original, w, HealingEscalated, job.name);
  }

  lemma ProcessKeepsFresh(original: Name, s: Settings, job: Job, w: World, t: Tick)
    requires NamesFresh(original, w) && w.db.Open() && job == ReadJob(w.db)
    ensures var (w', d) := ProcessJob(s, job, w, t);
            (d.Raised? ==> w'.mem.uncertain) ==> NamesFresh(original, w')
  {
    hide Project, AuditOf, Creations, AllFresh, Below, Sequence, Execute, HandleUnhealthy, HandleHealthy, WaitUntil,
      Quarantine, ManagedStopped;
    if w.mem.uncertain {
      QuarantineKeepsFresh(original, job, w);
    } else {
      var w1 := See(w, t.health);
      assert NamesFresh(original, w1) && NamesFresh(original, Forget(w1))
        && NamesFresh(original, Complete(w, Escalated).0);
      UnhealthyKeepsFresh(original, s, job, w1, t);
      HealthyKeepsFresh(original, s, job, w1);
      if LatestIn(job, {RecreateWithOffsetTimeout}) {
        assert ActsFresh(original, job, w1, if job.sum.timeouts < MAX_TIMEOUTS then RetryRecreate else Escalate);
        ExecuteKeepsFresh(original, s, job, w1, t, if job.sum.timeouts < MAX_TIMEOUTS then RetryRecreate else Escalate);
      }
    }
  }

  /** A poll up to the point where its outcome is settled. */
  function Processed(s: Settings, w: World, t: Tick): (World, Done) {
    var w0 := Begin(w, t);
    var (w1, d1) := Complete(w0, Processing);
    if d1.Raised? then (w1, d1) else ProcessJob(s, ReadJob(w0.db), w1, t)
  }

  /** Nothing raises outside a dispatched action, so no error row is attempted. */
  predicate QuietPoll(s: Settings, w: World, t: Tick) {
    w.db.Open() ==> var (w', d) := Processed(s, w, t); d.Raised? ==> w'.mem.uncertain
  }

  lemma StepKeepsFresh(original: Name, s: Settings, w: World, t: Tick)
    requires NamesFresh(original, w) && QuietPoll(s, w, t)
    ensures NamesFresh(original, Step(s, w, t))
  {
    hide Project, AuditOf, Creations, AllFresh, OnRecord, ProcessJob;
    if w.db.Open() {
      var w0 := Begin(w, t);
      var job := ReadJob(w0.db);
      var w1 := Complete(w0, Processing).0;
      assert w1.db.Open() && ReadJob(w1.db) == job && NamesFresh(original, w1);
      ProcessKeepsFresh(original, s, job, w1, t);
      var (w2, d2) := Processed(s, w, t);
      assert NamesFresh(original, w2);
      assert Step(s, w, t) == Settle(job, w2, d2);
    }
  }

  /** No poll raises outside an action, and no process restart strikes while the
      outcome of an action is unknown. */
  predicate Undisturbed(s: Settings, w: World, inputs: seq<Input>) {
    forall i | 0 <= i < |inputs| :: UndisturbedAt(s, Run(s, w, inputs[..i]), inputs[i])
  }

  predicate UndisturbedAt(s: Settings, w: World, i: Input) {
    match i
    case Poll(t) => QuietPoll(s, w, t)
    case ProcessRestart => w.db.Open() ==> !w.mem.uncertain
  }

  lemma {:induction false} RunKeepsFresh(original: Name, s: Settings, w: World, inputs: seq<Input>)
    requires NamesFresh(original, w) && Undisturbed(s, w, inputs)
    ensures NamesFresh(original, Run(s, w, inputs))
  {
    hide Step, NamesFresh, QuietPoll;
    if inputs != [] {
      var front, last := inputs[..|inputs| - 1], inputs[|inputs| - 1];
      forall i | 0 <= i < |front| ensures UndisturbedAt(s, Run(s, w, front[..i]), front[i]) {
        assert front[..i] == inputs[..i] && front[i] == inputs[i];
      }
      RunKeepsFresh(original, s, w, front);
      var before := Run(s, w, front);
      assert UndisturbedAt(s, before, last);
      match last
      case Poll(t) => StepKeepsFresh(original, s, before, t);
      case ProcessRestart => RestartedFresh(original, before);
    }
  }

  lemma RestartedFresh(original: Name, w: World)
    requires NamesFresh(original, w) && (w.db.Open() ==> !w.mem.uncertain)
    ensures NamesFresh(original, Restarted(w))
  {
    hide Project, Creations, AllFresh, OnRecord;
  }

  lemma NewItemFresh(w: World)
    requires NewItem(w)
    ensures NamesFresh(w.db.current, w)
  {
    hide Sequence;
  }

  /** Main result: every create request other than a retry uses a name that neither
      the incident nor any earlier create used.  Requests may fail in every way,
      and so may the writes of every action. */
  lemma ReplacementNamesFresh(s: Settings, w: World, inputs: seq<Input>)
    requires NewItem(w) && Undisturbed(s, w, inputs)
    ensures var cs := Creations(Run(s, w, inputs).kc.calls);
            forall i | 0 <= i < |cs| && !cs[i].retry ::
              cs[i].name != w.db.current && forall j | 0 <= j < i :: cs[j].name != cs[i].name
  {
    hide Run, Project, Creations, Sequence, Undisturbed;
    NewItemFresh(w);
    RunKeepsFresh(w.db.current, s, w, inputs);
  }
}
