/** Budgets that hold under every pattern of database and Kafka Connect failures:
    how often an incident may log an action, and how often one process may
    request it. */
module HealingBudgets {
  import opened Basics
  import opened ConnectorNames
  import opened HealingDomain
  import opened HealingWorld
  import opened HealingSteps

  // ---- What is counted ---------------------------------------------------------

  datatype Tally = Tally(taskRestarts: nat, connectorRestarts: nat, freshCreates: nat)

  function AddOp(y: Tally, op: Op): Tally {
    match op
    case RestartFailed => y.(taskRestarts := y.taskRestarts + 1)
    case RestartAll => y.(connectorRestarts := y.connectorRestarts + 1)
    case CreateOp(_, true) => y.(freshCreates := y.freshCreates + 1)
    case _ => y
  }

  /** The restart and fresh-create requests issued so far. */
  function TallyOf(calls: seq<Call>): Tally {
    if calls == [] then Tally(0, 0, 0) else AddOp(TallyOf(calls[..|calls| - 1]), calls[|calls| - 1].op)
  }

  lemma TallyIssue(kc: Kc, op: Op, name: Name, ok: bool, after: Cluster)
    ensures TallyOf(Issue(kc, op, name, ok, after).calls) == AddOp(TallyOf(kc.calls), op)
  {
    assert Issue(kc, op, name, ok, after).calls[..|kc.calls|] == kc.calls;
  }

  predicate SameCounts(s: Summary, s': Summary) {
    && s'.confirmed == s.confirmed
    && s'.taskRestarts == s.taskRestarts
    && s'.connectorRestarts == s.connectorRestarts
    && s'.withoutOffset == s.withoutOffset
    && s'.withoutOffsetFailed == s.withoutOffsetFailed
  }

  /** Nothing is added that the audit counts, except for results of recreates. */
  predicate SameAudit(a: Audit, a': Audit) {
    && a'.(earlyResults := a.earlyResults, restored := a.restored) == a
    && (a.captures > 0 ==> a'.earlyResults == a.earlyResults)
  }

  /** A part of a saga that spends none of the budgets. */
  predicate Frugal(w: World, w': World) {
    && SameCounts(Project(w.db.log), Project(w'.db.log))
    && SameAudit(AuditOf(w.db.log), AuditOf(w'.db.log))
    && TallyOf(w'.kc.calls) == TallyOf(w.kc.calls)
    && w'.mem == w.mem
    && w'.db.status == w.db.status
  }

  // ---- The sagas with offsets spend nothing ---------------------------------------

  lemma AbandonFrugal(job: Job, w: World, name: Name, kind: EventKind)
    requires kind in {ConnectorResumeFailed, OffsetPatchFailed}
    ensures Frugal(w, AbandonReplacement(job, w, name, kind).0)
  {
    hide Project, AuditOf, TallyOf, Involved;
  }

  lemma DeleteFrugal(s: Settings, job: Job, w: World, name: Name)
    ensures Frugal(w, DeleteFailedVersioned(s, job, w, name))
    ensures DeleteFailedVersioned(s, job, w, name).db == w.db
  {
    hide Project, AuditOf, IsVersioned, TallyOf;
    TallyIssue(w.kc, DeleteOp, job.name, First(w.kc.replies).Ok?, DeleteConnector(w.kc, job.name).cluster);
  }

  lemma ResumeFrugal(s: Settings, job: Job, w: World, name: Name)
    ensures Frugal(w, ResumeReplacement(s, job, w, name).0)
  {
    hide Project, AuditOf, TallyOf, ResumeConnector, AbandonReplacement, DeleteFailedVersioned;
    var (kc, ok) := ResumeConnector(w.kc, name);
    var w1 := w.(kc := kc);
    TallyIssue(w.kc, ResumeOp, name, ok, kc.cluster);
    AbandonFrugal(job, w1, name, ConnectorResumeFailed);
    var (w2, _) := Log(w1, RecreateWithOffset, name, job.WithOffsetCount() + 1, Involved(job, Some(name)));
    DeleteFrugal(s, job, MoveTo(w2, name).0, name);
  }

  lemma PatchFrugal(s: Settings, job: Job, w: World, name: Name, offsets: Offsets)
    ensures Frugal(w, PatchReplacement(s, job, w, name, offsets).0)
  {
    hide Project, AuditOf, TallyOf, PatchOffsets, AbandonReplacement, ResumeReplacement;
    var (kc, ok) := PatchOffsets(w.kc, name, offsets);
    TallyIssue(w.kc, PatchOp, name, ok, kc.cluster);
    AbandonFrugal(job, w.(kc := kc), name, OffsetPatchFailed);
    ResumeFrugal(s, job, w.(kc := kc), name);
  }

  lemma CreateFrugal(s: Settings, job: Job, w: World, name: Name, offsets: Offsets)
    ensures Frugal(w, CreateReplacement(s, job, w, name, offsets).0)
  {
    hide Project, AuditOf, TallyOf, CreateConnector, PatchReplacement;
    var (kc, d) := CreateConnector(w.kc, name, false, false);
    TallyIssue(w.kc, CreateOp(false, false), name, d.Returned?, kc.cluster);
    PatchFrugal(s, job, w.(kc := kc), name, offsets);
  }

  lemma FailFrugal(job: Job, w: World, connector: Name, details: Details)
    ensures Frugal(w, FailRecreate(job, w, connector, details).0)
  {
    hide Project, AuditOf, TallyOf;
  }

  lemma RecreateFrugal(s: Settings, job: Job, w: World, t: Tick)
    ensures var w' := RecreateWithOffsets(s, job, w, t).0;
            || w' == w
            || (t.offsets.OffsetsRead? && Frugal(Captured(job, w, t.offsets.offsets), w'))
  {
    hide Project, AuditOf, TallyOf, StopConnector, CreateReplacement, Job.ReplacementName, RecreateWithOffsets,
      FailRecreate, Captured;
    RecreateEnds(s, job, w, t);
    if t.offsets.OffsetsRead? {
      var w1 := Captured(job, w, t.offsets.offsets);
      var (kc, ok) := StopConnector(w1.kc, job.name);
      var w2 := w1.(kc := kc);
      TallyIssue(w1.kc, StopOp, job.name, ok, kc.cluster);
      FailFrugal(job, w1, job.name, NO_DETAILS.(original := Some(job.OriginalName()), offsets := t.offsets.offsets));
      FailFrugal(job, w1, job.name, Involved(job, None));
      FailFrugal(job, w2, job.name, Involved(job, Some(job.ReplacementName())));
      if t.offsets.offsets.Some? { CreateFrugal(s, job, w2, job.ReplacementName(), t.offsets.offsets.value); }
    }
  }

  lemma CompleteRetryFrugal(job: Job, w: World, offsets: Offsets)
    ensures Frugal(w, CompleteRetry(job, w, offsets).0)
  {
    hide Project, AuditOf, TallyOf, PatchOffsets, ResumeConnector;
    var (kc1, patched) := PatchOffsets(w.kc, job.name, offsets);
    TallyIssue(w.kc, PatchOp, job.name, patched, kc1.cluster);
    var (kc2, resumed) := ResumeConnector(kc1, job.name);
    TallyIssue(kc1, ResumeOp, job.name, resumed, kc2.cluster);
  }

  lemma RetryFrugal(job: Job, w: World, t: Tick)
    ensures Frugal(w, RetryWithOffsets(job, w, t).0)
  {
    hide Project, AuditOf, TallyOf, StopConnector, CreateConnector, CompleteRetry;
    var (kc, ok) := StopConnector(w.kc, job.name);
    TallyIssue(w.kc, StopOp, job.name, ok, kc.cluster);
    var (kc', d) := CreateConnector(w.kc, job.name, true, false);
    TallyIssue(w.kc, CreateOp(true, false), job.name, d.Returned?, kc'.cluster);
    if job.LatestDetails().offsets.Some? {
      CompleteRetryFrugal(job, w.(kc := kc), job.LatestDetails().offsets.value);
      CompleteRetryFrugal(job, w.(kc := kc'), job.LatestDetails().offsets.value);
    }
  }

  // ---- Actions ----------------------------------------------------------------------

  predicate WithinLog(p: Policy, s: Summary) {
    && s.confirmed <= 1
    && s.taskRestarts <= p.taskRestarts
    && s.connectorRestarts <= p.connectorRestarts
    && s.withoutOffset + s.withoutOffsetFailed <= MAX_WITHOUT_OFFSET
  }

  predicate WithinCalls(p: Policy, y: Tally) {
    && y.taskRestarts <= p.taskRestarts
    && y.connectorRestarts <= p.connectorRestarts
    && y.freshCreates <= MAX_WITHOUT_OFFSET
  }

  /** Every request is on record in the log. */
  predicate OnRecord(y: Tally, s: Summary) {
    && y.taskRestarts <= s.taskRestarts
    && y.connectorRestarts <= s.connectorRestarts
    && y.freshCreates <= s.withoutOffset + s.withoutOffsetFailed
  }

  /** The invariant.  The bounds on requests are tracked only as long as the
      process has not forgotten an action with an unknown outcome. */
  predicate Within(p: Policy, w: World, tracked: bool) {
    && WithinLog(p, Project(w.db.log))
    && (tracked ==> WithinCalls(p, TallyOf(w.kc.calls)))
    && (tracked && w.db.Open() && !w.mem.uncertain ==> OnRecord(TallyOf(w.kc.calls), Project(w.db.log)))
  }

  /** The decision leaves room in the budget it is going to spend. */
  predicate Affordable(p: Policy, a: Action, s: Summary) {
    && (a == RestartTasks ==> s.taskRestarts < p.taskRestarts)
    && (a == RestartWholeConnector ==> s.connectorRestarts < p.connectorRestarts)
    && (a == RecreateFresh ==> s.withoutOffset + s.withoutOffsetFailed < MAX_WITHOUT_OFFSET)
  }

  lemma DecideAffordable(p: Policy, job: Job, hasFailedTasks: bool)
    ensures Affordable(p, Decide(p, job, hasFailedTasks), job.sum)
  {
    hide LatestIn;
  }

  predicate CanAct(p: Policy, job: Job, w: World, a: Action, tracked: bool) {
    && Within(p, w, tracked)
    && (tracked ==> OnRecord(TallyOf(w.kc.calls), Project(w.db.log)))
    && SameCounts(job.sum.(confirmed := Project(w.db.log).confirmed), Project(w.db.log))
    && Affordable(p, a, job.sum)
  }

  /** After an action that returned, everything requested is on record. */
  predicate Accounted(p: Policy, r: (World, Done), tracked: bool) {
    && WithinLog(p, Project(r.0.db.log))
    && (tracked ==> WithinCalls(p, TallyOf(r.0.kc.calls)))
    && (tracked && r.1.Returned? ==> OnRecord(TallyOf(r.0.kc.calls), Project(r.0.db.log)))
  }

  lemma RestartAccounted(p: Policy, job: Job, w: World, t: Tick, onlyFailed: bool, tracked: bool)
    requires CanAct(p, job, w, if onlyFailed then RestartTasks else RestartWholeConnector, tracked)
    ensures Accounted(p, RestartStep(job, w, t, onlyFailed), tracked)
  {
    hide Project, AuditOf, TallyOf, RestartConnector;
    var (kc, d) := RestartConnector(w.kc, job.name, onlyFailed);
    TallyIssue(w.kc, if onlyFailed then RestartFailed else RestartAll, job.name, d.Returned?, kc.cluster);
  }

  /** Putting a fresh replacement on record spends one unit, and exactly one when
      it returns. */
  lemma FinishFresh(s: Settings, job: Job, w: World, name: Name)
    ensures var (w', d) := FinishReplacement(s, job, w, name, RecreateWithoutOffset, job.WithoutOffsetCount() + 1);
            var n, n' := Project(w.db.log).withoutOffset, Project(w'.db.log).withoutOffset;
            && SameCounts(Project(w.db.log).(withoutOffset := n'), Project(w'.db.log))
            && (n' == n + 1 || (n' == n && d.Raised?))
            && TallyOf(w'.kc.calls) == TallyOf(w.kc.calls)
  {
    hide Project, AuditOf, AddAudit, TallyOf, DeleteFailedVersioned;
    var (w1, _) := Log(w, RecreateWithoutOffset, name, job.WithoutOffsetCount() + 1, Involved(job, Some(name)));
    DeleteFrugal(s, job, MoveTo(w1, name).0, name);
  }

  lemma FreshAccounted(p: Policy, s: Settings, job: Job, w: World, t: Tick, tracked: bool)
    requires CanAct(p, job, w, RecreateFresh, tracked)
    ensures Accounted(p, RecreateWithoutOffsets(s, job, w, t), tracked)
  {
    hide Project, AuditOf, AddAudit, TallyOf, StopConnector, CreateConnector, FinishReplacement, Job.ReplacementName;
    var name := job.ReplacementName();
    var (kc1, stopped) := StopConnector(w.kc, job.name);
    TallyIssue(w.kc, StopOp, job.name, stopped, kc1.cluster);
    var (kc2, d) := CreateConnector(kc1, name, false, true);
    TallyIssue(kc1, CreateOp(false, true), name, d.Returned?, kc2.cluster);
    FinishFresh(s, job, w.(kc := kc2), name);
  }

  lemma EscalateAccounted(p: Policy, w: World, kind: EventKind, connector: Name, status: Status, tracked: bool)
    requires Accounted(p, (w, Returned(true)), tracked)
    requires kind in {HealingEscalated, HealingLevelLimitReached, HealingRecovered}
    ensures Accounted(p, LogAndComplete(w, kind, connector, NO_DETAILS, status), tracked)
    ensures tracked
      ==> OnRecord(TallyOf(w.kc.calls), Project(LogAndComplete(w, kind, connector, NO_DETAILS, status).0.db.log))
  {
    hide Project, AuditOf, TallyOf;
  }

  lemma DispatchAccounted(p: Policy, s: Settings, job: Job, w: World, t: Tick, a: Action, tracked: bool)
    requires CanAct(p, job, w, a, tracked)
    ensures Accounted(p, Dispatch(s, job, w, t, a), tracked)
  {
    hide Project, AuditOf, TallyOf, RestartStep, RecreateWithOffsets, RetryWithOffsets, RecreateWithoutOffsets,
      LogAndComplete;
    EscalateAccounted(p, w, HealingLevelLimitReached, job.name, Escalated, tracked);
    EscalateAccounted(p, w, HealingEscalated, job.name, Escalated, tracked);
    match a
    case RestartTasks => RestartAccounted(p, job, w, t, true, tracked);
    case RestartWholeConnector => RestartAccounted(p, job, w, t, false, tracked);
    case Recreate => RecreateFrugal(s, job, w, t);
    case RetryRecreate =>
      RetryFrugal(job, w, t);
      EscalateAccounted(p, RetryWithOffsets(job, w, t).0, HealingEscalated, job.name, Escalated, tracked);
    case RecreateFresh =>
      FreshAccounted(p, s, job, w, t, tracked);
      if RecreateWithoutOffsets(s, job, w, t).1.Returned? {
        EscalateAccounted(p, RecreateWithoutOffsets(s, job, w, t).0, HealingEscalated, job.name, Escalated, tracked);
      }
    case _ =>
  }

  lemma QuarantineWithin(p: Policy, job: Job, w: World, tracked: bool)
    requires WithinLog(p, Project(w.db.log)) && (tracked ==> WithinCalls(p, TallyOf(w.kc.calls))) && w.mem.uncertain
    ensures Within(p, Quarantine(job, w).0, tracked)
  {
    hide Project, AuditOf, TallyOf;
  }

  lemma ExecuteWithin(p: Policy, s: Settings, job: Job, w: World, t: Tick, a: Action, tracked: bool)
    requires CanAct(p, job, w, a, tracked)
    ensures Within(p, Execute(s, job, w, t, a).0, tracked)
  {
    hide Project, AuditOf, TallyOf, Dispatch, Quarantine;
    DispatchAccounted(p, s, job, w, t, a, tracked);
    var (w1, d) := Dispatch(s, job, w, t, a);
    if d.Raised? {
      QuarantineWithin(p, job, w1.(mem := w1.mem.(uncertain := true)), tracked);
    }
  }

  lemma LogWithin(p: Policy, w: World, kind: EventKind, connector: Name, attempt: nat, details: Details, tracked: bool)
    requires Within(p, w, tracked) && kind in {HealthFailureObserved, HealthFailedConfirmed}
    ensures var w' := Log(w, kind, connector, attempt, details).0;
            && Within(p, w', tracked)
            && SameCounts(Project(w.db.log).(confirmed := Project(w'.db.log).confirmed), Project(w'.db.log))
            && w'.db.status == w.db.status && w'.kc == w.kc && w'.mem == w.mem
  {
    hide Project, AuditOf, AddAudit, TallyOf, WithinCalls;
  }

  lemma ObservationWithin(s: Settings, job: Job, w: World, t: Tick, tracked: bool)
    requires Within(s.policy, w, tracked) && w.db.Open() && !w.mem.uncertain && job.sum == Project(w.db.log)
    ensures Within(s.policy, ObservationRow(s, job, w, t), tracked)
    ensures var w' := Observed(s, job, w, t).0;
            && Within(s.policy, w', tracked) && w'.db.Open() && !w'.mem.uncertain
            && SameCounts(job.sum.(confirmed := Project(w'.db.log).confirmed), Project(w'.db.log))
  {
    hide Project, AuditOf, TallyOf, WithinCalls, WithinLog, OnRecord, Log, Clamp, NextCount;
    LogWithin(s.policy, Forget(w), HealthFailureObserved, job.name, NextCount(s, job),
              NO_DETAILS.(failedTasks := FailedTasks(t)), tracked);
    LogWithin(s.policy, ObservationRow(s, job, w, t), HealthFailedConfirmed, job.name, 0, NO_DETAILS, tracked);
  }

  lemma UnhealthyWithin(s: Settings, job: Job, w: World, t: Tick, tracked: bool)
    requires Within(s.policy, w, tracked) && w.db.Open() && !w.mem.uncertain && job.sum == Project(w.db.log)
    ensures Within(s.policy, HandleUnhealthy(s, job, w, t).0, tracked)
  {
    hide Project, AuditOf, TallyOf, Execute, Decide, WithinCalls, WithinLog, OnRecord, HandleUnhealthy,
      ObservationRow, Observed, NextCount, Affordable;
    UnhealthyEnds(s, job, w, t);
    ObservationWithin(s, job, w, t, tracked);
    var (seen, confirming) := Observed(s, job, w, t);
    var job' := ObservedJob(s, job, t, confirming);
    DecideAffordable(s.policy, job', FailedTasks(t));
    ExecuteWithin(s.policy, s, job', seen, t, Decide(s.policy, job', FailedTasks(t)), tracked);
  }

  lemma {:induction false} DeleteAllTally(kc: Kc, names: seq<Name>)
    ensures TallyOf(DeleteAll(kc, names).calls) == TallyOf(kc.calls)
    decreases |names|
  {
    hide TallyOf;
    if names != [] {
      TallyIssue(kc, DeleteOp, names[0], First(kc.replies).Ok?, DeleteConnector(kc, names[0]).cluster);
      DeleteAllTally(DeleteConnector(kc, names[0]), names[1..]);
    }
  }

  lemma HealthyWithin(s: Settings, job: Job, w: World, tracked: bool)
    requires Within(s.policy, w, tracked) && w.db.Open() && !w.mem.uncertain
    ensures Within(s.policy, HandleHealthy(s, job, w).0, tracked)
  {
    hide Project, AuditOf, TallyOf, DeleteAll, Superseded, NoAutomatedStep, LatestIn, LogAndComplete;
    DeleteAllTally(w.kc, Superseded(s, job));
    var w1 := w.(kc := DeleteAll(w.kc, Superseded(s, job)));
    EscalateAccounted(s.policy, w1, HealingRecovered, job.name, Completed, tracked);
    RecoveredFrame(w1, job.name);
  }

  lemma RecoveredFrame(w: World, connector: Name)
    ensures var w' := LogAndComplete(w, HealingRecovered, connector, NO_DETAILS, Completed).0;
            w'.kc == w.kc && w'.mem == w.mem
  {
  }

  lemma ProcessWithin(s: Settings, job: Job, w: World, t: Tick, tracked: bool)
    requires Within(s.policy, w, tracked) && w.db.Open() && job == ReadJob(w.db).(hasNextStep := job.hasNextStep)
    ensures Within(s.policy, ProcessJob(s, job, w, t).0, tracked)
  {
    hide Project, AuditOf, TallyOf, Execute, HandleUnhealthy, HandleHealthy, WaitUntil, ManagedStopped, LatestIn,
      Quarantine;
    if w.mem.uncertain {
      QuarantineWithin(s.policy, job, w, tracked);
    } else {
      var w1 := See(w, t.health);
      ExecuteWithin(s.policy, s, job, w1, t, if job.sum.timeouts < MAX_TIMEOUTS then RetryRecreate else Escalate,
                    tracked);
      UnhealthyWithin(s, job, w1, t, tracked);
      HealthyWithin(s, job, w1, tracked);
    }
  }

  lemma SettleWithin(p: Policy, job: Job, w: World, d: Done, tracked: bool)
    requires Within(p, w, tracked)
    ensures Within(p, Settle(job, w, d), tracked)
  {
    hide Project, AuditOf, TallyOf;
  }

  lemma StepWithin(s: Settings, w: World, t: Tick, tracked: bool)
    requires Within(s.policy, w, tracked)
    ensures Within(s.policy, Step(s, w, t), tracked)
  {
    hide Project, AuditOf, TallyOf, ProcessJob, Settle;
    if w.db.Open() {
      var w0 := Begin(w, t);
      var job := ReadJob(w0.db);
      var (w1, d1) := Complete(w0, Processing);
      ProcessWithin(s, job, w1, t, tracked);
      var (w2, d2) := if d1.Raised? then (w1, d1) else ProcessJob(s, job, w1, t);
      SettleWithin(s.policy, job, w2, d2, tracked);
    }
  }

  // ---- Runs ---------------------------------------------------------------------------

  predicate NewItem(w: World) {
    w.db.log == [] && w.kc.calls == [] && w.db.Open() && !w.mem.uncertain
  }

  lemma {:induction false} RunWithin(s: Settings, w: World, inputs: seq<Input>, tracked: bool)
    requires NewItem(w) && (tracked ==> ProcessRestart !in inputs)
    ensures Within(s.policy, Run(s, w, inputs), tracked)
  {
    hide TallyOf, Project, AuditOf, Step, Within;
    if inputs == [] {
      NewItemWithin(s.policy, w, tracked);
    } else {
      var front, last := inputs[..|inputs| - 1], inputs[|inputs| - 1];
      RunWithin(s, w, front, tracked);
      match last
      case Poll(t) => StepWithin(s, Run(s, w, front), t, tracked);
      case ProcessRestart => RestartedWithin(s.policy, Run(s, w, front));
    }
  }

  lemma NewItemWithin(p: Policy, w: World, tracked: bool)
    requires NewItem(w)
    ensures Within(p, w, tracked)
  {
  }

  lemma RestartedWithin(p: Policy, w: World)
    requires Within(p, w, false)
    ensures Within(p, Restarted(w), false)
  {
    hide Project, AuditOf, TallyOf;
  }

  /** The log budgets of an incident hold on every run, with process restarts and
      with any database or Kafka Connect failure, in terms of counted rows. */
  lemma LogBudgets(s: Settings, w: World, inputs: seq<Input>)
    requires NewItem(w)
    ensures var log := Run(s, w, inputs).db.log;
            && Count(log, {HealthFailedConfirmed}) <= 1
            && Count(log, {TaskRestart}) <= s.policy.taskRestarts
            && Count(log, {ConnectorRestart}) <= s.policy.connectorRestarts
            && Count(log, {RecreateWithoutOffset, RecreateWithoutOffsetFailed}) <= 1
  {
    hide Run, AuditOf, Project;
    RunWithin(s, w, inputs, false);
    ProjectCounts(Run(s, w, inputs).db.log);
  }

  /** One process requests no more than the budgets either, even when the rows
      that would count a request are lost. */
  lemma RequestBudgets(s: Settings, w: World, inputs: seq<Input>)
    requires NewItem(w) && ProcessRestart !in inputs
    ensures WithinCalls(s.policy, TallyOf(Run(s, w, inputs).kc.calls))
  {
    hide Run, AuditOf, Project, TallyOf;
    RunWithin(s, w, inputs, true);
  }

  // ---- Quarantine ------------------------------------------------------------------------

  predicate ClosedAsEscalated(w: World) {
    && w.db.status == Escalated
    && Project(w.db.log).latest.Some?
    && Project(w.db.log).latest.value.kind in TERMINAL
  }

  predicate Quarantined(w: World) {
    ClosedAsEscalated(w) || (w.db.Open() && w.mem.uncertain)
  }

  lemma FreshStatus(s: Settings, job: Job, w: World, t: Tick)
    ensures RecreateWithoutOffsets(s, job, w, t).0.db.status == w.db.status
  {
    hide Project, AuditOf, StopConnector, CreateConnector, DeleteConnector, IsVersioned, Job.ReplacementName;
  }

  predicate OpenOrClosed(w: World) { w.db.Open() || ClosedAsEscalated(w) }

  lemma CompletedStatus(w: World, kind: EventKind, connector: Name)
    requires w.db.Open() && kind in TERMINAL
    ensures OpenOrClosed(LogAndComplete(w, kind, connector, NO_DETAILS, Escalated).0)
  {
    hide Project, AuditOf;
  }

  lemma RestartStatus(job: Job, w: World, t: Tick, onlyFailed: bool)
    requires w.db.Open()
    ensures RestartStep(job, w, t, onlyFailed).0.db.Open()
  {
    hide Project, AuditOf, RestartConnector;
  }

  lemma DispatchStatus(s: Settings, job: Job, w: World, t: Tick, a: Action)
    requires w.db.Open()
    ensures OpenOrClosed(Dispatch(s, job, w, t, a).0)
  {
    hide Project, AuditOf, TallyOf, RecreateWithOffsets, RetryWithOffsets, RecreateWithoutOffsets, RestartStep,
      LogAndComplete, ClosedAsEscalated;
    CompletedStatus(w, HealingLevelLimitReached, job.name);
    CompletedStatus(w, HealingEscalated, job.name);
    match a
    case RestartTasks => RestartStatus(job, w, t, true);
    case RestartWholeConnector => RestartStatus(job, w, t, false);
    case Recreate => RecreateFrugal(s, job, w, t);
    case RetryRecreate =>
      RetryFrugal(job, w, t);
      CompletedStatus(RetryWithOffsets(job, w, t).0, HealingEscalated, job.name);
    case RecreateFresh =>
      FreshStatus(s, job, w, t);
      CompletedStatus(RecreateWithoutOffsets(s, job, w, t).0, HealingEscalated, job.name);
    case _ =>
  }

  /** An action that raises, wherever in its saga, leaves the item quarantined,
      and no later request follows in that step. */
  lemma RaisedActionIsQuarantined(s: Settings, job: Job, w: World, t: Tick, a: Action)
    requires w.db.Open()
    requires Dispatch(s, job, w, t, a).1.Raised?
    ensures var (w', d) := Execute(s, job, w, t, a);
            && w'.kc == Dispatch(s, job, w, t, a).0.kc
            && Quarantined(w')
            && (d.Raised? ==> w'.mem.uncertain)
  {
    hide Project, AuditOf, Dispatch;
    DispatchStatus(s, job, w, t, a);
  }

  /** A poll of a quarantined item requests nothing and keeps it quarantined;
      with working persistence it closes the item as escalated. */
  lemma QuarantinedStep(s: Settings, w: World, t: Tick)
    requires Quarantined(w)
    ensures var w' := Step(s, w, t);
            && w'.kc.calls == w.kc.calls
            && w'.kc.cluster == w.kc.cluster
            && Quarantined(w')
            && (ClosedAsEscalated(w) ==> w' == w)
            && (t.dbReplies == [] ==> ClosedAsEscalated(w'))
  {
    hide Project, AuditOf, HandleUnhealthy, HandleHealthy, Execute, WaitUntil;
    if w.db.Open() {
      var w0 := Begin(w, t);
      var job := ReadJob(w0.db);
      var (w1, d1) := Complete(w0, Processing);
      assert w1.mem.uncertain && w1.kc == w0.kc;
      var r := WithFollowup(Quarantine(job, w1), false);
      assert ProcessJob(s, job, w1, t) == r;
    }
  }

  /** Once an item is quarantined, no poll of the same process touches Kafka
      Connect again, whatever the database does; as soon as one poll finds the
      database working, the item is closed with a terminal event. */
  lemma {:induction false} QuarantineHolds(s: Settings, w: World, ticks: seq<Tick>)
    requires Quarantined(w)
    ensures var w' := RunTicks(s, w, ticks);
            && w'.kc.calls == w.kc.calls
            && w'.kc.cluster == w.kc.cluster
            && Quarantined(w')
            && ((exists i :: 0 <= i < |ticks| && ticks[i].dbReplies == []) ==> ClosedAsEscalated(w'))
  {
    hide Step, Project, AuditOf;
    if ticks != [] {
      var front, last := ticks[..|ticks| - 1], ticks[|ticks| - 1];
      QuarantineHolds(s, w, front);
      QuarantinedStep(s, RunTicks(s, w, front), last);
      if i :| 0 <= i < |ticks| && ticks[i].dbReplies == [] {
        if i < |front| {
          assert front[i].dbReplies == [];
        }
      }
    }
  }

  /** A run of one process: polls only. */
  function RunTicks(s: Settings, w: World, ticks: seq<Tick>): World {
    if ticks == [] then w else Step(s, RunTicks(s, w, ticks[..|ticks| - 1]), ticks[|ticks| - 1])
  }
}
