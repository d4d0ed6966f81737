/** Offset carry-over: a recreate with offset is recorded only for a replacement
    that holds the offsets captured when it began, across create timeouts and
    retries from the log, under any failures. */
module HealingOffsets {
  import opened Basics
  import opened ConnectorNames
  import opened HealingDomain
  import opened HealingWorld
  import opened HealingSteps
  import opened HealingBudgets

  // ---- Properties -------------------------------------------------------------------

  /** Every resume directly follows a successful offset patch of the same connector. */
  predicate PatchedBeforeResumed(calls: seq<Call>) {
    forall i | 0 <= i < |calls| :: calls[i].op == ResumeOp ==>
      i > 0 && calls[i - 1].op == PatchOp && calls[i - 1].name == calls[i].name && calls[i - 1].ok
  }

  predicate JustPatched(calls: seq<Call>, name: Name) {
    calls != [] && calls[|calls| - 1].op == PatchOp && calls[|calls| - 1].name == name && calls[|calls| - 1].ok
  }

  /** The connector last recorded as restored holds the offsets last captured. */
  predicate HoldsCaptured(w: World) {
    var a := AuditOf(w.db.log);
    && a.restored.Some? && a.captured.Some?
    && a.restored.value in w.kc.cluster.offsets
    && w.kc.cluster.offsets[a.restored.value] == a.captured.value
  }

  /** A timeout that can be retried carries the captured offsets. */
  predicate TimeoutCarries(db: Db) {
    var latest := Project(db.log).latest;
    latest.Some? && latest.value.kind == RecreateWithOffsetTimeout && latest.value.details.offsets.Some?
    ==> AuditOf(db.log).captured == latest.value.details.offsets
  }

  predicate Carrying(w: World) {
    PatchedBeforeResumed(w.kc.calls) && TimeoutCarries(w.db)
  }

  /** The part of a run from `w` to `w'` records at most one recreate with offset,
      and that one holds. */
  predicate Carried(w: World, w': World) {
    && Carrying(w')
    && AuditOf(w'.db.log).captured == AuditOf(w.db.log).captured
    && (|| Project(w'.db.log).withOffset == Project(w.db.log).withOffset
        || (Project(w'.db.log).withOffset == Project(w.db.log).withOffset + 1 && HoldsCaptured(w')))
  }

  lemma IssuePatched(kc: Kc, kc': Kc, op: Op, name: Name, ok: bool)
    requires PatchedBeforeResumed(kc.calls) && kc' == Issue(kc, op, name, ok, kc'.cluster)
    requires op == ResumeOp ==> JustPatched(kc.calls, name)
    ensures PatchedBeforeResumed(kc'.calls)
    ensures op == PatchOp && ok ==> JustPatched(kc'.calls, name)
  {
  }

  // ---- Sagas ----------------------------------------------------------------------------

  lemma AbandonCarries(job: Job, w: World, name: Name, kind: EventKind)
    requires Carrying(w) && kind in {ConnectorResumeFailed, OffsetPatchFailed}
    ensures Carried(w, AbandonReplacement(job, w, name, kind).0)
  {
    hide Project, AuditOf, PatchedBeforeResumed;
  }

  lemma FinishCarries(s: Settings, job: Job, w: World, name: Name, offsets: Offsets)
    requires Carrying(w) && AuditOf(w.db.log).captured == Some(offsets)
    requires name in w.kc.cluster.offsets && w.kc.cluster.offsets[name] == offsets
    ensures Carried(w, FinishReplacement(s, job, w, name, RecreateWithOffset, job.WithOffsetCount() + 1).0)
  {
    hide Project, AuditOf, IsVersioned;
  }

  lemma ResumeCarries(s: Settings, job: Job, w: World, name: Name, offsets: Offsets)
    requires Carrying(w) && AuditOf(w.db.log).captured == Some(offsets)
    requires name in w.kc.cluster.offsets && w.kc.cluster.offsets[name] == offsets
    requires JustPatched(w.kc.calls, name)
    ensures Carried(w, ResumeReplacement(s, job, w, name).0)
  {
    hide Project, AuditOf, AbandonReplacement, FinishReplacement;
    var w1 := w.(kc := ResumeConnector(w.kc, name).0);
    AbandonCarries(job, w1, name, ConnectorResumeFailed);
    FinishCarries(s, job, w1, name, offsets);
  }

  lemma PatchCarries(s: Settings, job: Job, w: World, name: Name, offsets: Offsets)
    requires Carrying(w) && AuditOf(w.db.log).captured == Some(offsets)
    ensures Carried(w, PatchReplacement(s, job, w, name, offsets).0)
  {
    hide Project, AuditOf, AbandonReplacement, ResumeReplacement;
    var (kc, ok) := PatchOffsets(w.kc, name, offsets);
    var w1 := w.(kc := kc);
    AbandonCarries(job, w1, name, OffsetPatchFailed);
    if ok {
      ResumeCarries(s, job, w1, name, offsets);
    }
  }

  lemma CreateCarries(s: Settings, job: Job, w: World, name: Name, offsets: Offsets)
    requires Carrying(w) && AuditOf(w.db.log).captured == Some(offsets)
    ensures Carried(w, CreateReplacement(s, job, w, name, offsets).0)
  {
    hide Project, AuditOf, PatchReplacement;
    PatchCarries(s, job, w.(kc := CreateConnector(w.kc, name, false, false).0), name, offsets);
  }

  lemma FailCarries(job: Job, w: World, connector: Name, details: Details)
    requires Carrying(w)
    ensures Carried(w, FailRecreate(job, w, connector, details).0)
  {
    hide Project, AuditOf, PatchedBeforeResumed;
  }

  lemma CaptureCarries(job: Job, w: World, offsets: Option<Offsets>)
    requires Carrying(w)
    ensures Carrying(Captured(job, w, offsets))
    ensures var w1 := Captured(job, w, offsets);
            w1 == w.(db := w1.db) && (First(w.db.replies).Ok? ==> AuditOf(w1.db.log).captured == offsets)
  {
    hide Project, AuditOf, PatchedBeforeResumed;
  }

  lemma RecreateCarries(s: Settings, job: Job, w: World, t: Tick)
    requires Carrying(w)
    ensures var w' := RecreateWithOffsets(s, job, w, t).0;
            w' == w || (t.offsets.OffsetsRead? && Carried(Captured(job, w, t.offsets.offsets), w'))
  {
    hide Project, AuditOf, CreateReplacement, Job.ReplacementName, RecreateWithOffsets, FailRecreate, Captured,
      StopConnector, PatchedBeforeResumed, TimeoutCarries;
    RecreateEnds(s, job, w, t);
    if t.offsets.OffsetsRead? {
      var w1 := Captured(job, w, t.offsets.offsets);
      var (kc, ok) := StopConnector(w1.kc, job.name);
      var w2 := w1.(kc := kc);
      CaptureCarries(job, w, t.offsets.offsets);
      IssuePatched(w1.kc, kc, StopOp, job.name, ok);
      FailCarries(job, w1, job.name, NO_DETAILS.(original := Some(job.OriginalName()), offsets := t.offsets.offsets));
      FailCarries(job, w1, job.name, Involved(job, None));
      FailCarries(job, w2, job.name, Involved(job, Some(job.ReplacementName())));
      if t.offsets.offsets.Some? && First(w.db.replies).Ok? {
        CreateCarries(s, job, w2, job.ReplacementName(), t.offsets.offsets.value);
      }
    }
  }

  lemma CompleteRetryCarries(job: Job, w: World, offsets: Offsets)
    requires Carrying(w) && AuditOf(w.db.log).captured == Some(offsets)
    ensures Carried(w, CompleteRetry(job, w, offsets).0)
  {
    hide Project, AuditOf, PatchedBeforeResumed, JustPatched, PatchOffsets, ResumeConnector;
    var (kc1, patched) := PatchOffsets(w.kc, job.name, offsets);
    IssuePatched(w.kc, kc1, PatchOp, job.name, patched);
    if patched {
      var (kc2, resumed) := ResumeConnector(kc1, job.name);
      IssuePatched(kc1, kc2, ResumeOp, job.name, resumed);
    }
  }

  lemma RetryCarries(job: Job, w: World, t: Tick)
    requires Carrying(w)
    requires job.LatestDetails().offsets.Some? ==> AuditOf(w.db.log).captured == job.LatestDetails().offsets
    ensures Carried(w, RetryWithOffsets(job, w, t).0)
  {
    hide Project, AuditOf, CompleteRetry, PatchedBeforeResumed, StopConnector, CreateConnector;
    var (kc1, ok) := StopConnector(w.kc, job.name);
    IssuePatched(w.kc, kc1, StopOp, job.name, ok);
    var (kc2, d) := CreateConnector(w.kc, job.name, true, false);
    IssuePatched(w.kc, kc2, CreateOp(true, false), job.name, d.Returned?);
    if job.LatestDetails().offsets.Some? {
      var offsets := job.LatestDetails().offsets.value;
      CompleteRetryCarries(job, w.(kc := kc1), offsets);
      CompleteRetryCarries(job, w.(kc := kc2), offsets);
    }
  }

  lemma DeleteCarries(s: Settings, job: Job, w: World, name: Name)
    requires PatchedBeforeResumed(w.kc.calls)
    ensures PatchedBeforeResumed(DeleteFailedVersioned(s, job, w, name).kc.calls)
    ensures DeleteFailedVersioned(s, job, w, name).db == w.db
  {
    hide IsVersioned;
    var kc := DeleteConnector(w.kc, job.name);
    IssuePatched(w.kc, kc, DeleteOp, job.name, First(w.kc.replies).Ok?);
  }

  /** Like Carried, and no recreate with offset is recorded. */
  predicate CarriedFresh(w: World, w': World) {
    Carried(w, w') && Project(w'.db.log).withOffset == Project(w.db.log).withOffset
  }

  lemma FailFreshCarries(job: Job, w: World, name: Name)
    requires Carrying(w)
    ensures CarriedFresh(w, FailFresh(job, w, name).0)
  {
    hide Project, AuditOf, PatchedBeforeResumed, HoldsCaptured;
  }

  lemma FinishFreshCarries(s: Settings, job: Job, w: World, name: Name)
    requires Carrying(w)
    ensures CarriedFresh(w, FinishReplacement(s, job, w, name, RecreateWithoutOffset, job.WithoutOffsetCount() + 1).0)
  {
    hide Project, AuditOf, PatchedBeforeResumed, DeleteFailedVersioned, HoldsCaptured, Involved;
    var (w3, _) := Log(w, RecreateWithoutOffset, name, job.WithoutOffsetCount() + 1, Involved(job, Some(name)));
    DeleteCarries(s, job, MoveTo(w3, name).0, name);
  }

  lemma FreshCarries(s: Settings, job: Job, w: World, t: Tick)
    requires Carrying(w)
    ensures CarriedFresh(w, RecreateWithoutOffsets(s, job, w, t).0)
  {
    hide Project, AuditOf, Job.ReplacementName, PatchedBeforeResumed, StopConnector, CreateConnector,
      FinishReplacement, FailFresh, HoldsCaptured, TimeoutCarries;
    var name := job.ReplacementName();
    var (kc1, stopped) := StopConnector(w.kc, job.name);
    IssuePatched(w.kc, kc1, StopOp, job.name, stopped);
    var (kc2, d) := CreateConnector(kc1, name, false, true);
    IssuePatched(kc1, kc2, CreateOp(false, true), name, d.Returned?);
    FailFreshCarries(job, w.(kc := kc1), name);
    FailFreshCarries(job, w.(kc := kc2), name);
    FinishFreshCarries(s, job, w.(kc := kc2), name);
  }

  // ---- Steps --------------------------------------------------------------------------------

  /** Like Carried, where a capture may lie between `w` and `w'`. */
  predicate StepCarried(w: World, w': World) {
    && Carrying(w')
    && (|| Project(w'.db.log).withOffset == Project(w.db.log).withOffset
        || (Project(w'.db.log).withOffset == Project(w.db.log).withOffset + 1 && HoldsCaptured(w')))
  }

  lemma LogCarries(w: World, kind: EventKind, connector: Name, attempt: nat, details: Details)
    requires Carrying(w) && kind !in {RecreateWithOffset, RecreateWithOffsetTimeout, OffsetCaptured}
    ensures var w' := Log(w, kind, connector, attempt, details).0;
            && Carrying(w') && w'.kc == w.kc
            && Project(w'.db.log).withOffset == Project(w.db.log).withOffset
            && AuditOf(w'.db.log).captured == AuditOf(w.db.log).captured
            && (HoldsCaptured(w) ==> HoldsCaptured(w'))
  {
    hide Project, AuditOf, PatchedBeforeResumed;
  }

  lemma LogAndCompleteCarries(w: World, kind: EventKind, connector: Name, status: Status)
    requires Carrying(w) && kind !in {RecreateWithOffset, RecreateWithOffsetTimeout, OffsetCaptured}
    ensures var w' := LogAndComplete(w, kind, connector, NO_DETAILS, status).0;
            && Carrying(w') && w'.kc == w.kc
            && Project(w'.db.log).withOffset == Project(w.db.log).withOffset
            && (HoldsCaptured(w) ==> HoldsCaptured(w'))
  {
    hide Project, AuditOf, PatchedBeforeResumed, Log;
    LogCarries(w, kind, connector, 0, NO_DETAILS);
  }

  lemma RestartCarries(job: Job, w: World, t: Tick, onlyFailed: bool)
    requires Carrying(w)
    ensures StepCarried(w, RestartStep(job, w, t, onlyFailed).0)
  {
    hide Project, AuditOf, PatchedBeforeResumed, RestartConnector;
    var (kc, d) := RestartConnector(w.kc, job.name, onlyFailed);
    IssuePatched(w.kc, kc, if onlyFailed then RestartFailed else RestartAll, job.name, d.Returned?);
  }

  /** The job was read from a log that only grew by observations since. */
  predicate ReadBefore(job: Job, w: World) {
    job.LatestDetails().offsets.Some? && LatestIn(job, {RecreateWithOffsetTimeout})
    ==> AuditOf(w.db.log).captured == job.LatestDetails().offsets
  }

  lemma DispatchCarries(s: Settings, job: Job, w: World, t: Tick, a: Action)
    requires Carrying(w) && ReadBefore(job, w)
    requires a == RetryRecreate ==> LatestIn(job, {RecreateWithOffsetTimeout})
    ensures StepCarried(w, Dispatch(s, job, w, t, a).0)
  {
    hide Project, AuditOf, PatchedBeforeResumed, RestartStep, RecreateWithOffsets, RetryWithOffsets,
      RecreateWithoutOffsets, LogAndComplete, TimeoutCarries, HoldsCaptured;
    LogAndCompleteCarries(w, HealingLevelLimitReached, job.name, Escalated);
    LogAndCompleteCarries(w, HealingEscalated, job.name, Escalated);
    match a
    case RestartTasks => RestartCarries(job, w, t, true);
    case RestartWholeConnector => RestartCarries(job, w, t, false);
    case Recreate =>
      RecreateCarries(s, job, w, t);
      if t.offsets.OffsetsRead? {
        CaptureCounts(job, w, t.offsets.offsets);
      }
    case RetryRecreate =>
      RetryCarries(job, w, t);
      LogAndCompleteCarries(RetryWithOffsets(job, w, t).0, HealingEscalated, job.name, Escalated);
    case RecreateFresh =>
      FreshCarries(s, job, w, t);
      LogAndCompleteCarries(RecreateWithoutOffsets(s, job, w, t).0, HealingEscalated, job.name, Escalated);
    case _ =>
  }

  lemma CaptureCounts(job: Job, w: World, offsets: Option<Offsets>)
    ensures Project(Captured(job, w, offsets).db.log).withOffset == Project(w.db.log).withOffset
  {
    hide Project, AuditOf;
  }

  lemma ExecuteCarries(s: Settings, job: Job, w: World, t: Tick, a: Action)
    requires Carrying(w) && ReadBefore(job, w)
    requires a == RetryRecreate ==> LatestIn(job, {RecreateWithOffsetTimeout})
    ensures StepCarried(w, Execute(s, job, w, t, a).0)
  {
    hide Project, AuditOf, PatchedBeforeResumed, Dispatch, LogAndComplete;
    DispatchCarries(s, job, w, t, a);
    var w1 := Dispatch(s, job, w, t, a).0;
    LogAndCompleteCarries(w1.(mem := w1.mem.(uncertain := true)), HealingEscalated, job.name, Escalated);
  }

  lemma RetryFollowsTimeout(p: Policy, job: Job, failedTasks: bool)
    ensures Decide(p, job, failedTasks) == RetryRecreate ==> LatestIn(job, {RecreateWithOffsetTimeout})
  {
  }

  lemma ObservationCarries(s: Settings, job: Job, w: World, t: Tick)
    requires Carrying(w)
    ensures var w1, w2 := ObservationRow(s, job, w, t), Observed(s, job, w, t).0;
            && Carrying(w1) && Project(w1.db.log).withOffset == Project(w.db.log).withOffset
            && Carrying(w2) && Project(w2.db.log).withOffset == Project(w.db.log).withOffset
            && AuditOf(w2.db.log).captured == AuditOf(w.db.log).captured
  {
    hide Project, AuditOf, PatchedBeforeResumed, Clamp, Log, TimeoutCarries, NextCount;
    assert Carrying(Forget(w));
    LogCarries(Forget(w), HealthFailureObserved, job.name, NextCount(s, job),
      NO_DETAILS.(failedTasks := FailedTasks(t)));
    LogCarries(ObservationRow(s, job, w, t), HealthFailedConfirmed, job.name, 0, NO_DETAILS);
  }

  lemma UnhealthyCarries(s: Settings, job: Job, w: World, t: Tick)
    requires Carrying(w) && job.sum == Project(w.db.log)
    ensures StepCarried(w, HandleUnhealthy(s, job, w, t).0)
  {
    hide Project, AuditOf, PatchedBeforeResumed, Execute, Decide, HoldsCaptured, HandleUnhealthy, ObservationRow,
      Observed, NextCount;
    UnhealthyEnds(s, job, w, t);
    ObservationCarries(s, job, w, t);
    var (seen, confirming) := Observed(s, job, w, t);
    var job' := ObservedJob(s, job, t, confirming);
    RetryFollowsTimeout(s.policy, job', FailedTasks(t));
    ExecuteCarries(s, job', seen, t, Decide(s.policy, job', FailedTasks(t)));
  }

  lemma {:induction false} DeleteAllPatched(kc: Kc, names: seq<Name>)
    requires PatchedBeforeResumed(kc.calls)
    ensures PatchedBeforeResumed(DeleteAll(kc, names).calls)
    decreases |names|
  {
    hide PatchedBeforeResumed;
    if names != [] {
      IssuePatched(kc, DeleteConnector(kc, names[0]), DeleteOp, names[0], First(kc.replies).Ok?);
      DeleteAllPatched(DeleteConnector(kc, names[0]), names[1..]);
    }
  }

  lemma HealthyCarries(s: Settings, job: Job, w: World)
    requires Carrying(w)
    ensures StepCarried(w, HandleHealthy(s, job, w).0)
  {
    hide Project, AuditOf, PatchedBeforeResumed, DeleteAll, Superseded, NoAutomatedStep, LatestIn, LogAndComplete;
    DeleteAllPatched(w.kc, Superseded(s, job));
    LogAndCompleteCarries(w.(kc := DeleteAll(w.kc, Superseded(s, job))), HealingRecovered, job.name, Completed);
  }

  lemma ProcessCarries(s: Settings, job: Job, w: World, t: Tick)
    requires Carrying(w) && job.sum == Project(w.db.log)
    ensures StepCarried(w, ProcessJob(s, job, w, t).0)
  {
    hide Project, AuditOf, PatchedBeforeResumed, Execute, HandleUnhealthy, HandleHealthy, WaitUntil, ManagedStopped,
      HoldsCaptured, LogAndComplete;
    var w1 := See(w, t.health);
    LogAndCompleteCarries(w, HealingEscalated, job.name, Escalated);
    var a := if job.sum.timeouts < MAX_TIMEOUTS then RetryRecreate else Escalate;
    if LatestIn(job, {RecreateWithOffsetTimeout}) {
      ExecuteCarries(s, job, w1, t, a);
    }
    UnhealthyCarries(s, job, w1, t);
    HealthyCarries(s, job, w1);
  }

  /** Offset carry-over, for one step: if it records a recreate with offset, the
      connector it names holds the captured offsets. */
  lemma StepCarries(s: Settings, w: World, t: Tick)
    requires Carrying(w)
    ensures StepCarried(w, Step(s, w, t))
  {
    hide Project, AuditOf, PatchedBeforeResumed, ProcessJob, HoldsCaptured, LogAndComplete;
    if w.db.Open() {
      var w0 := Begin(w, t);
      var job := ReadJob(w0.db);
      var (w1, d1) := Complete(w0, Processing);
      ProcessCarries(s, job, w1, t);
      var (w2, d2) := if d1.Raised? then (w1, d1) else ProcessJob(s, job, w1, t);
      LogCarries(w2, StateMachineError, job.name, 0, NO_DETAILS);
      CompleteHolds(w2, Waiting);
    }
  }

  lemma CompleteHolds(w: World, status: Status)
    ensures HoldsCaptured(w) ==> HoldsCaptured(Complete(w, status).0)
  {
    hide Project, AuditOf;
  }

  lemma {:induction false} RunCarrying(s: Settings, w: World, inputs: seq<Input>)
    requires NewItem(w)
    ensures Carrying(Run(s, w, inputs))
  {
    hide Step, Project, AuditOf, PatchedBeforeResumed;
    if inputs == [] {
      NewItemCarries(w);
    } else {
      var front := Run(s, w, inputs[..|inputs| - 1]);
      RunCarrying(s, w, inputs[..|inputs| - 1]);
      match inputs[|inputs| - 1]
      case Poll(t) => StepCarries(s, front, t);
      case ProcessRestart =>
    }
  }

  lemma NewItemCarries(w: World)
    requires NewItem(w)
    ensures Carrying(w)
  {
  }

  /** On every run, with process restarts and any failures: no connector is resumed
      before a successful patch, and a poll that records a recreate with offset
      leaves the recorded connector with exactly the offsets captured last. */
  lemma OffsetsCarryOver(s: Settings, w: World, inputs: seq<Input>, i: Input)
    requires NewItem(w)
    ensures var before, after := Run(s, w, inputs), Run(s, w, inputs + [i]);
            && PatchedBeforeResumed(after.kc.calls)
            && (Count(after.db.log, {RecreateWithOffset}) > Count(before.db.log, {RecreateWithOffset}) ==>
                  HoldsCaptured(after))
  {
    hide Step, Run, Project, AuditOf, PatchedBeforeResumed, HoldsCaptured;
    RunAppend(s, w, inputs, i);
    RunCarrying(s, w, inputs);
    var before, after := Run(s, w, inputs), Run(s, w, inputs + [i]);
    if i.Poll? {
      StepCarries(s, before, i.tick);
    }
    WithOffsetRows(before.db.log);
    WithOffsetRows(after.db.log);
  }

  lemma {:induction false} WithOffsetRows(log: seq<Event>)
    ensures Project(log).withOffset == Count(log, {RecreateWithOffset})
  {
    if log != [] {
      var front, e := log[..|log| - 1], log[|log| - 1];
      assert front + [e] == log;
      WithOffsetRows(front);
      CountAppend(front, e, {RecreateWithOffset});
    }
  }

  /** The connector that HoldsCaptured speaks of is the one named by the last row
      of a recreate with offset, and its offsets those of the last capture row. */
  lemma {:induction false} RestoredRows(log: seq<Event>)
    ensures AuditOf(log).restored == LastConnector(log, RecreateWithOffset)
    ensures AuditOf(log).captured == LastOffsets(log)
  {
    if log != [] {
      RestoredRows(log[..|log| - 1]);
    }
  }

  function LastConnector(log: seq<Event>, kind: EventKind): Option<Name> {
    if log == [] then None
    else if log[|log| - 1].kind == kind then Some(log[|log| - 1].connector)
    else LastConnector(log[..|log| - 1], kind)
  }

  function LastOffsets(log: seq<Event>): Option<Offsets> {
    if log == [] then None
    else if log[|log| - 1].kind == OffsetCaptured then log[|log| - 1].details.offsets
    else LastOffsets(log[..|log| - 1])
  }
}
