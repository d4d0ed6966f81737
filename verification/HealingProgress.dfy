/** Runs whose database writes succeed: the escalation ladder is climbed in order
    and in a bounded number of unhealthy observations, whatever Kafka Connect
    answers. */
module HealingProgress {
  import opened Basics
  import opened ConnectorNames
  import opened HealingDomain
  import opened HealingWorld
  import opened HealingSteps
  import opened HealingBudgets

  predicate Durable(w: World) {
    w.db.replies == []
  }

  predicate LatestIs(s: Summary, kinds: set<EventKind>) {
    s.latest.Some? && s.latest.value.kind in kinds
  }

  // ---- What each action leaves in the log ---------------------------------------------

  /** A write that succeeds: exactly one row more, and nothing else. */
  lemma DurableLog(w: World, kind: EventKind, connector: Name, attempt: nat, details: Details)
    requires Durable(w)
    requires kind == HealthFailedConfirmed ==> Project(w.db.log).confirmed == 0
    ensures var (w', d) := Log(w, kind, connector, attempt, details);
            var e := Event(kind, connector, w.db.now, attempt, details);
            && d == Returned(true)
            && w' == w.(db := w.db.(log := w.db.log + [e], now := w.db.now + 1))
            && Project(w'.db.log) == Add(Project(w.db.log), e)
            && AuditOf(w'.db.log) == AddAudit(AuditOf(w.db.log), e)
  {
    hide Project, AuditOf, Add, AddAudit;
  }

  /** A saga that began ends with a retryable timeout, a failure or a success. */
  predicate RecreateTail(s: Summary, s': Summary) {
    && s'.observed == s.observed
    && s'.withOffset + s'.withOffsetFailed + s'.timeouts == s.withOffset + s.withOffsetFailed + s.timeouts + 1
    && s'.timeouts <= s.timeouts + 1
    && LatestIs(s', {RecreateWithOffset, RecreateWithOffsetFailed, RecreateWithOffsetTimeout})
    && (LatestIs(s', {RecreateWithOffsetTimeout}) <==> s'.timeouts == s.timeouts + 1)
  }

  lemma AbandonTail(job: Job, w: World, name: Name, kind: EventKind)
    requires Durable(w) && kind in {ConnectorResumeFailed, OffsetPatchFailed}
    ensures var (w', d) := AbandonReplacement(job, w, name, kind);
            Durable(w') && d == Returned(false) && RecreateTail(Project(w.db.log), Project(w'.db.log))
  {
    hide Project, AuditOf, AddAudit;
  }

  lemma ResumeTail(s: Settings, job: Job, w: World, name: Name)
    requires Durable(w)
    ensures var (w', d) := ResumeReplacement(s, job, w, name);
            Durable(w') && d.Returned? && RecreateTail(Project(w.db.log), Project(w'.db.log))
  {
    hide Project, AuditOf, AddAudit, ResumeConnector, AbandonReplacement, DeleteConnector, IsVersioned;
    AbandonTail(job, w.(kc := ResumeConnector(w.kc, name).0), name, ConnectorResumeFailed);
  }

  lemma PatchTail(s: Settings, job: Job, w: World, name: Name, offsets: Offsets)
    requires Durable(w)
    ensures var (w', d) := PatchReplacement(s, job, w, name, offsets);
            Durable(w') && d.Returned? && RecreateTail(Project(w.db.log), Project(w'.db.log))
  {
    hide Project, AuditOf, AddAudit, PatchOffsets, AbandonReplacement, ResumeReplacement;
    var w1 := w.(kc := PatchOffsets(w.kc, name, offsets).0);
    AbandonTail(job, w1, name, OffsetPatchFailed);
    ResumeTail(s, job, w1, name);
  }

  lemma CreateTail(s: Settings, job: Job, w: World, name: Name, offsets: Offsets)
    requires Durable(w)
    ensures var (w', d) := CreateReplacement(s, job, w, name, offsets);
            Durable(w') && d.Returned? && RecreateTail(Project(w.db.log), Project(w'.db.log))
  {
    hide Project, AuditOf, AddAudit, CreateConnector, PatchReplacement;
    PatchTail(s, job, w.(kc := CreateConnector(w.kc, name, false, false).0), name, offsets);
  }

  lemma RecreateOutcome(s: Settings, job: Job, w: World, t: Tick)
    requires Durable(w)
    ensures var (w', d) := RecreateWithOffsets(s, job, w, t);
            && Durable(w')
            && (d.Raised? ==> w' == w)
            && (d.Returned? ==> RecreateTail(Project(w.db.log), Project(w'.db.log)))
  {
    hide Project, AuditOf, AddAudit, StopConnector, CreateReplacement, Job.ReplacementName;
    if t.offsets.OffsetsRead? && t.config.Config? {
      var offsets := t.offsets.offsets;
      var w1 := Captured(job, w, offsets);
      var (kc, ok) := StopConnector(w1.kc, job.name);
      if offsets.Some? {
        CreateTail(s, job, w1.(kc := kc), job.ReplacementName(), offsets.value);
      }
    }
  }

  /** A retry succeeds, or ends with some event of the with-offset family. */
  predicate RetryTail(s: Summary, s': Summary, success: bool) {
    && s'.observed == s.observed
    && (success ==> LatestIs(s', {RecreateWithOffset}) && s'.timeouts == s.timeouts
                    && s'.withOffset == s.withOffset + 1 && s'.withOffsetFailed == s.withOffsetFailed)
  }

  lemma CompleteRetryOutcome(job: Job, w: World, offsets: Offsets)
    requires Durable(w)
    ensures var (w', d) := CompleteRetry(job, w, offsets);
            Durable(w') && d.Returned? && RetryTail(Project(w.db.log), Project(w'.db.log), d.value)
  {
    hide Project, AuditOf, AddAudit, PatchOffsets, ResumeConnector;
  }

  lemma RetryOutcome(job: Job, w: World, t: Tick)
    requires Durable(w)
    ensures var (w', d) := RetryWithOffsets(job, w, t);
            && Durable(w')
            && (d.Raised? ==> w'.db == w.db)
            && (d.Returned? ==> RetryTail(Project(w.db.log), Project(w'.db.log), d.value))
  {
    hide Project, AuditOf, AddAudit, StopConnector, CreateConnector, CompleteRetry;
    if job.LatestDetails().offsets.Some? {
      var offsets := job.LatestDetails().offsets.value;
      CompleteRetryOutcome(job, w.(kc := StopConnector(w.kc, job.name).0), offsets);
      CompleteRetryOutcome(job, w.(kc := CreateConnector(w.kc, job.name, true, false).0), offsets);
    }
  }

  lemma FreshOutcome(s: Settings, job: Job, w: World, t: Tick)
    requires Durable(w)
    ensures var (w', d) := RecreateWithoutOffsets(s, job, w, t);
            var s0, s' := Project(w.db.log), Project(w'.db.log);
            && Durable(w') && w'.mem == w.mem && w'.db.status == w.db.status
            && SameAudit(AuditOf(w.db.log), AuditOf(w'.db.log))
            && (d.Raised? ==> w'.db == w.db)
            && (d == Returned(true) ==> LatestIs(s', {RecreateWithoutOffset})
                                        && s' == s0.(withoutOffset := s0.withoutOffset + 1, latest := s'.latest))
            && (d == Returned(false)
              ==> s' == s0.(withoutOffsetFailed := s0.withoutOffsetFailed + 1, latest := s'.latest))
  {
    hide Project, AuditOf, StopConnector, CreateConnector, DeleteConnector, IsVersioned, Job.ReplacementName;
  }

  lemma RestartOutcome(job: Job, w: World, t: Tick, onlyFailed: bool)
    requires Durable(w)
    ensures var (w', d) := RestartStep(job, w, t, onlyFailed);
            var s0, s' := Project(w.db.log), Project(w'.db.log);
            var a0, a' := AuditOf(w.db.log), AuditOf(w'.db.log);
            && Durable(w') && w'.mem == w.mem && w'.db.status == w.db.status
            && (d.Raised? ==> w'.db == w.db)
            && (d.Returned? && onlyFailed ==>
                  && s' == s0.(taskRestarts := s0.taskRestarts + 1, latest := s'.latest) && LatestIs(s', {TaskRestart})
                  && a' == a0.(taskAttempts := a0.taskAttempts + [job.sum.taskRestarts + 1],
                               lateRestarts := a'.lateRestarts)
                  && (a0.captures == 0 ==> a'.lateRestarts == a0.lateRestarts))
            && (d.Returned? && !onlyFailed ==>
                  && s' == s0.(connectorRestarts := s0.connectorRestarts + 1, latest := s'.latest)
                  && LatestIs(s', {ConnectorRestart})
                  && a' == a0.(connectorAttempts := a0.connectorAttempts + [job.sum.connectorRestarts + 1],
                               lateRestarts := a'.lateRestarts)
                  && (a0.captures == 0 ==> a'.lateRestarts == a0.lateRestarts))
  {
    hide Project, AuditOf, RestartConnector;
  }

  // ---- The rungs of the ladder -----------------------------------------------------------

  datatype Rung = Climbing | Retrying | Restored | Refreshed | Ended

  /** The rung an item stands on, by its latest decisive event. */
  function RungOf(kind: Option<EventKind>): Rung {
    match kind
    case None => Climbing
    case Some(k) =>
      if k in {HealthFailureObserved, HealthFailedConfirmed, TaskRestart, ConnectorRestart} then Climbing
      else if k == RecreateWithOffsetTimeout then Retrying
      else if k in RECREATE_FAILURES + {RecreateWithOffset} then Restored
      else if k == RecreateWithoutOffset then Refreshed
      else Ended
  }

  function LatestRung(s: Summary): Rung {
    RungOf(if s.latest.None? then None else Some(s.latest.value.kind))
  }

  /** What the counters say on each rung. */
  predicate Consistent(s: Summary, r: Rung) {
    match r
    case Climbing => s.withOffset + s.withOffsetFailed + s.timeouts + s.withoutOffset + s.withoutOffsetFailed == 0
    case Retrying => s.timeouts == 1 && s.withOffset + s.withOffsetFailed + s.withoutOffset + s.withoutOffsetFailed == 0
    case Restored => s.withOffset + s.withOffsetFailed >= 1 && s.withoutOffset + s.withoutOffsetFailed == 0
    case Refreshed => s.withoutOffset == 1 && s.withoutOffsetFailed == 0
    case Ended => false
  }

  /** How many unhealthy observations the automation can still answer. */
  function Remaining(p: Policy, s: Summary, r: Rung): int {
    match r
    case Climbing =>
      (if s.confirmed > 0 || s.observed >= p.confirmChecks then 0 else p.confirmChecks - 1 - s.observed)
      + (p.taskRestarts - s.taskRestarts) + (p.connectorRestarts - s.connectorRestarts) + 4
    case Retrying => 3
    case Restored => 2
    case Refreshed => 1
    case Ended => 0
  }

  /** The order of the log so far: recreate-with-offset begins at most once, after
      the connector restarts are spent; no restart follows it, and no result of any
      recreate comes before it.  All
      of it comes after the confirmation.  Attempts are numbered from one without
      gaps; observations are numbered up to the clamp. */
  predicate InOrder(p: Policy, s: Summary, a: Audit) {
    && a.lateRestarts == 0 && a.earlyResults == 0
    && (s.taskRestarts + s.connectorRestarts + a.captures > 0 ==> s.confirmed > 0)
    && a.captures <= 1
    && (a.captures == 1 ==> a.restartsAtCapture >= p.connectorRestarts)
    && |a.taskAttempts| == s.taskRestarts && (forall i | 0 <= i < |a.taskAttempts| :: a.taskAttempts[i] == i + 1)
    && |a.connectorAttempts| == s.connectorRestarts
    && (forall i | 0 <= i < |a.connectorAttempts| :: a.connectorAttempts[i] == i + 1)
    && |a.observations| == s.observed
    && (forall i | 0 <= i < |a.observations| :: a.observations[i] == Clamp(i + 1, p.MaxFailedCount()))
  }

  predicate CapturesMatch(a: Audit, r: Rung) {
    r == Climbing <==> a.captures == 0
  }

  /** An action was taken from rung `r`, where `s` already counts the observation. */
  predicate CanDispatch(p: Policy, job: Job, w: World, a: Action) {
    var s, au, r := Project(w.db.log), AuditOf(w.db.log), RungOf(job.Kind());
    && Durable(w) && w.db.Open() && !w.mem.uncertain
    && job.sum == s.(observed := job.sum.observed, confirmed := job.sum.confirmed, latest := job.sum.latest)
    && Consistent(s, r) && CapturesMatch(au, r) && InOrder(p, s, au) && au.recoveries == 0
    && s.taskRestarts <= p.taskRestarts && s.connectorRestarts <= p.connectorRestarts
    && match r
       case Climbing =>
         && s.confirmed > 0
         && a in {RestartTasks, RestartWholeConnector, Recreate}
         && (a == RestartTasks ==> s.taskRestarts < p.taskRestarts)
         && (a == RestartWholeConnector ==> s.connectorRestarts < p.connectorRestarts)
         && (a == Recreate ==> s.connectorRestarts == p.connectorRestarts)
       case Retrying => a == RetryRecreate
       case Restored => a == RecreateFresh
       case Refreshed => a == Escalate
       case Ended => false
  }

  /** The item closed with a terminal event, or stands on a rung with less
      remaining than `bound`. */
  predicate Progressed(p: Policy, w: World, bound: int) {
    var s, a, r := Project(w.db.log), AuditOf(w.db.log), LatestRung(Project(w.db.log));
    && InOrder(p, s, a) && a.recoveries == 0 && !w.mem.uncertain
    && s.taskRestarts <= p.taskRestarts && s.connectorRestarts <= p.connectorRestarts
    && (w.db.Open() ==> Consistent(s, r) && CapturesMatch(a, r) && Remaining(p, s, r) < bound)
    && (!w.db.Open() ==> w.db.status == Escalated && LatestIs(s, TERMINAL))
  }

  lemma EscalateProgress(p: Policy, w: World, kind: EventKind, connector: Name, bound: int)
    requires Durable(w) && kind in TERMINAL && !w.mem.uncertain
    requires InOrder(p, Project(w.db.log), AuditOf(w.db.log)) && AuditOf(w.db.log).recoveries == 0
    requires Project(w.db.log).taskRestarts <= p.taskRestarts
    requires Project(w.db.log).connectorRestarts <= p.connectorRestarts
    ensures var (w', d) := LogAndComplete(w, kind, connector, NO_DETAILS, Escalated);
            Durable(w') && d == Returned(true) && Progressed(p, w', bound)
            && Project(w'.db.log).observed == Project(w.db.log).observed
  {
    hide Project, AuditOf;
    DurableLog(w, kind, connector, 0, NO_DETAILS);
  }

  lemma RestartProgress(p: Policy, job: Job, w: World, t: Tick, onlyFailed: bool)
    requires CanDispatch(p, job, w, if onlyFailed then RestartTasks else RestartWholeConnector)
    ensures var (w', d) := RestartStep(job, w, t, onlyFailed);
            && Durable(w')
            && (d.Raised? ==> w'.db == w.db && w'.mem == w.mem)
            && (d.Returned? ==> Progressed(p, w', Remaining(p, Project(w.db.log), RungOf(job.Kind()))))
            && Project(w'.db.log).observed == Project(w.db.log).observed
  {
    hide Project, AuditOf, RestartStep;
    RestartOutcome(job, w, t, onlyFailed);
    var (w', d) := RestartStep(job, w, t, onlyFailed);
    if d.Returned? {
      assert Project(w'.db.log).observed == Project(w.db.log).observed;
    }
  }

  lemma RecreateProgress(p: Policy, s: Settings, job: Job, w: World, t: Tick)
    requires CanDispatch(p, job, w, Recreate)
    ensures var (w', d) := RecreateWithOffsets(s, job, w, t);
            && Durable(w')
            && (d.Raised? ==> w'.db == w.db && w'.mem == w.mem)
            && (d.Returned? ==> Progressed(p, w', Remaining(p, Project(w.db.log), RungOf(job.Kind()))))
            && Project(w'.db.log).observed == Project(w.db.log).observed
  {
    hide Project, AuditOf, RecreateWithOffsets, TallyOf;
    RecreateOutcome(s, job, w, t);
    RecreateFrugal(s, job, w, t);
    if t.offsets.OffsetsRead? {
      DurableLog(w, OffsetCaptured, job.name, job.WithOffsetCount() + 1, NO_DETAILS.(offsets := t.offsets.offsets));
    }
  }

  lemma RetryProgress(p: Policy, s: Settings, job: Job, w: World, t: Tick)
    requires CanDispatch(p, job, w, RetryRecreate)
    ensures var (w', d) := OrEscalate(job, RetryWithOffsets(job, w, t));
            && Durable(w')
            && (d.Raised? ==> w'.db == w.db && w'.mem == w.mem)
            && (d.Returned? ==> Progressed(p, w', Remaining(p, Project(w.db.log), RungOf(job.Kind()))))
            && Project(w'.db.log).observed == Project(w.db.log).observed
  {
    hide Project, AuditOf, RetryWithOffsets, TallyOf, LogAndComplete;
    RetryOutcome(job, w, t);
    RetryFrugal(job, w, t);
    var w1 := RetryWithOffsets(job, w, t).0;
    EscalateProgress(p, w1, HealingEscalated, job.name, Remaining(p, Project(w.db.log), RungOf(job.Kind())));
  }

  lemma FreshProgress(p: Policy, s: Settings, job: Job, w: World, t: Tick)
    requires CanDispatch(p, job, w, RecreateFresh)
    ensures var (w', d) := OrEscalate(job, RecreateWithoutOffsets(s, job, w, t));
            && Durable(w')
            && (d.Raised? ==> w'.db == w.db && w'.mem == w.mem)
            && (d.Returned? ==> Progressed(p, w', Remaining(p, Project(w.db.log), RungOf(job.Kind()))))
            && Project(w'.db.log).observed == Project(w.db.log).observed
  {
    hide Project, AuditOf, RecreateWithoutOffsets, LogAndComplete;
    FreshOutcome(s, job, w, t);
    var w1 := RecreateWithoutOffsets(s, job, w, t).0;
    EscalateProgress(p, w1, HealingEscalated, job.name, Remaining(p, Project(w.db.log), RungOf(job.Kind())));
  }

  lemma DispatchProgress(p: Policy, s: Settings, job: Job, w: World, t: Tick, a: Action)
    requires CanDispatch(p, job, w, a)
    ensures var (w', d) := Dispatch(s, job, w, t, a);
            && Durable(w')
            && (d.Raised? ==> w'.db == w.db && w'.mem == w.mem)
            && (d.Returned? ==> Progressed(p, w', Remaining(p, Project(w.db.log), RungOf(job.Kind()))))
            && Project(w'.db.log).observed == Project(w.db.log).observed
  {
    hide Project, AuditOf, RestartStep, RecreateWithOffsets, RetryWithOffsets, RecreateWithoutOffsets, LogAndComplete,
      OrEscalate, Progressed, InOrder, Remaining;
    var bound := Remaining(p, Project(w.db.log), RungOf(job.Kind()));
    EscalateProgress(p, w, HealingLevelLimitReached, job.name, bound);
    EscalateProgress(p, w, HealingEscalated, job.name, bound);
    match a
    case RestartTasks => RestartProgress(p, job, w, t, true);
    case RestartWholeConnector => RestartProgress(p, job, w, t, false);
    case Recreate => RecreateProgress(p, s, job, w, t);
    case RetryRecreate => RetryProgress(p, s, job, w, t);
    case RecreateFresh => FreshProgress(p, s, job, w, t);
    case _ =>
  }

  lemma ExecuteProgress(p: Policy, s: Settings, job: Job, w: World, t: Tick, a: Action)
    requires CanDispatch(p, job, w, a)
    ensures var (w', d) := Execute(s, job, w, t, a);
            && Durable(w') && d.Returned?
            && Progressed(p, w', Remaining(p, Project(w.db.log), RungOf(job.Kind())))
            && Project(w'.db.log).observed == Project(w.db.log).observed
  {
    hide Project, AuditOf, Dispatch, LogAndComplete, InOrder, Remaining;
    DispatchProgress(p, s, job, w, t, a);
    var (w1, d) := Dispatch(s, job, w, t, a);
    if d.Raised? {
      EscalateProgress(p, w1, HealingEscalated, job.name, Remaining(p, Project(w.db.log), RungOf(job.Kind())));
      UncertainLog(w1, job.name);
    }
  }

  /** The mark of an unknown outcome does not change what is written. */
  lemma UncertainLog(w: World, connector: Name)
    ensures var marked := w.(mem := w.mem.(uncertain := true));
            LogAndComplete(marked, HealingEscalated, connector, NO_DETAILS, Escalated)
            == var (w', d) := LogAndComplete(w, HealingEscalated, connector, NO_DETAILS, Escalated);
               (w'.(mem := w'.mem.(uncertain := true)), d)
  {
  }

  // ---- One observation -------------------------------------------------------------------

  /** The invariant of reliable runs: an open item stands on a rung and can still
      answer `budget` observations, counting those already made. */
  predicate OnLadder(p: Policy, w: World, budget: int) {
    var s, a := Project(w.db.log), AuditOf(w.db.log);
    && !w.mem.uncertain && InOrder(p, s, a)
    && s.taskRestarts <= p.taskRestarts && s.connectorRestarts <= p.connectorRestarts
    && (w.db.Open() ==> Stands(p, s, a, LatestRung(s), budget))
    && (!w.db.Open() ==> ClosedWell(s, a, w.db.status, budget))
  }

  predicate Stands(p: Policy, s: Summary, a: Audit, r: Rung, budget: int) {
    Consistent(s, r) && CapturesMatch(a, r) && a.recoveries == 0 && s.observed + Remaining(p, s, r) <= budget
  }

  /** An escalated item ends with a terminal event and was never recovered; an item
      closed as recovered after a restart ends with the recovery. */
  predicate ClosedWell(s: Summary, a: Audit, status: Status, budget: int) {
    && s.observed <= budget
    && (status == Escalated ==> LatestIs(s, TERMINAL) && a.recoveries == 0)
    && (status == Completed ==>
          && s.observed < budget
          && (s.taskRestarts + s.connectorRestarts > 0 ==> LatestIs(s, {HealingRecovered})))
  }

  /** On each rung the policy takes the step that the ladder prescribes. */
  lemma DecideOnRung(p: Policy, job: Job, failedTasks: bool)
    requires Consistent(job.sum, RungOf(job.Kind())) && job.failedTask == failedTasks
    requires job.sum.connectorRestarts <= p.connectorRestarts
    ensures var a, r := Decide(p, job, failedTasks), RungOf(job.Kind());
            && (r == Retrying ==> a == RetryRecreate)
            && (r == Restored ==> a == RecreateFresh)
            && (r == Refreshed ==> a == Escalate)
            && (r == Climbing ==>
                  && a in {Debounce, RestartTasks, RestartWholeConnector, Recreate}
                  && (a == Debounce <==> !job.confirmed && job.failedCount < p.confirmChecks)
                  && (a == RestartTasks ==> job.sum.taskRestarts < p.taskRestarts)
                  && (a == RestartWholeConnector ==> job.sum.connectorRestarts < p.connectorRestarts)
                  && (job.confirmed && a == Recreate ==> job.sum.connectorRestarts == p.connectorRestarts))
  {
  }

  /** A numbered list stays numbered when its next number is appended. */
  lemma NextObservation(p: Policy, s: Summary, a: Audit, e: Event)
    requires InOrder(p, s, a) && e.kind == HealthFailureObserved
    requires e.attempt == Clamp(s.observed + 1, p.MaxFailedCount())
    ensures InOrder(p, Add(s, e), AddAudit(a, e))
  {
  }

  lemma ObservationRows(s: Settings, job: Job, w: World, t: Tick)
    requires Durable(w) && InOrder(s.policy, Project(w.db.log), AuditOf(w.db.log)) && job == ReadJob(w.db)
    ensures var (w', confirming) := Observed(s, job, w, t);
            var s0, s', a0, a' := Project(w.db.log), Project(w'.db.log), AuditOf(w.db.log), AuditOf(w'.db.log);
            && Durable(w') && w'.db.status == w.db.status && w'.mem == Forget(w).mem
            && InOrder(s.policy, s', a')
            && a'.captures == a0.captures && a'.recoveries == a0.recoveries
            && s' == s0.(observed := s0.observed + 1, confirmed := s'.confirmed, latest := s'.latest)
            && s'.confirmed == s0.confirmed + (if confirming then 1 else 0)
            && LatestRung(s') == Climbing
  {
    hide Project, AuditOf, InOrder;
    var failedTasks := t.health.Unhealthy? && t.health.failedTasks;
    var failedCount := Clamp(job.failedCount + 1, s.policy.MaxFailedCount());
    var details := NO_DETAILS.(failedTasks := failedTasks);
    DurableLog(Forget(w), HealthFailureObserved, job.name, failedCount, details);
    var w1 := Log(Forget(w), HealthFailureObserved, job.name, failedCount, details).0;
    NextObservation(s.policy, Project(w.db.log), AuditOf(w.db.log),
                    Event(HealthFailureObserved, job.name, w.db.now, failedCount, details));
    if Observed(s, job, w, t).1 {
      DurableLog(w1, HealthFailedConfirmed, job.name, 0, NO_DETAILS);
      ConfirmationInOrder(s.policy, Project(w1.db.log), AuditOf(w1.db.log),
                          Event(HealthFailedConfirmed, job.name, w1.db.now, 0, NO_DETAILS));
    }
  }

  lemma UnhealthyRuns(s: Settings, job: Job, w: World, t: Tick)
    requires Durable(w) && job == ReadJob(w.db)
    requires Consistent(job.sum, LatestRung(job.sum))
    ensures var (w', confirming) := Observed(s, job, w, t);
            var job' := ObservedJob(s, job, t, confirming);
            var a := Decide(s.policy, job', job'.failedTask);
            HandleUnhealthy(s, job, w, t)
            == if a.Debounce? then (w', Returned(true)) else Execute(s, job', w', t, a)
  {
    hide Project, AuditOf, Execute, Decide, InOrder;
    var failedTasks := t.health.Unhealthy? && t.health.failedTasks;
    NotStopped(s.policy, job, failedTasks || job.failedTask);
  }

  /** An unhealthy observation is logged once and costs one unit of what remains. */
  lemma UnhealthyProgress(s: Settings, job: Job, w: World, t: Tick, budget: int)
    requires Durable(w) && w.db.Open() && OnLadder(s.policy, w, budget)
    requires job == ReadJob(w.db)
    ensures var (w', d) := HandleUnhealthy(s, job, w, t);
            && Durable(w') && d.Returned?
            && Progressed(s.policy, w', Remaining(s.policy, job.sum, LatestRung(job.sum)))
            && Project(w'.db.log).observed == job.sum.observed + 1
  {
    hide Project, AuditOf, Execute, Decide, InOrder, HandleUnhealthy, Observed;
    var p := s.policy;
    ObservationRows(s, job, w, t);
    UnhealthyRuns(s, job, w, t);
    var (w', confirming) := Observed(s, job, w, t);
    var job' := ObservedJob(s, job, t, confirming);
    var a := Decide(p, job', job'.failedTask);
    assert job'.Kind() == job.Kind();
    DecideOnRung(p, job', job'.failedTask);
    ObservedSpends(p, job.sum, Project(w'.db.log));
    if !a.Debounce? {
      ConfirmedToAct(s, job, t, w);
      assert CanDispatch(p, job', w', a);
      ExecuteProgress(p, s, job', w', t, a);
    }
  }

  /** The ladder is climbed after confirmation only. */
  lemma ConfirmedToAct(s: Settings, job: Job, t: Tick, w: World)
    requires job == ReadJob(w.db)
    ensures var confirming := Observed(s, job, w, t).1;
            var job' := ObservedJob(s, job, t, confirming);
            job'.confirmed || (job'.failedCount < s.policy.confirmChecks && !confirming)
  {
    hide Project, AuditOf;
  }

  lemma ConfirmationInOrder(p: Policy, s: Summary, a: Audit, e: Event)
    requires InOrder(p, s, a) && e.kind == HealthFailedConfirmed
    ensures InOrder(p, Add(s, e), AddAudit(a, e))
  {
  }

  lemma NotStopped(p: Policy, job: Job, failedTasks: bool)
    requires Consistent(job.sum, LatestRung(job.sum))
    ensures !Decide(p, job, failedTasks).Stop?
  {
  }

  /** Counting the observation never raises what remains. */
  lemma ObservedSpends(p: Policy, s: Summary, s': Summary)
    requires s'.observed == s.observed + 1 && s'.confirmed >= s.confirmed
    requires s'.taskRestarts == s.taskRestarts && s'.connectorRestarts == s.connectorRestarts
    ensures forall r :: Remaining(p, s', r) <= Remaining(p, s, r)
    ensures s'.confirmed == 0 && s'.observed < p.confirmChecks
      ==> Remaining(p, s', Climbing) < Remaining(p, s, Climbing)
  {
  }

  // ---- Steps and runs --------------------------------------------------------------------

  lemma ProgressedOnLadder(p: Policy, w: World, w': World, budget: int)
    requires OnLadder(p, w, budget) && w.db.Open()
    requires var s := Project(w.db.log); Progressed(p, w', Remaining(p, s, LatestRung(s)))
    requires Project(w'.db.log).observed <= Project(w.db.log).observed + 1
    ensures OnLadder(p, w', budget)
  {
    hide Project, AuditOf, InOrder;
    RemainingPositive(p, Project(w.db.log), LatestRung(Project(w.db.log)));
  }

  lemma RemainingPositive(p: Policy, s: Summary, r: Rung)
    requires Consistent(s, r) && s.taskRestarts <= p.taskRestarts && s.connectorRestarts <= p.connectorRestarts
    ensures Remaining(p, s, r) >= 1
  {
  }

  lemma RecoveredOnLadder(s: Settings, job: Job, w: World, budget: int)
    requires Durable(w) && w.db.Open() && OnLadder(s.policy, w, budget) && job == ReadJob(w.db)
    ensures var (w', d) := RecordRecovered(s, job, w);
            Durable(w') && d.Returned? && OnLadder(s.policy, w', budget)
            && Project(w'.db.log).observed == job.sum.observed
  {
    hide Project, AuditOf, InOrder, DeleteAll, Superseded;
    RemainingPositive(s.policy, job.sum, LatestRung(job.sum));
    var w1 := w.(kc := DeleteAll(w.kc, Superseded(s, job)));
    DurableLog(w1, HealingRecovered, job.name, 0, NO_DETAILS);
    RecoveryInOrder(s.policy, Project(w.db.log), AuditOf(w.db.log),
      Event(HealingRecovered, job.name, w.db.now, 0, NO_DETAILS));
  }

  lemma RecoveryInOrder(p: Policy, s: Summary, a: Audit, e: Event)
    requires InOrder(p, s, a) && e.kind == HealingRecovered
    ensures InOrder(p, Add(s, e), AddAudit(a, e))
  {
  }

  predicate Due(s: Settings, job: Job, now: int) {
    var until := WaitUntil(s, job);
    until.None? || now >= until.value
  }

  lemma ProcessProgress(s: Settings, job: Job, w: World, t: Tick, budget: int)
    requires Durable(w) && w.db.Open() && OnLadder(s.policy, w, budget) && job == ReadJob(w.db)
    ensures var (w', d) := ProcessJob(s, job, w, t);
            && Durable(w') && d.Returned? && OnLadder(s.policy, w', budget)
            && job.sum.observed <= Project(w'.db.log).observed <= job.sum.observed + 1
            && (t.health.Unhealthy? && Due(s, job, w.db.now) ==> Project(w'.db.log).observed == job.sum.observed + 1)
  {
    hide Project, AuditOf, InOrder, Execute, HandleUnhealthy, RecordRecovered, WaitUntil, Quarantine, Remaining,
      Progressed;
    var p := s.policy;
    var w1 := See(w, t.health);
    UnhealthyProgress(s, job, w1, t, budget);
    if !LatestIn(job, TERMINAL) {
      RecoveredOnLadder(s, job, w1, budget);
      if t.health.Unhealthy? || t.health.Stopped? {
        ProgressedOnLadder(p, w, HandleUnhealthy(s, job, w1, t).0, budget);
      }
      if LatestIn(job, {RecreateWithOffsetTimeout}) {
        RetryIsDispatchable(p, job, w1, budget);
        ExecuteProgress(p, s, job, w1, t, RetryRecreate);
        ProgressedOnLadder(p, w, Execute(s, job, w1, t, RetryRecreate).0, budget);
      }
    }
  }

  lemma RetryIsDispatchable(p: Policy, job: Job, w: World, budget: int)
    requires Durable(w) && w.db.Open() && OnLadder(p, w, budget) && job == ReadJob(w.db)
    requires LatestIn(job, {RecreateWithOffsetTimeout})
    ensures CanDispatch(p, job, w, RetryRecreate) && job.sum.timeouts < MAX_TIMEOUTS
  {
    hide Project, AuditOf, InOrder, Remaining;
  }

  /** A poll whose database writes succeed. */
  predicate Reliable(i: Input) {
    i.Poll? ==> i.tick.dbReplies == []
  }

  lemma StepProgress(s: Settings, w: World, t: Tick, budget: int)
    requires t.dbReplies == [] && OnLadder(s.policy, w, budget)
    ensures var w' := Step(s, w, t);
            && OnLadder(s.policy, w', budget)
            && Project(w.db.log).observed <= Project(w'.db.log).observed <= Project(w.db.log).observed + 1
            && (w.db.Open() && t.health.Unhealthy? && Due(s, ReadJob(w.db), w.db.now + t.elapsed)
                ==> Project(w'.db.log).observed == Project(w.db.log).observed + 1)
  {
    hide Project, AuditOf, InOrder, ProcessJob, Remaining, Due;
    if w.db.Open() {
      var w0 := Begin(w, t);
      var job := ReadJob(w0.db);
      var w1 := Complete(w0, Processing).0;
      assert ReadJob(w1.db) == job == ReadJob(w.db);
      ProcessProgress(s, job, w1, t, budget);
    }
  }

  lemma {:induction false} RunOnLadder(s: Settings, w: World, inputs: seq<Input>)
    requires NewItem(w) && forall i | 0 <= i < |inputs| :: Reliable(inputs[i])
    ensures OnLadder(s.policy, Run(s, w, inputs), s.policy.MaxFailedCount() + 3)
  {
    hide Step, Project, AuditOf, OnLadder;
    var budget := s.policy.MaxFailedCount() + 3;
    if inputs == [] {
      NewItemOnLadder(s.policy, w);
    } else {
      var front, last := inputs[..|inputs| - 1], inputs[|inputs| - 1];
      RunOnLadder(s, w, front);
      assert Reliable(last);
      match last
      case Poll(t) => StepProgress(s, Run(s, w, front), t, budget);
      case ProcessRestart => RestartedOnLadder(s.policy, Run(s, w, front), budget);
    }
  }

  lemma NewItemOnLadder(p: Policy, w: World)
    requires NewItem(w)
    ensures OnLadder(p, w, p.MaxFailedCount() + 3)
  {
    hide Project, AuditOf, InOrder, ClosedWell, Stands;
    EmptyLog();
    NothingInOrder(p, Project(w.db.log), AuditOf(w.db.log));
    NothingStands(p, Project(w.db.log), AuditOf(w.db.log));
  }

  lemma EmptyLog()
    ensures Project([]) == Summary(0, 0, 0, 0, 0, 0, 0, 0, 0, None)
    ensures AuditOf([]) == Audit([], [], [], 0, None, 0, 0, 0, None, 0)
  {
  }

  lemma NothingInOrder(p: Policy, s: Summary, a: Audit)
    requires s.observed == s.taskRestarts == s.connectorRestarts == 0
    requires a == Audit([], [], [], 0, None, 0, 0, 0, None, 0)
    ensures InOrder(p, s, a)
  {
  }

  lemma NothingStands(p: Policy, s: Summary, a: Audit)
    requires s == Summary(0, 0, 0, 0, 0, 0, 0, 0, 0, None) && a.captures == 0 && a.recoveries == 0
    ensures Stands(p, s, a, LatestRung(s), p.MaxFailedCount() + 3)
  {
    assert Remaining(p, s, Climbing) == p.MaxFailedCount() + 3;
  }

  lemma RestartedOnLadder(p: Policy, w: World, budget: int)
    requires OnLadder(p, w, budget)
    ensures OnLadder(p, Restarted(w), budget)
  {
    hide Project, AuditOf, InOrder, Remaining;
  }

  /** Termination.  On every run with working persistence, whatever the health
      checks, the alerts and Kafka Connect answer, at most max_failed_count + 3
      unhealthy observations are processed; the last of them closes the item as
      escalated, and a terminal event ends its log. */
  lemma TerminatesInTime(s: Settings, w: World, inputs: seq<Input>)
    requires NewItem(w) && forall i | 0 <= i < |inputs| :: Reliable(inputs[i])
    ensures var w', budget := Run(s, w, inputs), s.policy.MaxFailedCount() + 3;
            var observed := Count(w'.db.log, {HealthFailureObserved});
            && observed <= budget
            && (observed == budget ==> w'.db.status == Escalated)
            && (w'.db.status == Escalated ==> w'.db.log != [] && w'.db.log[|w'.db.log| - 1].kind in TERMINAL)
  {
    hide Run, InOrder, Project, AuditOf;
    var w' := Run(s, w, inputs);
    RunOnLadder(s, w, inputs);
    ProjectCounts(w'.db.log);
    if w'.db.Open() { RemainingIfOpen(s.policy, w'); }
  }

  lemma RemainingIfOpen(p: Policy, w: World)
    requires OnLadder(p, w, p.MaxFailedCount() + 3) && w.db.Open()
    ensures Remaining(p, Project(w.db.log), LatestRung(Project(w.db.log))) >= 1
  {
    hide Project, AuditOf, InOrder;
    RemainingPositive(p, Project(w.db.log), LatestRung(Project(w.db.log)));
  }
}
