/** The healing process in the form of the source: a store that appends rows and
    moves a queue row, a client that changes the cluster, and a state machine that
    drives both with ordered calls and early returns.  Every method is proved
    against the step function that the theorems are about. */
module HealingService {
  import opened Basics
  import opened ConnectorNames
  import opened HealingDomain
  import opened HealingWorld
  import opened HealingSteps
  import opened HealingSafety
  import opened HealingBudgets
  import opened HealingProgress
  import opened HealingOffsets
  import opened HealingFreshNames

  /** The queue row and the log of one item. */
  class HistoryStore {
    var log: seq<Event>
    var status: Status
    var current: Name
    const mode: HealingMode
    var now: int
    var replies: seq<Reply>

    function State(): Db
      reads this
    {
      Db(log, status, current, mode, now, replies)
    }

    constructor (name: Name, mode: HealingMode, receivedAt: int)
      ensures State() == Db([], Pending, name, mode, receivedAt, [])
    {
      log, status, current, now, replies := [], Pending, name, receivedAt, [];
      this.mode := mode;
    }

    /** Takes the next reply of the database. */
    method Answer() returns (r: Reply)
      modifies this
      ensures r == First(old(replies))
      ensures State() == old(State()).(replies := Rest(old(replies)))
    {
      r := First(replies);
      replies := Rest(replies);
    }

    method RecordConnectorLog(kind: EventKind, connector: Name, attempt: nat, details: Details) returns (d: Done)
      modifies this
      ensures (State(), d) == Record(old(State()), kind, connector, attempt, details)
    {
      var duplicate := kind == HealthFailedConfirmed && Project(log).confirmed > 0;
      var r := Answer();
      if Applied(r) && !duplicate {
        log := log + [Event(kind, connector, now, attempt, details)];
        now := now + 1;
      }
      d := DoneOf(r);
    }

    method SetQueueStatus(s: Status) returns (d: Done)
      modifies this
      ensures (State(), d) == SetStatus(old(State()), s)
    {
      var r := Answer();
      if Applied(r) {
        status := s;
      }
      d := DoneOf(r);
    }

    method UpdateCurrentName(name: Name) returns (d: Done)
      modifies this
      ensures (State(), d) == SetCurrent(old(State()), name)
    {
      var r := Answer();
      if Applied(r) {
        current := name;
      }
      d := DoneOf(r);
    }
  }

  /** The Kafka Connect client, with the cluster it talks to. */
  class ConnectClient {
    var cluster: Cluster
    var calls: seq<Call>
    var replies: seq<Reply>

    function State(): Kc
      reads this
    {
      Kc(cluster, calls, replies)
    }

    constructor (cluster: Cluster)
      ensures State() == Kc(cluster, [], [])
    {
      this.cluster, calls, replies := cluster, [], [];
    }

    method Answer() returns (r: Reply)
      modifies this
      ensures r == First(old(replies))
      ensures State() == old(State()).(replies := Rest(old(replies)))
    {
      r := First(replies);
      replies := Rest(replies);
    }

    method Stop(name: Name) returns (ok: bool)
      modifies this
      ensures (State(), ok) == StopConnector(old(State()), name)
    {
      var r := Answer();
      if Applied(r) && name in cluster.stopped {
        cluster := cluster.(stopped := cluster.stopped[name := true]);
      }
      ok := r.Ok?;
      calls := calls + [Call(StopOp, name, ok, cluster)];
    }

    method Create(name: Name, retry: bool, running: bool) returns (d: Done)
      modifies this
      ensures (State(), d) == CreateConnector(old(State()), name, retry, running)
    {
      var r := Answer();
      if name in cluster.stopped {
        d := Raised(r.Fail? && r.timeout);
      } else {
        if Applied(r) {
          cluster := cluster.(stopped := cluster.stopped[name := !running]);
        }
        d := DoneOf(r);
      }
      calls := calls + [Call(CreateOp(retry, running), name, d.Returned?, cluster)];
    }

    method Patch(name: Name, offsets: Offsets) returns (ok: bool)
      modifies this
      ensures (State(), ok) == PatchOffsets(old(State()), name, offsets)
    {
      var r := Answer();
      var possible := name in cluster.stopped && cluster.stopped[name];
      if Applied(r) && possible {
        cluster := cluster.(offsets := cluster.offsets[name := offsets]);
      }
      ok := r.Ok? && possible;
      calls := calls + [Call(PatchOp, name, ok, cluster)];
    }

    method Resume(name: Name) returns (ok: bool)
      modifies this
      ensures (State(), ok) == ResumeConnector(old(State()), name)
    {
      var r := Answer();
      ok := r.Ok? && name in cluster.stopped;
      if Applied(r) && name in cluster.stopped {
        cluster := cluster.(stopped := cluster.stopped[name := false]);
      }
      calls := calls + [Call(ResumeOp, name, ok, cluster)];
    }

    method Delete(name: Name)
      modifies this
      ensures State() == DeleteConnector(old(State()), name)
    {
      var r := Answer();
      if Applied(r) {
        cluster := cluster.(stopped := cluster.stopped - {name});
      }
      calls := calls + [Call(DeleteOp, name, r.Ok?, cluster)];
    }

    method Restart(name: Name, onlyFailed: bool) returns (d: Done)
      modifies this
      ensures (State(), d) == RestartConnector(old(State()), name, onlyFailed)
    {
      var r := Answer();
      d := DoneOf(r);
      calls := calls + [Call(if onlyFailed then RestartFailed else RestartAll, name, r.Ok?, cluster)];
    }
  }

  lemma CarriedStep(w: World, w': World)
    requires StepCarried(w, w')
    ensures Carrying(w')
    ensures Project(w'.db.log).withOffset > Project(w.db.log).withOffset ==> HoldsCaptured(w')
  {
    hide Project, PatchedBeforeResumed, HoldsCaptured, AuditOf;
  }

  lemma AdvanceMeans(s: Settings, w: World, i: Input)
    ensures i.Poll? ==> Advance(s, w, i) == Step(s, w, i.tick)
    ensures i.ProcessRestart? ==> Advance(s, w, i) == Restarted(w)
  {
    hide Step;
  }

  lemma {:induction false} QuarantinedRun(s: Settings, w: World, inputs: seq<Input>)
    requires Quarantined(w) && ProcessRestart !in inputs
    ensures Quarantined(Run(s, w, inputs)) && Run(s, w, inputs).kc.calls == w.kc.calls
  {
    hide Step, Quarantined;
    if inputs != [] {
      QuarantinedRun(s, w, inputs[..|inputs| - 1]);
      QuarantinedStep(s, Run(s, w, inputs[..|inputs| - 1]), inputs[|inputs| - 1].tick);
    }
  }

  /** What the theorems about runs say of the last state. */
  lemma RunsKeep(base: string, s: Settings, w: World, inputs: seq<Input>)
    ensures var w' := Run(s, w, inputs);
      && (NewItem(w) ==>
            && Count(w'.db.log, {TaskRestart}) <= s.policy.taskRestarts
            && Count(w'.db.log, {ConnectorRestart}) <= s.policy.connectorRestarts
            && Count(w'.db.log, {RecreateWithoutOffset, RecreateWithoutOffsetFailed}) <= 1
            && PatchedBeforeResumed(w'.kc.calls))
      && (NewItem(w) && ProcessRestart !in inputs ==> WithinCalls(s.policy, TallyOf(w'.kc.calls)))
      && (Quarantined(w) && ProcessRestart !in inputs ==> Quarantined(w') && w'.kc.calls == w.kc.calls)
      && (NewItem(w) && Undisturbed(s, w, inputs) ==> AllFresh(w.db.current, Creations(w'.kc.calls)))
      && (NewItem(w) && (forall i | 0 <= i < |inputs| :: Reliable(inputs[i])) ==>
            Count(w'.db.log, {HealthFailureObserved}) <= s.policy.MaxFailedCount() + 3)
      && (Inv(base, w) && RestartsAreClean(base, s, w, inputs) ==>
            AtMostOne(base, w'.kc.cluster) && CallsSafe(base, w'.kc.calls))
  {
    hide Run, Count, Quarantined, Undisturbed, Creations, TallyOf, AtMostOne, CallsSafe, RestartsAreClean,
      PatchedBeforeResumed, WithinCalls;
    if NewItem(w) {
      LogBudgets(s, w, inputs);
      RunCarrying(s, w, inputs);
      if ProcessRestart !in inputs { RequestBudgets(s, w, inputs); }
      if Undisturbed(s, w, inputs) { ReplacementNamesFresh(s, w, inputs); }
      if forall i | 0 <= i < |inputs| :: Reliable(inputs[i]) { TerminatesInTime(s, w, inputs); }
    }
    if Quarantined(w) && ProcessRestart !in inputs { QuarantinedRun(s, w, inputs); }
    if Inv(base, w) && RestartsAreClean(base, s, w, inputs) { RunSafe(base, s, w, inputs); }
  }

  class ConnectorStateMachine {
    const settings: Settings
    const db: HistoryStore
    const client: ConnectClient
    var uncertain: bool
    var healthySince: Option<int>
    var seen: seq<Observation>

    function World(): World
      reads this, db, client
    {
      HealingWorld.World(db.State(), client.State(), Memory(uncertain, healthySince, seen))
    }

    constructor (settings: Settings, db: HistoryStore, client: ConnectClient)
      ensures this.settings == settings && this.db == db && this.client == client
      ensures World() == HealingWorld.World(db.State(), client.State(), Memory(false, None, []))
    {
      this.settings, this.db, this.client := settings, db, client;
      uncertain, healthySince, seen := false, None, [];
    }

    // ---- Recovery actions ---------------------------------------------------------

    method RestartAndLog(job: Job, t: Tick, onlyFailed: bool) returns (d: Done)
      modifies this, db, client
      ensures (World(), d) == RestartStep(job, old(World()), t, onlyFailed)
    {
      hide Record, RestartConnector;
      d := client.Restart(job.name, onlyFailed);
      if d.Raised? {
        return;
      }
      if onlyFailed {
        var failedTasks := (t.health.Unhealthy? && t.health.failedTasks) || job.LatestDetails().failedTasks;
        d := db.RecordConnectorLog(TaskRestart, job.name, job.sum.taskRestarts + 1,
                                   NO_DETAILS.(failedTasks := failedTasks));
      } else {
        d := db.RecordConnectorLog(ConnectorRestart, job.name, job.sum.connectorRestarts + 1, NO_DETAILS);
      }
    }

    method LogRecreateFailure(job: Job, connector: Name, details: Details) returns (d: Done)
      modifies this, db, client
      ensures (World(), d) == FailRecreate(job, old(World()), connector, details)
    {
      hide Record;
      d := db.RecordConnectorLog(RecreateWithOffsetFailed, connector, job.WithOffsetCount() + 1, details);
      if d.Returned? {
        d := Returned(false);
      }
    }

    method MarkAndFail(job: Job, name: Name, kind: EventKind) returns (d: Done)
      modifies this, db, client
      ensures (World(), d) == AbandonReplacement(job, old(World()), name, kind)
    {
      hide Record, SetCurrent, FailRecreate;
      d := db.UpdateCurrentName(name);
      if d.Raised? {
        return;
      }
      d := db.RecordConnectorLog(kind, name, job.WithOffsetCount() + 1, Involved(job, Some(name)));
      if d.Raised? {
        return;
      }
      d := LogRecreateFailure(job, name, Involved(job, Some(name)));
    }

    method DeleteFailedVersionedConnector(job: Job, name: Name)
      modifies this, db, client
      ensures World() == DeleteFailedVersioned(settings, job, old(World()), name)
    {
      hide DeleteConnector, IsVersioned;
      if job.name == name {
        return;
      }
      if !IsVersioned(job.name) {
        return;
      }
      if settings.keepBase && job.name == job.OriginalName() {
        return;
      }
      client.Delete(job.name);
    }

    /** The end of both recreates: audit, move the queue row, delete what failed. */
    method FinishAndMove(job: Job, name: Name, kind: EventKind, attempt: nat) returns (d: Done)
      modifies this, db, client
      ensures (World(), d) == FinishReplacement(settings, job, old(World()), name, kind, attempt)
    {
      hide Record, SetCurrent, DeleteFailedVersioned, Involved;
      d := db.RecordConnectorLog(kind, name, attempt, Involved(job, Some(name)));
      if d.Raised? {
        return;
      }
      d := db.UpdateCurrentName(name);
      if d.Raised? {
        return;
      }
      DeleteFailedVersionedConnector(job, name);
      d := Returned(true);
    }

    /** Register the replacement stopped; patch its offsets; only then resume it. */
    method CreateAndBringUp(job: Job, name: Name, offsets: Offsets) returns (d: Done)
      modifies this, db, client
      ensures (World(), d) == CreateReplacement(settings, job, old(World()), name, offsets)
    {
      hide Record, SetCurrent, CreateConnector, PatchOffsets, ResumeConnector, FailRecreate, AbandonReplacement,
        FinishReplacement, Involved;
      d := client.Create(name, false, false);
      if d.Raised? {
        if d.timeout {
          d := db.UpdateCurrentName(name);
          if d.Raised? {
            return;
          }
          d := db.RecordConnectorLog(RecreateWithOffsetTimeout, name, job.sum.timeouts + 1,
                                     Involved(job, Some(name)).(offsets := Some(offsets)));
          if d.Returned? {
            d := Returned(false);
          }
          return;
        }
        d := LogRecreateFailure(job, job.name, Involved(job, Some(name)));
        return;
      }
      var patched := client.Patch(name, offsets);
      if !patched {
        d := MarkAndFail(job, name, OffsetPatchFailed);
        return;
      }
      var resumed := client.Resume(name);
      if !resumed {
        d := MarkAndFail(job, name, ConnectorResumeFailed);
        return;
      }
      d := FinishAndMove(job, name, EventKind.RecreateWithOffset, job.WithOffsetCount() + 1);
    }

    method RecreateWithOffset(job: Job, t: Tick) returns (d: Done)
      modifies this, db, client
      ensures (World(), d) == RecreateWithOffsets(settings, job, old(World()), t)
    {
      hide Record, StopConnector, CreateReplacement, FailRecreate, Job.ReplacementName, Job.OriginalName, Involved;
      if t.config.ConfigUnreadable? || t.offsets.OffsetsUnreadable? {
        return Raised(false);
      }
      var offsets := t.offsets.offsets;
      d := db.RecordConnectorLog(OffsetCaptured, job.name, job.WithOffsetCount() + 1, NO_DETAILS.(offsets := offsets));
      if d.Raised? {
        return;
      }
      if offsets.None? || offsets.value.entries == [] {
        d := LogRecreateFailure(job, job.name, NO_DETAILS.(original := Some(job.OriginalName()), offsets := offsets));
        return;
      }
      if t.config.empty || !t.config.hasSchemaTopic {
        d := LogRecreateFailure(job, job.name, Involved(job, None));
        return;
      }
      var name := job.ReplacementName();
      var stopped := client.Stop(job.name);
      if !stopped {
        d := LogRecreateFailure(job, job.name, Involved(job, Some(name)));
        return;
      }
      d := CreateAndBringUp(job, name, offsets.value);
    }

    method LogRetryResult(job: Job, kind: EventKind, attempt: nat) returns (d: Done)
      modifies this, db, client
      ensures (World(), d) == LogRetry(job, old(World()), kind, attempt)
    {
      hide Record;
      d := db.RecordConnectorLog(kind, job.name, attempt,
                                 Involved(job, Some(job.name)).(oldName := job.LatestDetails().oldName));
      if d.Returned? {
        d := Returned(false);
      }
    }

    method RetryTimedOutRecreateWithOffset(job: Job, t: Tick) returns (d: Done)
      modifies this, db, client
      ensures (World(), d) == RetryWithOffsets(job, old(World()), t)
    {
      hide Record, StopConnector, CreateConnector, PatchOffsets, ResumeConnector, FailRecreate, LogRetry,
        Job.OriginalName;
      if t.config.ConfigUnreadable? {
        return Raised(false);
      }
      if job.LatestDetails().offsets.None? {
        d := LogRecreateFailure(job, job.name, NO_DETAILS.(original := Some(job.OriginalName())));
        return;
      }
      var offsets := job.LatestDetails().offsets.value;
      if t.registered {
        var stopped := client.Stop(job.name);
        if !stopped {
          d := LogRecreateFailure(job, job.name,
            Involved(job, Some(job.name)).(oldName := job.LatestDetails().oldName));
          if d.Raised? && d.timeout {
            d := LogRetryResult(job, RecreateWithOffsetTimeout, job.sum.timeouts + 1);
          }
          return;
        }
      } else {
        d := client.Create(job.name, true, false);
        if d.Raised? {
          if d.timeout {
            d := LogRetryResult(job, RecreateWithOffsetTimeout, job.sum.timeouts + 1);
          }
          return;
        }
      }
      var patched := client.Patch(job.name, offsets);
      if !patched {
        d := LogRetryResult(job, OffsetPatchFailed, job.sum.timeouts + 1);
        return;
      }
      var resumed := client.Resume(job.name);
      if !resumed {
        d := LogRetryResult(job, ConnectorResumeFailed, job.sum.timeouts + 1);
        return;
      }
      d := db.RecordConnectorLog(EventKind.RecreateWithOffset, job.name, job.WithOffsetCount() + 1,
                                 Involved(job, Some(job.name)).(oldName := job.LatestDetails().oldName));
      if d.Returned? {
        d := Returned(true);
      }
    }

    method RecreateWithoutOffset(job: Job, t: Tick) returns (d: Done)
      modifies this, db, client
      ensures (World(), d) == RecreateWithoutOffsets(settings, job, old(World()), t)
    {
      hide Record, StopConnector, CreateConnector, FinishReplacement, Job.ReplacementName, Job.OriginalName, Involved;
      if t.config.ConfigUnreadable? || t.config.empty {
        return Raised(false);
      }
      var name := job.ReplacementName();
      var stopped := client.Stop(job.name);
      if stopped {
        d := client.Create(name, false, true);
      }
      if !stopped || d.Raised? {
        d := db.RecordConnectorLog(RecreateWithoutOffsetFailed, job.name, job.WithoutOffsetCount() + 1,
                                   Involved(job, Some(name)));
        if d.Returned? {
          d := Returned(false);
        }
        return;
      }
      d := FinishAndMove(job, name, EventKind.RecreateWithoutOffset, job.WithoutOffsetCount() + 1);
    }

    method RecordAndComplete(job: Job, kind: EventKind, status: Status) returns (d: Done)
      modifies this, db, client
      ensures (World(), d) == LogAndComplete(old(World()), kind, job.name, NO_DETAILS, status)
    {
      hide Record, SetStatus;
      d := db.RecordConnectorLog(kind, job.name, 0, NO_DETAILS);
      if d.Raised? {
        return;
      }
      d := db.SetQueueStatus(status);
    }

    // ---- Decisions -------------------------------------------------------------------

    method DispatchDecision(job: Job, t: Tick, a: Action) returns (d: Done)
      modifies this, db, client
      ensures (World(), d) == Dispatch(settings, job, old(World()), t, a)
    {
      hide LogAndComplete, RestartStep, RecreateWithOffsets, RetryWithOffsets, RecreateWithoutOffsets;
      if job.Level() < RequiredLevel(a) {
        d := RecordAndComplete(job, HealingLevelLimitReached, Escalated);
        return;
      }
      match a {
        case RestartTasks => d := RestartAndLog(job, t, true);
        case RestartWholeConnector => d := RestartAndLog(job, t, false);
        case Recreate => d := RecreateWithOffset(job, t);
        case RetryRecreate =>
          d := RetryTimedOutRecreateWithOffset(job, t);
          if d.Returned? && !d.value {
            d := RecordAndComplete(job, HealingEscalated, Escalated);
          }
        case RecreateFresh =>
          d := RecreateWithoutOffset(job, t);
          if d.Returned? && !d.value {
            d := RecordAndComplete(job, HealingEscalated, Escalated);
          }
        case _ => d := RecordAndComplete(job, HealingEscalated, Escalated);
      }
    }

    method QuarantineUncertainAction(job: Job) returns (d: Done)
      modifies this, db, client
      ensures (World(), d) == Quarantine(job, old(World()))
    {
      hide LogAndComplete;
      d := RecordAndComplete(job, HealingEscalated, Escalated);
      if d.Returned? {
        uncertain := false;
      }
    }

    method ExecuteDecision(job: Job, t: Tick, a: Action) returns (d: Done)
      modifies this, db, client
      ensures (World(), d) == Execute(settings, job, old(World()), t, a)
    {
      hide Dispatch, Quarantine;
      d := DispatchDecision(job, t, a);
      if d.Raised? {
        uncertain := true;
        d := QuarantineUncertainAction(job);
      }
    }

    method HandleUnhealthyCheck(job: Job, t: Tick) returns (d: Done)
      modifies this, db, client
      ensures (World(), d) == HandleUnhealthy(settings, job, old(World()), t)
    {
      hide Record, SetStatus, Execute, Decide, Clamp;
      var failedTasks := t.health.Unhealthy? && t.health.failedTasks;
      healthySince := None;
      if Decide(settings.policy, job, failedTasks || job.failedTask).Stop? {
        d := db.SetQueueStatus(Escalated);
        return;
      }
      var failedCount := Clamp(job.failedCount + 1, settings.policy.MaxFailedCount());
      assert failedCount >= 0 by { ClampNatural(job.failedCount + 1, settings.policy.MaxFailedCount()); }
      d := db.RecordConnectorLog(HealthFailureObserved, job.name, failedCount, NO_DETAILS.(failedTasks := failedTasks));
      if d.Raised? {
        return;
      }
      var job' := job.(failedCount := failedCount, failedTask := failedTasks);
      if !job.confirmed && (t.alertConfirmed || failedCount >= settings.policy.confirmChecks) {
        d := db.RecordConnectorLog(HealthFailedConfirmed, job.name, 0, NO_DETAILS);
        if d.Raised? {
          return;
        }
        job' := job'.(confirmed := true);
      }
      var a := Decide(settings.policy, job', failedTasks);
      if a.Debounce? {
        return Returned(true);
      }
      d := ExecuteDecision(job', t, a);
    }

    method DeleteSuperseded(names: seq<Name>)
      modifies this, db, client
      ensures World() == old(World()).(kc := DeleteAll(old(World()).kc, names))
    {
      ghost var before := World();
      var i := 0;
      while i < |names|
        invariant 0 <= i <= |names|
        invariant World() == before.(kc := World().kc)
        invariant DeleteAll(World().kc, names[i..]) == DeleteAll(before.kc, names)
      {
        client.Delete(names[i]);
        assert names[i..][1..] == names[i + 1..];
        i := i + 1;
      }
    }

    method RecordRecovery(job: Job) returns (d: Done)
      modifies this, db, client
      ensures (World(), d) == RecordRecovered(settings, job, old(World()))
    {
      hide SetStatus, LogAndComplete, DeleteAll, Superseded, NoAutomatedStep;
      if NoAutomatedStep(job) {
        d := db.SetQueueStatus(Completed);
      } else {
        DeleteSuperseded(Superseded(settings, job));
        d := RecordAndComplete(job, HealingRecovered, Completed);
      }
      if d.Returned? {
        healthySince := None;
        d := Returned(true);
      }
    }

    method HandleHealthyCheck(job: Job) returns (d: Done)
      modifies this, db, client
      ensures (World(), d) == HandleHealthy(settings, job, old(World()))
    {
      hide RecordRecovered;
      if !LatestIn(job, WAIT_AFTER_RESTART + WAIT_AFTER_RECREATE) {
        d := RecordRecovery(job);
        return;
      }
      var actionAt := job.sum.latest.value.at;
      if healthySince.None? || healthySince.value <= actionAt {
        healthySince := Some(db.now);
        return Returned(true);
      }
      if db.now < healthySince.value + settings.confirmWindow {
        return Returned(true);
      }
      d := RecordRecovery(job);
    }

    method Process(job: Job, t: Tick) returns (d: Done)
      modifies this, db, client
      ensures (World(), d) == ProcessJob(settings, job, old(World()), t)
    {
      hide SetStatus, Quarantine, Execute, HandleUnhealthy, HandleHealthy, WaitUntil, ManagedStopped, LatestIn;
      var followup := job.failedCount > 0;
      if uncertain {
        d := QuarantineUncertainAction(job);
        return if d.Raised? then d else Returned(false);
      }
      if LatestIn(job, TERMINAL) {
        d := db.SetQueueStatus(Escalated);
        return if d.Raised? then d else Returned(false);
      }
      var until := WaitUntil(settings, job);
      if until.Some? && db.now < until.value {
        return Returned(followup);
      }
      seen := seen + [Observation(t.health, db.now)];
      match t.health {
        case Unreachable =>
          healthySince := None;
        case NotCreated =>
          if LatestIn(job, {RecreateWithOffsetTimeout}) {
            d := ExecuteDecision(job, t, if job.sum.timeouts < MAX_TIMEOUTS then RetryRecreate else Escalate);
            return if d.Raised? then d else Returned(true);
          }
          healthySince := None;
        case Stopped =>
          if ManagedStopped(job) {
            d := HandleUnhealthyCheck(job, t);
            return if d.Raised? then d else Returned(true);
          }
          return Returned(false);
        case Healthy =>
          d := HandleHealthyCheck(job);
          return if d.Raised? then d else Returned(followup);
        case Unhealthy(_) =>
          d := HandleUnhealthyCheck(job, t);
          return if d.Raised? then d else Returned(true);
      }
      d := Returned(followup);
    }

    /** One poll of the item: the new state is the step of the model, so the
        theorems about runs apply to every sequence of calls; in particular the
        single-runner invariant is kept. */
    method ProcessJobSafely(t: Tick, ghost base: string)
      modifies this, db, client
      ensures World() == Step(settings, old(World()), t)
      ensures old(Inv(base, World())) ==> Inv(base, World())
      ensures old(Carrying(World())) ==>
                && Carrying(World())
                && (Project(db.log).withOffset > old(Project(db.log).withOffset) ==>
                      HoldsCaptured(World()))
      ensures old(Quarantined(World())) ==> Quarantined(World()) && client.calls == old(client.calls)
    {
      hide SetStatus, Record, ProcessJob, Inv, Project, AuditOf, Carrying, HoldsCaptured, Quarantined;
      ghost var before := World();
      if db.State().Open() {
        db.now, db.replies, client.replies := db.now + t.elapsed, t.dbReplies, t.kcReplies;
        var job := ReadJob(db.State());
        var d := db.SetQueueStatus(Processing);
        if d.Returned? {
          d := Process(job, t);
        }
        if d.Raised? {
          if !uncertain {
            var _ := db.RecordConnectorLog(StateMachineError, job.name, 0, NO_DETAILS);
          }
        } else if d.value && db.State().Open() {
          var _ := db.SetQueueStatus(Waiting);
        }
      }
      if Inv(base, before) {
        StepSafe(base, settings, before, t);
      }
      if Carrying(before) {
        StepCarries(settings, before, t);
        CarriedStep(before, World());
      }
      if Quarantined(before) {
        QuarantinedStep(settings, before, t);
      }
    }

    /** A new process starts without memory of the item. */
    method Restart()
      modifies this
      ensures World() == Restarted(old(World()))
    {
      uncertain, healthySince := false, None;
    }

    /** The life of the service: polls, and restarts of the process.  Its state is the
        run of the model, so the budgets, the carry-over of offsets, quarantine, fresh
        names, termination and the single runner hold of these objects. */
    method ProcessInputs(inputs: seq<Input>, ghost base: string)
      modifies this, db, client
      ensures World() == Run(settings, old(World()), inputs)
      ensures old(NewItem(World())) ==>
                && Count(db.log, {TaskRestart}) <= settings.policy.taskRestarts
                && Count(db.log, {ConnectorRestart}) <= settings.policy.connectorRestarts
                && Count(db.log, {EventKind.RecreateWithoutOffset, RecreateWithoutOffsetFailed}) <= 1
      ensures old(NewItem(World())) && ProcessRestart !in inputs ==> WithinCalls(settings.policy, TallyOf(client.calls))
      ensures old(NewItem(World())) ==> PatchedBeforeResumed(client.calls)
      ensures old(Quarantined(World())) && ProcessRestart !in inputs ==>
                Quarantined(World()) && client.calls == old(client.calls)
      ensures old(NewItem(World())) && Undisturbed(settings, old(World()), inputs) ==>
                AllFresh(old(db.current), Creations(client.calls))
      ensures old(NewItem(World())) && (forall i | 0 <= i < |inputs| :: Reliable(inputs[i])) ==>
                Count(db.log, {HealthFailureObserved}) <= settings.policy.MaxFailedCount() + 3
      ensures old(Inv(base, World())) && RestartsAreClean(base, settings, old(World()), inputs) ==>
                AtMostOne(base, client.cluster) && CallsSafe(base, client.calls)
    {
      hide Advance, Run;
      ghost var start := World();
      RunAppend(settings, start, [], ProcessRestart);
      for i := 0 to |inputs|
        invariant World() == Run(settings, start, inputs[..i])
      {
        assert inputs[..i + 1] == inputs[..i] + [inputs[i]];
        RunAppend(settings, start, inputs[..i], inputs[i]);
        match inputs[i] {
          case Poll(t) => ProcessJobSafely(t, base);
          case ProcessRestart => Restart();
        }
        assert World() == Run(settings, start, inputs[..i + 1]) by {
          AdvanceMeans(settings, Run(settings, start, inputs[..i]), inputs[i]);
        }
      }
      assert inputs[..|inputs|] == inputs;
      RunsKeep(base, settings, start, inputs);
    }
  }
}
