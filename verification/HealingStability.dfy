/** A recovery after a healing action is recorded only on evidence of a stable
    connector. */
module HealingStability {
  import opened Basics
  import opened ConnectorNames
  import opened HealingDomain
  import opened HealingWorld
  import opened HealingSteps
  import opened HealingBudgets

  /** From check `i` on, the item was seen healthy, or stopped by an administrator. */
  predicate QuietFrom(seen: seq<Observation>, i: int) {
    && 0 <= i < |seen|
    && seen[i].health == Healthy
    && forall j | i <= j < |seen| :: seen[j].health in {Healthy, Stopped}
  }

  /** The remembered start of stability is backed by a check. */
  ghost predicate Backed(mem: Memory) {
    mem.healthySince.Some? ==>
      exists i :: QuietFrom(mem.seen, i) && mem.seen[i].at == mem.healthySince.value
  }

  predicate TimedOut(s: Summary) {
    s.latest.Some? && s.latest.value.kind == RecreateWithOffsetTimeout
  }

  ghost predicate Watching(w: World) {
    && Backed(w.mem)
    && (TimedOut(Project(w.db.log)) ==> w.mem.healthySince.None?)
  }

  /** Evidence that the connector was healthy strictly after the action at
      `actionAt`, for the confirm window up to `now`, with nothing but healthy
      checks and administrative stops in between. */
  ghost predicate StableSince(s: Settings, seen: seq<Observation>, actionAt: int, now: int) {
    exists i :: QuietFrom(seen, i) && actionAt < seen[i].at && seen[i].at + s.confirmWindow <= now
  }

  // ---- What the actions leave alone ------------------------------------------------

  /** Nothing but a recovery records a recovery. */
  predicate NotRecovered(w: World, w': World) {
    && AuditOf(w'.db.log).recoveries == AuditOf(w.db.log).recoveries
    && (w.db.status != Completed ==> w'.db.status != Completed)
    && w'.mem.healthySince == w.mem.healthySince
    && w'.mem.seen == w.mem.seen
  }

  lemma FreshNotRecovered(s: Settings, job: Job, w: World, t: Tick)
    ensures NotRecovered(w, RecreateWithoutOffsets(s, job, w, t).0)
  {
    hide Project, AuditOf, StopConnector, CreateConnector, DeleteConnector, IsVersioned, Job.ReplacementName;
  }

  lemma CompletedNotRecovered(w: World, kind: EventKind, connector: Name)
    requires kind != HealingRecovered
    ensures NotRecovered(w, LogAndComplete(w, kind, connector, NO_DETAILS, Escalated).0)
  {
    hide Project, AuditOf;
  }

  lemma RestartNotRecovered(job: Job, w: World, t: Tick, onlyFailed: bool)
    ensures NotRecovered(w, RestartStep(job, w, t, onlyFailed).0)
  {
    hide Project, AuditOf, RestartConnector;
  }

  lemma DispatchNotRecovered(s: Settings, job: Job, w: World, t: Tick, a: Action)
    ensures NotRecovered(w, Dispatch(s, job, w, t, a).0)
  {
    hide Project, AuditOf, TallyOf, RecreateWithOffsets, RetryWithOffsets, RecreateWithoutOffsets, RestartStep,
      LogAndComplete;
    CompletedNotRecovered(w, HealingLevelLimitReached, job.name);
    CompletedNotRecovered(w, HealingEscalated, job.name);
    match a
    case RestartTasks => RestartNotRecovered(job, w, t, true);
    case RestartWholeConnector => RestartNotRecovered(job, w, t, false);
    case Recreate => RecreateFrugal(s, job, w, t);
    case RetryRecreate =>
      RetryFrugal(job, w, t);
      CompletedNotRecovered(RetryWithOffsets(job, w, t).0, HealingEscalated, job.name);
    case RecreateFresh =>
      FreshNotRecovered(s, job, w, t);
      CompletedNotRecovered(RecreateWithoutOffsets(s, job, w, t).0, HealingEscalated, job.name);
    case _ =>
  }

  lemma ExecuteNotRecovered(s: Settings, job: Job, w: World, t: Tick, a: Action)
    ensures NotRecovered(w, Execute(s, job, w, t, a).0)
  {
    hide Project, AuditOf, Dispatch;
    DispatchNotRecovered(s, job, w, t, a);
  }

  lemma UnhealthyNotRecovered(s: Settings, job: Job, w: World, t: Tick)
    ensures NotRecovered(Forget(w), HandleUnhealthy(s, job, w, t).0)
  {
    hide Project, AuditOf, Execute, Decide, HandleUnhealthy, NextCount;
    UnhealthyEnds(s, job, w, t);
    var (seen, confirming) := Observed(s, job, w, t);
    var job' := ObservedJob(s, job, t, confirming);
    ExecuteNotRecovered(s, job', seen, t, Decide(s.policy, job', FailedTasks(t)));
  }

  // ---- The invariant ------------------------------------------------------------------

  lemma SeeKeepsBacked(w: World, health: Health)
    requires Backed(w.mem) && health in {Healthy, Stopped}
    ensures Backed(See(w, health).mem)
  {
    var seen, seen' := w.mem.seen, See(w, health).mem.seen;
    if w.mem.healthySince.Some? {
      var i :| QuietFrom(seen, i) && seen[i].at == w.mem.healthySince.value;
      assert QuietFrom(seen', i);
    }
  }

  /** The item was closed as recovered, or a recovery was logged. */
  predicate RecoveryRecorded(w: World, w': World) {
    w'.db.status == Completed || AuditOf(w'.db.log).recoveries > AuditOf(w.db.log).recoveries
  }

  predicate PostAction(job: Job) {
    LatestIn(job, WAIT_AFTER_RESTART + WAIT_AFTER_RECREATE)
  }

  lemma RecordKeepsWatching(s: Settings, job: Job, w: World)
    requires Watching(w)
    ensures Watching(RecordRecovered(s, job, w).0)
  {
    hide Project, AuditOf, Backed, DeleteAll, Superseded, NoAutomatedStep;
    assert Backed(w.mem.(healthySince := None)) by { NothingToBack(w.mem); }
  }

  lemma SameEvidence(mem: Memory, mem': Memory)
    requires Backed(mem) && mem'.healthySince == mem.healthySince && mem'.seen == mem.seen
    ensures Backed(mem')
  {
  }

  lemma NothingToBack(mem: Memory)
    ensures Backed(mem.(healthySince := None))
  {
  }

  /** A healthy check keeps the invariant, and records a post-action recovery on
      stable evidence only. */
  lemma HealthyStep(s: Settings, job: Job, w: World)
    requires Watching(w) && w.db.Open() && job.sum == Project(w.db.log)
    requires w.mem.seen != [] && w.mem.seen[|w.mem.seen| - 1] == Observation(Healthy, w.db.now)
    ensures var w' := HandleHealthy(s, job, w).0;
            && Watching(w')
            && (PostAction(job) && RecoveryRecorded(w, w')
                ==> StableSince(s, w.mem.seen, job.sum.latest.value.at, w.db.now))
  {
    hide Project, AuditOf, RecordRecovered;
    RecordKeepsWatching(s, job, w);
    var last := |w.mem.seen| - 1;
    assert QuietFrom(w.mem.seen, last);
  }

  lemma UnhealthyWatching(s: Settings, job: Job, w: World, t: Tick)
    ensures Watching(HandleUnhealthy(s, job, w, t).0)
  {
    hide Project, AuditOf, HandleUnhealthy;
    UnhealthyNotRecovered(s, job, w, t);
  }

  lemma QuarantineNotRecovered(job: Job, w: World)
    ensures NotRecovered(w, Quarantine(job, w).0)
    ensures TimedOut(Project(Quarantine(job, w).0.db.log)) ==> TimedOut(Project(w.db.log))
  {
    hide Project, AuditOf;
  }

  lemma ProcessStable(s: Settings, job: Job, w: World, t: Tick)
    requires Watching(w) && w.db.Open() && job.sum == Project(w.db.log)
    ensures var w' := ProcessJob(s, job, w, t).0;
            && Watching(w')
            && (PostAction(job) && RecoveryRecorded(w, w')
                ==> StableSince(s, w'.mem.seen, job.sum.latest.value.at, w.db.now))
  {
    hide Project, AuditOf, HandleUnhealthy, HandleHealthy, Execute, Quarantine, WaitUntil, Backed, StableSince,
      ManagedStopped;
    var w1 := See(w, t.health);
    QuarantineNotRecovered(job, w);
    SameEvidence(w.mem, Quarantine(job, w).0.mem);
    NothingToBack(w1.mem);
    var a := if job.sum.timeouts < MAX_TIMEOUTS then RetryRecreate else Escalate;
    ExecuteNotRecovered(s, job, w1, t, a);
    NothingToBack(Execute(s, job, w1, t, a).0.mem);
    UnhealthyWatching(s, job, w1, t);
    UnhealthyNotRecovered(s, job, w1, t);
    if t.health in {Healthy, Stopped} {
      SeeKeepsBacked(w, t.health);
    }
    if t.health == Healthy {
      HealthyStep(s, job, w1);
      HealthySeen(s, job, w1);
    }
  }

  lemma HealthySeen(s: Settings, job: Job, w: World)
    ensures HandleHealthy(s, job, w).0.mem.seen == w.mem.seen
  {
    hide DeleteAll, Superseded, NoAutomatedStep;
  }

  lemma SettleStable(job: Job, w: World, d: Done)
    requires Watching(w)
    ensures var w' := Settle(job, w, d);
            && Watching(w') && w'.mem == w.mem
            && (w'.db.status == Completed ==> w.db.status == Completed)
            && AuditOf(w'.db.log).recoveries == AuditOf(w.db.log).recoveries
  {
    hide Project, AuditOf, Backed;
  }

  /** Main result, for one step: a recovery recorded while the latest event is a
      restart or a recreate rests on stable evidence after that event. */
  lemma StepStable(s: Settings, w: World, t: Tick)
    requires Watching(w) && w.db.Open()
    ensures var w', latest := Step(s, w, t), Project(w.db.log).latest;
            && Watching(w')
            && (latest.Some? && latest.value.kind in WAIT_AFTER_RESTART + WAIT_AFTER_RECREATE && RecoveryRecorded(w, w')
                ==> StableSince(s, w'.mem.seen, latest.value.at, w.db.now + t.elapsed))
  {
    hide Project, AuditOf, ProcessJob, Settle, Backed, StableSince;
    var w0 := Begin(w, t);
    var job := ReadJob(w0.db);
    var (w1, d1) := Complete(w0, Processing);
    ProcessStable(s, job, w1, t);
    var (w2, d2) := if d1.Raised? then (w1, d1) else ProcessJob(s, job, w1, t);
    SettleStable(job, w2, d2);
  }

  /** The invariant holds on every run, with process restarts and with any
      failures, so StepStable applies to each of its steps. */
  lemma {:induction false} RunWatching(s: Settings, w: World, inputs: seq<Input>)
    requires NewItem(w) && w.mem.healthySince.None?
    ensures Watching(Run(s, w, inputs))
  {
    hide Step, AuditOf, Project, Backed;
    if inputs == [] {
      NothingToBack(w.mem);
    } else {
      var before := Run(s, w, inputs[..|inputs| - 1]);
      RunWatching(s, w, inputs[..|inputs| - 1]);
      match inputs[|inputs| - 1]
      case Poll(t) => if before.db.Open() { StepStable(s, before, t); } else { ClosedStep(s, before, t); }
      case ProcessRestart => NothingToBack(before.mem.(uncertain := false));
    }
  }

  lemma ClosedStep(s: Settings, w: World, t: Tick)
    requires !w.db.Open()
    ensures Step(s, w, t) == w
  {
  }

  /** On every run, the step that records a recovery after a healing action has
      seen the connector healthy strictly after that action, for the confirm
      window up to now, and nothing worse than an administrative stop since. */
  lemma RecoveryIsStable(s: Settings, w: World, inputs: seq<Input>, t: Tick)
    requires NewItem(w) && w.mem.healthySince.None?
    requires Run(s, w, inputs).db.Open()
    requires var latest := Project(Run(s, w, inputs).db.log).latest;
             latest.Some? && latest.value.kind in WAIT_AFTER_RESTART + WAIT_AFTER_RECREATE
    requires RecoveryRecorded(Run(s, w, inputs), Run(s, w, inputs + [Poll(t)]))
    ensures var before := Run(s, w, inputs);
            StableSince(s, Run(s, w, inputs + [Poll(t)]).mem.seen,
                        Project(before.db.log).latest.value.at, before.db.now + t.elapsed)
  {
    hide Step, Run, AuditOf, Project, StableSince;
    RunAppend(s, w, inputs, Poll(t));
    RunWatching(s, w, inputs);
    StepStable(s, Run(s, w, inputs), t);
  }

  // ---- Exactly when a healthy check completes an item --------------------------------------

  /** The rows that a recovery waits for in the confirm window: restarts and recreates that
      succeeded.  After a failed or timed-out recreate, a failed resume or an error row it
      does not wait. */
  predicate Windowed(job: Job) {
    LatestIn(job, WAIT_AFTER_RESTART + WAIT_AFTER_RECREATE)
  }

  predicate WindowPassed(s: Settings, job: Job, since: Option<int>, now: int)
    requires Windowed(job)
  {
    since.Some? && job.sum.latest.value.at < since.value && since.value + s.confirmWindow <= now
  }

  lemma HealthyCompletes(s: Settings, job: Job, w: World)
    requires w.db.replies == [] && w.db.Open()
    ensures HandleHealthy(s, job, w).0.db.status == Completed
        <==> !Windowed(job) || WindowPassed(s, job, w.mem.healthySince, w.db.now)
    ensures HandleHealthy(s, job, w).1.Returned?
    ensures HandleHealthy(s, job, w).0.db.status == Completed || HandleHealthy(s, job, w).0.db.status == w.db.status
  {
    hide Project, AuditOf, DeleteAll, Superseded, NoAutomatedStep;
  }

  /** With a working database, a poll that finds the connector healthy completes the item
      if and only if its latest row is not terminal, the wait after an action is over, and
      the confirm window has passed or does not apply. */
  lemma CompletesExactly(s: Settings, w: World, t: Tick)
    requires w.db.Open() && !w.mem.uncertain && t.health == Healthy && t.dbReplies == []
    ensures var job, now, until := ReadJob(w.db), w.db.now + t.elapsed, WaitUntil(s, ReadJob(w.db));
            Step(s, w, t).db.status == Completed
            <==> && !LatestIn(job, TERMINAL)
                 && (until.Some? ==> until.value <= now)
                 && (Windowed(job) ==> WindowPassed(s, job, w.mem.healthySince, now))
  {
    hide Project, AuditOf, HandleHealthy, WaitUntil, LatestIn, WindowPassed, Windowed;
    var w1 := Complete(Begin(w, t), Processing).0;
    assert ReadJob(Begin(w, t).db) == ReadJob(w.db);
    HealthyCompletes(s, ReadJob(w.db), See(w1, Healthy));
  }
}
