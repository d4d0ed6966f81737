/** What the log of an incident looks like at the end of any run: the order of the
    ladder, the numbering of attempts, and the limits of a restart-only item. */
module HealingHistory {
  import opened Basics
  import opened HealingDomain
  import opened HealingWorld
  import opened HealingSteps
  import opened HealingBudgets
  import opened HealingProgress

  const RESTARTS := {TaskRestart, ConnectorRestart}

  // ---- The audit in terms of rows --------------------------------------------------

  lemma {:induction false} NoCaptures(log: seq<Event>)
    ensures AuditOf(log).captures == 0 <==> (forall i | 0 <= i < |log| :: log[i].kind != OffsetCaptured)
  {
    if log != [] {
      NoCaptures(log[..|log| - 1]);
    }
  }

  lemma {:induction false} NoLateRestarts(log: seq<Event>)
    requires AuditOf(log).lateRestarts == 0
    ensures forall i, j | 0 <= i < j < |log| :: log[i].kind == OffsetCaptured ==> log[j].kind !in RESTARTS
  {
    if log != [] {
      NoLateRestarts(log[..|log| - 1]);
      NoCaptures(log[..|log| - 1]);
    }
  }

  lemma {:induction false} NoEarlyResults(log: seq<Event>)
    requires AuditOf(log).earlyResults == 0
    ensures forall j | 0 <= j < |log| :: log[j].kind in RECREATE_RESULTS ==>
              exists i :: 0 <= i < j && log[i].kind == OffsetCaptured
  {
    if log != [] {
      var front := log[..|log| - 1];
      NoEarlyResults(front);
      NoCaptures(front);
      forall j | 0 <= j < |log| && log[j].kind in RECREATE_RESULTS
        ensures exists i :: 0 <= i < j && log[i].kind == OffsetCaptured
      {
        if j < |front| {
          assert front[j] == log[j];
          var i :| 0 <= i < j && front[i].kind == OffsetCaptured;
          assert log[i] == front[i];
        } else {
          var i :| 0 <= i < |front| && front[i].kind == OffsetCaptured;
          assert log[i] == front[i];
        }
      }
    }
  }

  lemma {:induction false} ConnectorRestartRows(log: seq<Event>)
    ensures |AuditOf(log).connectorAttempts| == Count(log, {ConnectorRestart})
  {
    if log != [] {
      var front, e := log[..|log| - 1], log[|log| - 1];
      assert front + [e] == log;
      ConnectorRestartRows(front);
      CountAppend(front, e, {ConnectorRestart});
    }
  }

  lemma {:induction false} RestartsBeforeCapture(log: seq<Event>)
    requires AuditOf(log).captures <= 1
    ensures forall i | 0 <= i < |log| :: log[i].kind == OffsetCaptured ==>
              Count(log[..i], {ConnectorRestart}) == AuditOf(log).restartsAtCapture
  {
    hide Count;
    if log != [] {
      var front := log[..|log| - 1];
      RestartsBeforeCapture(front);
      NoCaptures(front);
      ConnectorRestartRows(front);
      forall i | 0 <= i < |log| && log[i].kind == OffsetCaptured
        ensures Count(log[..i], {ConnectorRestart}) == AuditOf(log).restartsAtCapture
      {
        if i < |front| {
          assert front[i] == log[i] && front[..i] == log[..i];
        } else {
          assert log[..i] == front;
        }
      }
    }
  }

  /** The attempt numbers of the rows of one kind, in order. */
  function Attempts(log: seq<Event>, kind: EventKind): seq<nat> {
    if log == [] then []
    else (if log[0].kind == kind then [log[0].attempt] else []) + Attempts(log[1..], kind)
  }

  lemma {:induction false} AttemptsAppend(log: seq<Event>, e: Event, kind: EventKind)
    ensures Attempts(log + [e], kind) == Attempts(log, kind) + if e.kind == kind then [e.attempt] else []
  {
    if log == [] {
      assert log + [e] == [e];
    } else {
      assert (log + [e])[1..] == log[1..] + [e];
      AttemptsAppend(log[1..], e, kind);
    }
  }

  lemma {:induction false} AuditAttempts(log: seq<Event>)
    ensures AuditOf(log).observations == Attempts(log, HealthFailureObserved)
    ensures AuditOf(log).taskAttempts == Attempts(log, TaskRestart)
    ensures AuditOf(log).connectorAttempts == Attempts(log, ConnectorRestart)
    ensures AuditOf(log).recoveries == Count(log, {HealingRecovered})
  {
    if log != [] {
      var front, e := log[..|log| - 1], log[|log| - 1];
      assert front + [e] == log;
      AuditAttempts(front);
      AttemptsAppend(front, e, HealthFailureObserved);
      AttemptsAppend(front, e, TaskRestart);
      AttemptsAppend(front, e, ConnectorRestart);
      CountAppend(front, e, {HealingRecovered});
    }
  }

  // ---- Theorems ------------------------------------------------------------------------

  /** Ladder order.  On every run with working persistence, offsets are captured at
      most once, after the connector-restart budget is spent; no restart follows a
      capture or any result of a recreate. */
  lemma LadderOrder(s: Settings, w: World, inputs: seq<Input>)
    requires NewItem(w) && forall i | 0 <= i < |inputs| :: Reliable(inputs[i])
    ensures var log := Run(s, w, inputs).db.log;
            && (forall i | 0 <= i < |log| :: log[i].kind == OffsetCaptured ==>
                  Count(log[..i], {ConnectorRestart}) >= s.policy.connectorRestarts)
            && (forall i, j | 0 <= i < j < |log| ::
                  log[i].kind in RECREATE_RESULTS + {OffsetCaptured} ==> log[j].kind !in RESTARTS)
            && (forall i, j | 0 <= i < j < |log| :: !(log[i].kind == log[j].kind == OffsetCaptured))
  {
    hide Run, Project, AuditOf;
    var log := Run(s, w, inputs).db.log;
    RunOnLadder(s, w, inputs);
    LadderAudit(s.policy, Run(s, w, inputs));
    NoLateRestarts(log);
    NoEarlyResults(log);
    RestartsBeforeCapture(log);
    CapturedOnce(log);
    forall i, j | 0 <= i < j < |log| && log[i].kind in RECREATE_RESULTS
      ensures log[j].kind !in RESTARTS
    {
      var c :| 0 <= c < i && log[c].kind == OffsetCaptured;
    }
    forall i | 0 <= i < |log| && log[i].kind == OffsetCaptured
      ensures AuditOf(log).captures == 1
    {
      NoCaptures(log);
    }
  }

  lemma LadderAudit(p: Policy, w: World)
    requires OnLadder(p, w, p.MaxFailedCount() + 3)
    ensures var a := AuditOf(w.db.log);
            && a.lateRestarts == 0 && a.earlyResults == 0 && a.captures <= 1
            && (a.captures == 1 ==> a.restartsAtCapture >= p.connectorRestarts)
  {
    hide AuditOf, Project;
  }

  lemma {:induction false} CapturedOnce(log: seq<Event>)
    requires AuditOf(log).captures <= 1
    ensures forall i, j | 0 <= i < j < |log| :: !(log[i].kind == log[j].kind == OffsetCaptured)
  {
    if log != [] {
      CapturedOnce(log[..|log| - 1]);
      NoCaptures(log[..|log| - 1]);
    }
  }

  /** The invariants that the history generator checks hold on every run with
      working persistence: the numbering of attempts, the confirmation before any
      restart, and how closed items end. */
  lemma ValidHistory(s: Settings, w: World, inputs: seq<Input>)
    requires NewItem(w) && forall i | 0 <= i < |inputs| :: Reliable(inputs[i])
    ensures var db := Run(s, w, inputs).db;
            var observed, tasks, connectors := Attempts(db.log, HealthFailureObserved), Attempts(db.log, TaskRestart),
                                               Attempts(db.log, ConnectorRestart);
            && (forall i | 0 <= i < |observed| :: observed[i] == Clamp(i + 1, s.policy.MaxFailedCount()))
            && (forall i | 0 <= i < |tasks| :: tasks[i] == i + 1) && |tasks| <= s.policy.taskRestarts
            && (forall i | 0 <= i < |connectors| :: connectors[i] == i + 1)
              && |connectors| <= s.policy.connectorRestarts
            && (|tasks| + |connectors| > 0 ==> Count(db.log, {HealthFailedConfirmed}) == 1)
            && (db.status == Escalated ==>
                  && db.log != [] && db.log[|db.log| - 1].kind in TERMINAL
                  && Count(db.log, {HealingRecovered}) == 0)
            && (db.status == Completed && |tasks| + |connectors| > 0 ==>
                  db.log != [] && db.log[|db.log| - 1].kind == HealingRecovered)
  {
    hide Run, Project, AuditOf, Clamp;
    var w' := Run(s, w, inputs);
    RunOnLadder(s, w, inputs);
    AuditAttempts(w'.db.log);
    ProjectCounts(w'.db.log);
    LogBudgets(s, w, inputs);
    HistoryOf(s.policy, w');
  }

  lemma HistoryOf(p: Policy, w: World)
    requires OnLadder(p, w, p.MaxFailedCount() + 3)
    ensures InOrder(p, Project(w.db.log), AuditOf(w.db.log))
    ensures Project(w.db.log).taskRestarts <= p.taskRestarts
      && Project(w.db.log).connectorRestarts <= p.connectorRestarts
    ensures !w.db.Open() ==> ClosedWell(Project(w.db.log), AuditOf(w.db.log), w.db.status, p.MaxFailedCount() + 3)
  {
    hide Project, AuditOf, InOrder, ClosedWell;
  }

  // ---- Restart-only items -----------------------------------------------------------------

  /** No recreate has left any trace in the log or in the requests. */
  predicate RestartsAlone(w: World) {
    var s, a := Project(w.db.log), AuditOf(w.db.log);
    && w.db.mode == RestartOnly
    && Consistent(s, Climbing) && a.captures == 0
    && (s.latest.Some? ==> s.latest.value.details.original.None? && s.latest.value.details.oldName.None?)
    && forall i | 0 <= i < |w.kc.calls| :: w.kc.calls[i].op in {RestartFailed, RestartAll}
  }

  lemma LogAlone(w: World, kind: EventKind, connector: Name, attempt: nat, details: Details)
    requires RestartsAlone(w) && details.original.None? && details.oldName.None?
    requires kind !in RECREATE_RESULTS + {OffsetCaptured}
    ensures RestartsAlone(Log(w, kind, connector, attempt, details).0)
  {
    hide Project, AuditOf;
  }

  lemma LogAndCompleteAlone(w: World, kind: EventKind, connector: Name, status: Status)
    requires RestartsAlone(w) && kind !in RECREATE_RESULTS + {OffsetCaptured}
    ensures RestartsAlone(LogAndComplete(w, kind, connector, NO_DETAILS, status).0)
  {
    hide Project, AuditOf, Log;
    LogAlone(w, kind, connector, 0, NO_DETAILS);
  }

  lemma RestartAlone(job: Job, w: World, t: Tick, onlyFailed: bool)
    requires RestartsAlone(w)
    ensures RestartsAlone(RestartStep(job, w, t, onlyFailed).0)
  {
    hide Project, AuditOf, Log;
    var w1 := w.(kc := RestartConnector(w.kc, job.name, onlyFailed).0);
    var failedTasks := (t.health.Unhealthy? && t.health.failedTasks) || job.LatestDetails().failedTasks;
    LogAlone(w1, TaskRestart, job.name, job.sum.taskRestarts + 1, NO_DETAILS.(failedTasks := failedTasks));
    LogAlone(w1, ConnectorRestart, job.name, job.sum.connectorRestarts + 1, NO_DETAILS);
  }

  lemma ExecuteAlone(s: Settings, job: Job, w: World, t: Tick, a: Action)
    requires RestartsAlone(w) && job.mode == RestartOnly
    ensures RestartsAlone(Execute(s, job, w, t, a).0)
  {
    hide Project, AuditOf, Log, RestartStep, LogAndComplete, RecreateWithOffsets, RetryWithOffsets,
      RecreateWithoutOffsets, Consistent;
    RestartAlone(job, w, t, true);
    RestartAlone(job, w, t, false);
    LogAndCompleteAlone(w, HealingLevelLimitReached, job.name, Escalated);
    LogAndCompleteAlone(w, HealingEscalated, job.name, Escalated);
    var (w1, d) := Dispatch(s, job, w, t, a);
    LogAndCompleteAlone(w1.(mem := w1.mem.(uncertain := true)), HealingEscalated, job.name, Escalated);
  }

  lemma UnhealthyAlone(s: Settings, job: Job, w: World, t: Tick)
    requires RestartsAlone(w) && job.mode == RestartOnly
    ensures RestartsAlone(HandleUnhealthy(s, job, w, t).0)
  {
    hide Project, AuditOf, Log, Execute, Decide, Clamp, Consistent;
    var failedTasks := t.health.Unhealthy? && t.health.failedTasks;
    var failedCount := Clamp(job.failedCount + 1, s.policy.MaxFailedCount());
    ClampNatural(job.failedCount + 1, s.policy.MaxFailedCount());
    var details := NO_DETAILS.(failedTasks := failedTasks);
    LogAlone(Forget(w), HealthFailureObserved, job.name, failedCount, details);
    var (w1, d1) := Log(Forget(w), HealthFailureObserved, job.name, failedCount, details);
    LogAlone(w1, HealthFailedConfirmed, job.name, 0, NO_DETAILS);
    var confirming := !job.confirmed && (t.alertConfirmed || failedCount >= s.policy.confirmChecks);
    var (w2, d2) := if confirming then Log(w1, HealthFailedConfirmed, job.name, 0, NO_DETAILS)
      else (w1, Returned(true));
    var job2 := job.(failedCount := failedCount, failedTask := failedTasks, confirmed := job.confirmed || confirming);
    ExecuteAlone(s, job2, w2, t, Decide(s.policy, job2, failedTasks));
  }

  lemma HealthyAlone(s: Settings, job: Job, w: World)
    requires RestartsAlone(w) && job.sum == Project(w.db.log)
    ensures RestartsAlone(HandleHealthy(s, job, w).0)
  {
    hide Project, AuditOf, Log, LogAndComplete, Consistent;
    assert Superseded(s, job) == [];
    LogAndCompleteAlone(w, HealingRecovered, job.name, Completed);
  }

  lemma StepAlone(s: Settings, w: World, t: Tick)
    requires RestartsAlone(w)
    ensures RestartsAlone(Step(s, w, t))
  {
    hide Project, AuditOf, Log, LogAndComplete, HandleUnhealthy, HandleHealthy, Execute, WaitUntil, Consistent;
    if w.db.Open() {
      var w0 := Begin(w, t);
      var job := ReadJob(w0.db);
      var (w1, d1) := Complete(w0, Processing);
      var seen := See(w1, t.health);
      LogAndCompleteAlone(w1, HealingEscalated, job.name, Escalated);
      ExecuteAlone(s, job, seen, t, if job.sum.timeouts < MAX_TIMEOUTS then RetryRecreate else Escalate);
      UnhealthyAlone(s, job, seen, t);
      HealthyAlone(s, job, seen);
      var (w2, d2) := if d1.Raised? then (w1, d1) else ProcessJob(s, job, w1, t);
      assert RestartsAlone(w2);
      LogAlone(w2, StateMachineError, job.name, 0, NO_DETAILS);
    }
  }

  /** A restart-only item never captures, creates, stops, patches, resumes or
      deletes, on any run, with process restarts and with any failures. */
  lemma {:induction false} RestartOnlyRun(s: Settings, w: World, inputs: seq<Input>)
    requires NewItem(w) && w.db.mode == RestartOnly
    ensures var w' := Run(s, w, inputs);
            && RestartsAlone(w')
            && forall i | 0 <= i < |w'.kc.calls| :: w'.kc.calls[i].op in {RestartFailed, RestartAll}
  {
    hide Step, Project, AuditOf, Consistent;
    if inputs == [] {
      NewItemAlone(w);
    } else {
      var front := Run(s, w, inputs[..|inputs| - 1]);
      RestartOnlyRun(s, w, inputs[..|inputs| - 1]);
      match inputs[|inputs| - 1]
      case Poll(t) => StepAlone(s, front, t);
      case ProcessRestart =>
    }
  }

  lemma NewItemAlone(w: World)
    requires NewItem(w) && w.db.mode == RestartOnly
    ensures RestartsAlone(w)
  {
    hide Project, AuditOf, Consistent;
    EmptyLog();
    NothingClimbed();
  }

  lemma NothingClimbed()
    ensures Consistent(Summary(0, 0, 0, 0, 0, 0, 0, 0, 0, None), Climbing)
  {
  }
}
