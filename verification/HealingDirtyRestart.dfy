/** Where the single-runner guarantee ends: a process restart that loses the
    memory of an action with an unknown outcome. */
module HealingDirtyRestart {
  import opened Basics
  import opened ConnectorNames
  import opened HealingDomain
  import opened HealingWorld
  import opened HealingSteps
  import opened HealingSafety

  const SETTINGS := Settings(PolicyValues(1, 1, 1), false, 0, 0, 0)

  function Poll(health: Health, dbReplies: seq<Reply>): Tick {
    Tick(1, false, health, Config(false, true), OffsetsRead(Some(Offsets([7]))), false, dbReplies, [])
  }

  const RESTART_TICK := Poll(Unhealthy(false), [])

  /** The replacement is up and audited; then the database fails twice, when the
      queue row is moved and when the item is quarantined. */
  const RECREATE_TICK := Poll(Unhealthy(false), [Ok, Ok, Ok, Ok, Fail(false, false), Fail(false, false)])

  const AFTER_RESTART_TICK := Poll(Stopped, [])

  const RUN := [Input.Poll(RESTART_TICK), Input.Poll(RECREATE_TICK), ProcessRestart, Input.Poll(AFTER_RESTART_TICK)]

  function Fresh(c: Name): World {
    World(Db([], Pending, c, Recovery, 0, []),
          Kc(Cluster(map[c := false], map[]), [], []),
          Memory(false, None, []))
  }

  /** Two observations on an empty log confirm the failure; the restart follows. */
  lemma FirstCheck(c: Name, job: Job, w: World)
    requires job == Job(c, Recovery, 0, false, false, true, NO_EVENTS)
    requires w.db.log == [] && w.db.replies == [] && w.kc.replies == []
    ensures var (w', d) := HandleUnhealthy(SETTINGS, job, w, RESTART_TICK);
            && d.Returned? && w'.db == w.db.(log := w'.db.log, now := w.db.now + 3)
            && w'.kc.cluster == w.kc.cluster && w'.mem == Forget(w).mem
            && Project(w'.db.log) == NO_EVENTS.(observed := 1, confirmed := 1, connectorRestarts := 1,
                                                latest := Some(Event(ConnectorRestart, c, w.db.now + 2, 1, NO_DETAILS)))
  {
    hide Project, AuditOf, AddAudit, Execute, RestartStep, Decide;
    assert Project([]) == NO_EVENTS by { EmptyProjection(); }
    var w1 := Log(Forget(w), HealthFailureObserved, c, 1, NO_DETAILS).0;
    var w2 := Log(w1, HealthFailedConfirmed, c, 0, NO_DETAILS).0;
    var job2 := job.(failedCount := 1, failedTask := false, confirmed := true);
    FirstDecision(c, job, job2);
    assert HandleUnhealthy(SETTINGS, job, w, RESTART_TICK)
      == Execute(SETTINGS, job2, w2, RESTART_TICK, RestartWholeConnector);
    FirstRestart(c, job2, w2);
  }

  lemma EmptyProjection()
    ensures Project([]) == NO_EVENTS
  {
  }

  lemma FirstDecision(c: Name, job: Job, job2: Job)
    requires job == Job(c, Recovery, 0, false, false, true, NO_EVENTS)
    requires job2 == job.(failedCount := 1, failedTask := false, confirmed := true)
    ensures Decide(SETTINGS.policy, job2, false) == RestartWholeConnector
    ensures !Decide(SETTINGS.policy, job, false).Stop? && Clamp(1, SETTINGS.policy.MaxFailedCount()) == 1
  {
  }

  lemma FirstRestart(c: Name, job: Job, w: World)
    requires job.name == c && job.sum.connectorRestarts == 0 && job.mode == Recovery
    requires w.db.replies == [] && w.kc.replies == []
    ensures var (w', d) := Execute(SETTINGS, job, w, RESTART_TICK, RestartWholeConnector);
            && d.Returned? && w'.db == w.db.(log := w'.db.log, now := w.db.now + 1)
            && w'.kc.cluster == w.kc.cluster && w'.mem == w.mem
            && Project(w'.db.log) == Add(Project(w.db.log), Event(ConnectorRestart, c, w.db.now, 1, NO_DETAILS))
  {
    hide Project, AuditOf, AddAudit, Add;
  }

  lemma FirstTick(c: Name)
    ensures var w := Step(SETTINGS, Fresh(c), RESTART_TICK);
            && w.db.Open() && w.db.current == c && w.db.mode == Recovery && !w.mem.uncertain
            && w.kc.cluster == Fresh(c).kc.cluster
            && w.db.now >= 3
            && Project(w.db.log) == NO_EVENTS.(observed := 1, confirmed := 1, connectorRestarts := 1,
                                               latest := Some(Event(ConnectorRestart, c, 3, 1, NO_DETAILS)))
  {
    hide Project, AuditOf, HandleUnhealthy;
    EmptyProjection();
    var w0 := Begin(Fresh(c), RESTART_TICK);
    var job := ReadJob(w0.db);
    var w1 := Complete(w0, Processing).0;
    FirstCheck(c, job, See(w1, RESTART_TICK.health));
  }

  const LOST := Fail(false, false)

  /** Every request of the saga succeeds: the replacement runs, the connector is stopped. */
  lemma SagaRequests(c: Name, c1: Name, kc: Kc, offsets: Offsets)
    requires kc.cluster == Fresh(c).kc.cluster && kc.replies == [] && c1 != c
    ensures var (kc1, stopped) := StopConnector(kc, c);
            var (kc2, created) := CreateConnector(kc1, c1, false, false);
            var (kc3, patched) := PatchOffsets(kc2, c1, offsets);
            var (kc4, resumed) := ResumeConnector(kc3, c1);
            && stopped && created.Returned? && patched && resumed && kc4.cluster.stopped == map[c := true, c1 := false]
  {
  }

  /** The audit succeeds, the move of the queue row does not. */
  lemma LastWriteLost(c1: Name, job: Job, w: World)
    requires job.WithOffsetCount() == 0 && w.db.replies == [Ok, LOST, LOST]
    ensures var (w', d) := FinishReplacement(SETTINGS, job, w, c1, RecreateWithOffset, 1);
            && d == Raised(false) && w'.kc == w.kc && w'.mem == w.mem
            && w'.db == w.db.(log := w'.db.log, now := w.db.now + 1, replies := [LOST])
            && Project(w'.db.log)
              == Add(Project(w.db.log), Event(RecreateWithOffset, c1, w.db.now, 1, Involved(job, Some(c1))))
  {
    hide Project, AuditOf, AddAudit, Add, Involved, IsVersioned, DeleteConnector;
    assert Rest(w.db.replies) == [LOST, LOST] && Rest([LOST, LOST]) == [LOST];
  }

  /** The saga brings the replacement up and fails at its very last write. */
  lemma SagaFailsLast(c: Name, c1: Name, job: Job, w: World)
    requires job.name == c && c1 != c && job.ReplacementName() == c1 && job.WithOffsetCount() == 0
    requires w.kc.cluster == Fresh(c).kc.cluster && w.kc.replies == []
    requires w.db.replies == [Ok, Ok, LOST, LOST] && w.db.current == c
    ensures var (w', d) := RecreateWithOffsets(SETTINGS, job, w, RECREATE_TICK);
            && d == Raised(false)
            && w'.kc.cluster.stopped == map[c := true, c1 := false]
            && w'.db == w.db.(log := w'.db.log, now := w.db.now + 2, replies := [LOST])
            && w'.mem == w.mem
            && Project(w'.db.log).latest
              == Some(Event(RecreateWithOffset, c1, w.db.now + 1, 1, Involved(job, Some(c1))))
            && Project(w'.db.log).confirmed == Project(w.db.log).confirmed
            && Project(w'.db.log).withoutOffset == Project(w.db.log).withoutOffset
            && Project(w'.db.log).withoutOffsetFailed == Project(w.db.log).withoutOffsetFailed
  {
    hide Project, AuditOf, AddAudit, Job.ReplacementName, StopConnector, CreateConnector, PatchOffsets, ResumeConnector,
      FinishReplacement, AbandonReplacement, FailRecreate, Involved;
    var offsets := Offsets([7]);
    var w1 := Log(w, OffsetCaptured, c, 1, NO_DETAILS.(offsets := Some(offsets))).0;
    assert w1.db.replies == [Ok, LOST, LOST];
    SagaRequests(c, c1, w1.kc, offsets);
    var kc2 := CreateConnector(StopConnector(w1.kc, c).0, c1, false, false).0;
    var w5 := w1.(kc := ResumeConnector(PatchOffsets(kc2, c1, offsets).0, c1).0);
    LastWriteLost(c1, job, w5);
    assert RecreateWithOffsets(SETTINGS, job, w, RECREATE_TICK)
      == FinishReplacement(SETTINGS, job, w5, c1, RecreateWithOffset, 1);
  }

  /** The second unhealthy check dispatches the saga, and its failure cannot be
      recorded: the item stays open with an unknown outcome. */
  lemma SecondCheck(c: Name, c1: Name, job: Job, w: World)
    requires job.name == w.db.current == c && job.mode == Recovery && job.confirmed && job.failedCount >= 1
    requires job.hasNextStep && !job.failedTask && job.sum.connectorRestarts == 1 && job.WithOffsetCount() == 0
    requires job.Kind() == Some(ConnectorRestart) && job.LatestDetails() == NO_DETAILS
    requires c1 != c && c1 == ConnectorNames.Next(c)
    requires w.kc.cluster == Fresh(c).kc.cluster && w.kc.replies == []
    requires w.db.replies == [Ok, Ok, Ok, LOST, LOST]
    ensures var (w', d) := HandleUnhealthy(SETTINGS, job, w, RECREATE_TICK);
            && d == Raised(false) && w'.mem.uncertain
            && w'.kc.cluster.stopped == map[c := true, c1 := false]
            && w'.db == w.db.(log := w'.db.log, now := w.db.now + 3, replies := [])
            && var s := Project(w'.db.log);
               && s.latest.Some? && s.latest.value.kind == RecreateWithOffset
               && s.latest.value.at == w.db.now + 2
               && s.latest.value.details.newName == Some(c1)
               && s.confirmed == Project(w.db.log).confirmed
               && s.withoutOffset == Project(w.db.log).withoutOffset
               && s.withoutOffsetFailed == Project(w.db.log).withoutOffsetFailed
  {
    hide ConnectorNames.Next, IsVersioned, Base, Project, AuditOf, AddAudit, Add, Execute, Decide, Clamp;
    var t := RECREATE_TICK;
    var failedCount := Clamp(job.failedCount + 1, 3);
    ClampNatural(job.failedCount + 1, 3);
    var w1 := Log(Forget(w), HealthFailureObserved, c, failedCount, NO_DETAILS).0;
    assert w1.db.replies == [Ok, Ok, LOST, LOST];
    var job2 := job.(failedCount := failedCount, failedTask := false);
    SecondDecision(job, job2, failedCount);
    assert HandleUnhealthy(SETTINGS, job, w, t) == Execute(SETTINGS, job2, w1, t, Recreate);
    assert job2.ReplacementName() == c1;
    SecondDispatch(c, c1, job2, w1);
    Observes(w.db.log, Event(HealthFailureObserved, c, w.db.now, failedCount, NO_DETAILS));
  }

  lemma Observes(log: seq<Event>, e: Event)
    requires e.kind == HealthFailureObserved
    ensures Add(Project(log), e) == Project(log).(observed := Project(log).observed + 1, latest := Some(e))
  {
    hide Project;
  }

  lemma SecondDecision(job: Job, job2: Job, failedCount: nat)
    requires job.mode == Recovery && job.confirmed && job.failedCount >= 1 && job.hasNextStep && !job.failedTask
    requires job.sum.connectorRestarts == 1 && job.WithOffsetCount() == 0 && job.Kind() == Some(ConnectorRestart)
    requires failedCount == Clamp(job.failedCount + 1, 3)
      && job2 == job.(failedCount := failedCount, failedTask := false)
    ensures Decide(SETTINGS.policy, job2, false) == Recreate && !Decide(SETTINGS.policy, job, false).Stop?
    ensures SETTINGS.policy.MaxFailedCount() == 3
  {
  }

  /** The failed saga is quarantined, and that cannot be recorded either. */
  lemma SecondDispatch(c: Name, c1: Name, job: Job, w: World)
    requires job.name == c && c1 != c && job.ReplacementName() == c1 && job.WithOffsetCount() == 0
      && job.mode == Recovery
    requires w.kc.cluster == Fresh(c).kc.cluster && w.kc.replies == []
    requires w.db.replies == [Ok, Ok, LOST, LOST] && w.db.current == c
    ensures var (w', d) := Execute(SETTINGS, job, w, RECREATE_TICK, Recreate);
            && d == Raised(false) && w'.mem == w.mem.(uncertain := true)
            && w'.kc.cluster.stopped == map[c := true, c1 := false]
            && w'.db == w.db.(log := w'.db.log, now := w.db.now + 2, replies := [])
            && var s := Project(w'.db.log);
               && s.latest == Some(Event(RecreateWithOffset, c1, w.db.now + 1, 1, Involved(job, Some(c1))))
               && s.confirmed == Project(w.db.log).confirmed
               && s.withoutOffset == Project(w.db.log).withoutOffset
               && s.withoutOffsetFailed == Project(w.db.log).withoutOffsetFailed
  {
    hide RecreateWithOffsets, Project, AuditOf, AddAudit, Add, Job.ReplacementName, Involved;
    SagaFailsLast(c, c1, job, w);
    var w2 := RecreateWithOffsets(SETTINGS, job, w, RECREATE_TICK).0;
    assert Dispatch(SETTINGS, job, w, RECREATE_TICK, Recreate) == (w2, Raised(false));
    var w3 := w2.(mem := w2.mem.(uncertain := true));
    assert Quarantine(job, w3) == (Log(w3, HealingEscalated, c, 0, NO_DETAILS).0, Raised(false));
  }

  lemma SecondTick(c: Name, c1: Name, w: World)
    requires w.db.Open() && w.db.current == c && w.db.mode == Recovery && !w.mem.uncertain
    requires w.kc.cluster == Fresh(c).kc.cluster && w.db.now >= 3
    requires Project(w.db.log) == NO_EVENTS.(observed := 1, confirmed := 1, connectorRestarts := 1,
                                             latest := Some(Event(ConnectorRestart, c, 3, 1, NO_DETAILS)))
    requires c1 != c && c1 == ConnectorNames.Next(c)
    ensures var w' := Step(SETTINGS, w, RECREATE_TICK);
            && w'.db.Open() && w'.db.current == c && w'.db.mode == Recovery && w'.mem.uncertain
            && w'.kc.cluster.stopped == map[c := true, c1 := false]
            && var s := Project(w'.db.log);
               && s.confirmed > 0 && s.withoutOffset == 0 && s.withoutOffsetFailed == 0
               && s.latest.Some? && s.latest.value.kind == RecreateWithOffset
               && s.latest.value.at <= w'.db.now
               && s.latest.value.details.newName == Some(c1)
  {
    hide ConnectorNames.Next, IsVersioned, Base, HandleUnhealthy, Project, AuditOf, AddAudit;
    var t := RECREATE_TICK;
    var w0 := Begin(w, t);
    var job := ReadJob(w0.db);
    var w1 := Complete(w0, Processing).0;
    assert w1.db.replies == [Ok, Ok, Ok, LOST, LOST];
    SecondCheck(c, c1, job, See(w1, t.health));
  }

  /** The fresh recreate stops the connector on record and starts another one. */
  lemma FreshRunsAnother(c: Name, c1: Name, c2: Name, job: Job, w: World)
    requires job.name == c && job.ReplacementName() == c2 && c != c1 && c2 != c && c2 != c1
    requires w.kc.cluster.stopped == map[c := true, c1 := false] && w.kc.replies == [] && w.db.replies == []
    ensures var (w', d) := RecreateWithoutOffsets(SETTINGS, job, w, AFTER_RESTART_TICK);
            d == Returned(true) && w'.kc.cluster.Running(c1) && w'.kc.cluster.Running(c2)
  {
    hide ConnectorNames.Next, IsVersioned, Base, Project, AuditOf, AddAudit, Job.ReplacementName;
    var w1 := w.(kc := StopConnector(w.kc, c).0);
    var w2 := w1.(kc := CreateConnector(w1.kc, c2, false, true).0);
    assert w2.kc.cluster.stopped == map[c := true, c1 := false, c2 := false];
    var w3 := Log(w2, RecreateWithoutOffset, c2, job.WithoutOffsetCount() + 1, Involved(job, Some(c2))).0;
    var w4 := MoveTo(w3, c2).0;
    assert w4.kc == w2.kc;
  }

  lemma LastTick(c: Name, c1: Name, c2: Name, w: World)
    requires w.db.Open() && w.db.current == c && w.db.mode == Recovery && !w.mem.uncertain
    requires w.kc.cluster.stopped == map[c := true, c1 := false]
    requires c != c1 && c2 != c && c2 != c1 && c2 == ConnectorNames.Next(c1)
    requires var s := Project(w.db.log);
             && s.confirmed > 0 && s.withoutOffset == 0 && s.withoutOffsetFailed == 0
             && s.latest.Some? && s.latest.value.kind == RecreateWithOffset
             && s.latest.value.at <= w.db.now
             && s.latest.value.details.newName == Some(c1)
    ensures var c' := Step(SETTINGS, w, AFTER_RESTART_TICK).kc.cluster; c'.Running(c1) && c'.Running(c2)
  {
    hide ConnectorNames.Next, IsVersioned, Base, Project, AuditOf, HandleUnhealthy;
    var t := AFTER_RESTART_TICK;
    var w0 := Begin(w, t);
    var job := ReadJob(w0.db);
    var w1 := Complete(w0, Processing).0;
    LastCheck(c, c1, c2, job, See(w1, t.health));
  }

  lemma LastDecision(job: Job, job2: Job)
    requires job.Kind() == Some(RecreateWithOffset) && job.WithoutOffsetCount() == 0 && job2.sum == job.sum
    ensures Decide(SETTINGS.policy, job2, false) == RecreateFresh && !Decide(SETTINGS.policy, job, job.failedTask).Stop?
  {
  }

  lemma LastCheck(c: Name, c1: Name, c2: Name, job: Job, w: World)
    requires job.name == w.db.current == c && job.mode == Recovery && job.confirmed
    requires job.Kind() == Some(RecreateWithOffset) && job.LatestDetails().newName == Some(c1)
      && job.WithoutOffsetCount() == 0
    requires w.kc.cluster.stopped == map[c := true, c1 := false] && w.kc.replies == [] && w.db.replies == []
    requires c != c1 && c2 != c && c2 != c1 && c2 == ConnectorNames.Next(c1)
    ensures var (w', d) := HandleUnhealthy(SETTINGS, job, w, AFTER_RESTART_TICK);
            d.Returned? && w'.kc.cluster.Running(c1) && w'.kc.cluster.Running(c2)
  {
    hide ConnectorNames.Next, IsVersioned, Base, Project, AuditOf, AddAudit, RecreateWithoutOffsets, Decide, Clamp;
    var t := AFTER_RESTART_TICK;
    var failedCount := Clamp(job.failedCount + 1, 3);
    ClampNatural(job.failedCount + 1, 3);
    var w1 := Log(Forget(w), HealthFailureObserved, c, failedCount, NO_DETAILS).0;
    var job2 := job.(failedCount := failedCount, failedTask := false);
    LastDecision(job, job2);
    assert job2.ReplacementName() == c2;
    FreshRunsAnother(c, c1, c2, job2, w1);
    var w2 := RecreateWithoutOffsets(SETTINGS, job2, w1, t).0;
    assert Dispatch(SETTINGS, job2, w1, t, RecreateFresh) == (w2, Returned(true));
    assert SETTINGS.policy.MaxFailedCount() == 3;
    assert HandleUnhealthy(SETTINGS, job, w, t) == Execute(SETTINGS, job2, w1, t, RecreateFresh);
  }

  /** The guarantee of AtMostOneRuns fails without its condition, for every name:
      two replacements run after a restart that loses an unknown outcome. */
  lemma DirtyRestartRunsTwo(c: Name)
    ensures Start(Fresh(c)) && !RestartsAreClean(Base(c), SETTINGS, Fresh(c), RUN)
    ensures !AtMostOne(Base(c), Run(SETTINGS, Fresh(c), RUN).kc.cluster)
  {
    hide ConnectorNames.Next, IsVersioned, Base, Step, Sequence, Run;
    NextVersion(c);
    var c1: Name := ConnectorNames.Next(c);
    NextVersion(c1);
    var c2: Name := ConnectorNames.Next(c1);
    assert Sequence(c2) == Sequence(c) + 2;
    var w := Fresh(c);
    var w1 := Step(SETTINGS, w, RESTART_TICK);
    var w2 := Step(SETTINGS, w1, RECREATE_TICK);
    var w3 := Restarted(w2);
    var w4 := Step(SETTINGS, w3, AFTER_RESTART_TICK);
    RunAppend(SETTINGS, w, [], RUN[0]);
    RunAppend(SETTINGS, w, RUN[..1], RUN[1]);
    RunAppend(SETTINGS, w, RUN[..2], RUN[2]);
    RunAppend(SETTINGS, w, RUN[..3], RUN[3]);
    assert [] + [RUN[0]] == RUN[..1] && RUN[..1] + [RUN[1]] == RUN[..2];
    assert RUN[..2] + [RUN[2]] == RUN[..3] && RUN[..3] + [RUN[3]] == RUN;
    FirstTick(c);
    SecondTick(c, c1, w1);
    LastTick(c, c1, c2, w3);
    assert RunningIn(Base(c), w2.kc.cluster, c1);
    assert RUN[2].ProcessRestart? && Run(SETTINGS, w, RUN[..2]) == w2 && !RestartIsClean(Base(c), w2);
    assert RunningIn(Base(c), w4.kc.cluster, c1) && RunningIn(Base(c), w4.kc.cluster, c2);
  }
}
