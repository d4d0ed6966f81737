/** Where fresh names end: an error row hides the name on record while a recreate
    is still in budget, and the next create repeats it. */
module HealingNameReuse {
  import opened Basics
  import opened HealingDomain
  import opened HealingWorld
  import opened HealingSteps
  import opened HealingProgress
  import opened HealingFreshNames
  import opened HealingReach
  import opened HealingDirtyRestart

  predicate Created(cs: seq<Creation>, name: Name) {
    exists i | 0 <= i < |cs| :: cs[i].name == name
  }

  /** A recreate of either kind is still open to the item. */
  predicate InBudget(w: World) {
    var job := ReadJob(w.db);
    job.mode == Recovery && (job.WithOffsetCount() == 0 || job.WithoutOffsetCount() < MAX_WITHOUT_OFFSET)
  }

  lemma RepeatedCreation(original: Name, cs: seq<Creation>, name: Name)
    requires Created(cs, name)
    ensures !AllFresh(original, cs + [Creation(name, false)])
  {
    var cs' := cs + [Creation(name, false)];
    assert !cs'[|cs|].retry;
    var i :| 0 <= i < |cs| && cs[i].name == name;
    assert cs'[i].name == cs'[|cs|].name;
  }

  // ---- In budget: the recreate that is due repeats the name ----------------------------------

  lemma RecreateCreates(s: Settings, job: Job, w: World, t: Tick)
    requires Durable(w) && First(w.kc.replies).Ok? && t.config == Config(false, true)
    requires t.offsets == OffsetsRead(Some(Offsets([7])))
    ensures Creations(RecreateWithOffsets(s, job, w, t).0.kc.calls)
         == Creations(w.kc.calls) + [Creation(job.ReplacementName(), false)]
  {
    hide Project, AuditOf, Creations, Job.ReplacementName, CreateReplacement, FailRecreate, Involved;
    var w1 := Captured(job, w, t.offsets.offsets);
    var (kc, ok) := StopConnector(w1.kc, job.name);
    CreationsIssue(w1.kc, kc, StopOp, job.name, ok);
    CreateNames(s, job, w1.(kc := kc), job.ReplacementName(), Offsets([7]));
  }

  lemma FreshCreates(s: Settings, job: Job, w: World, t: Tick)
    requires w.kc.replies == [] && t.config == Config(false, true)
    ensures Creations(RecreateWithoutOffsets(s, job, w, t).0.kc.calls)
         == Creations(w.kc.calls) + [Creation(job.ReplacementName(), false)]
  {
    hide Project, AuditOf, Creations, Job.ReplacementName, FinishReplacement, Involved, Record;
    var name := job.ReplacementName();
    var (kc1, ok) := StopConnector(w.kc, job.name);
    CreationsIssue(w.kc, kc1, StopOp, job.name, ok);
    var (kc2, d) := CreateConnector(kc1, name, false, true);
    CreationsIssue(kc1, kc2, CreateOp(false, true), name, d.Returned?);
    FinishNames(s, job, w.(kc := kc2), name, RecreateWithoutOffset, job.WithoutOffsetCount() + 1);
  }

  /** The creates of a step are those of its action, even when that is quarantined. */
  lemma ExecuteCalls(s: Settings, job: Job, w: World, t: Tick, a: Action)
    ensures Execute(s, job, w, t, a).0.kc == Dispatch(s, job, w, t, a).0.kc
  {
    hide Dispatch, Record;
  }

  /** The poll after the climb creates the successor of the current name. */
  lemma TopCreates(s: Settings, w: World)
    requires Active(w) && Climbs(Project(w.db.log)) && InBudget(w)
    requires Project(w.db.log).connectorRestarts >= s.policy.connectorRestarts
    ensures Creations(Step(s, w, Push(s, w, [])).kc.calls)
         == Creations(w.kc.calls) + [Creation(ReadJob(w.db).ReplacementName(), false)]
  {
    hide Project, AuditOf, Creations, Decide, Step, Acting, Watched, Climbs, Job.ReplacementName,
      RecreateWithOffsets, RecreateWithoutOffsets, LogAndComplete, Execute;
    var t := Push(s, w, []);
    var job, w1 := Acting(s, w, t), Watched(s, w, t);
    PushedJob(s, w, []);
    PushedWorld(s, w, []);
    PushedStep(s, w, []);
    ClimbDecides(s.policy, job);
    SameName(ReadJob(w.db), job);
    ExecuteCalls(s, job, w1, t, Decide(s.policy, job, false));
    if job.WithOffsetCount() == 0 {
      RecreateCreates(s, job, w1, t);
    } else {
      FreshCreates(s, job, w1, t);
      var r := RecreateWithoutOffsets(s, job, w1, t);
      EscalateCalls(job, r);
    }
  }

  lemma EscalateCalls(job: Job, r: (World, Done))
    ensures OrEscalate(job, r).0.kc == r.0.kc
  {
    hide Record;
  }

  lemma SameName(job: Job, job': Job)
    requires job'.name == job.name && job'.sum == job.sum
    ensures job'.ReplacementName() == job.ReplacementName()
  {
  }

  /** In budget: polls with a working database repeat a name. */
  lemma Repeats(original: Name, s: Settings, w: World) returns (inputs: seq<Input>)
    requires Active(w) && Climbs(Project(w.db.log)) && InBudget(w)
    requires Created(Creations(w.kc.calls), ReadJob(w.db).ReplacementName())
    ensures forall i | 0 <= i < |inputs| :: Reliable(inputs[i])
    ensures !AllFresh(original, Creations(Run(s, w, inputs).kc.calls))
  {
    hide Project, Creations, AllFresh, Created, Step, ConnectorNames.Next;
    var climb := Climb(s, w);
    var w1 := Run(s, w, climb);
    assert ReadJob(w1.db).ReplacementName() == ReadJob(w.db).ReplacementName();
    TopCreates(s, w1);
    RepeatedCreation(original, Creations(w1.kc.calls), ReadJob(w1.db).ReplacementName());
    var last := Input.Poll(Push(s, w1, []));
    RunAppend(s, w, climb, last);
    inputs := climb + [last];
  }

  // ---- Out of budget: no create at all, whatever fails ----------------------------------------

  predicate SpentOn(mode: HealingMode, s: Summary) {
    || mode == RestartOnly
    || (&& s.withOffset + s.withOffsetFailed > 0
        && s.withoutOffset + s.withoutOffsetFailed >= MAX_WITHOUT_OFFSET
        && !LatestIs(s, {RecreateWithOffsetTimeout}))
  }

  predicate Spent(w: World) {
    SpentOn(w.db.mode, Project(w.db.log))
  }

  /** No create, and none to come. */
  predicate NothingCreated(w: World, w': World) {
    && w'.db.mode == w.db.mode && Creations(w'.kc.calls) == Creations(w.kc.calls) && Spent(w')
  }

  lemma LogSpent(w: World, kind: EventKind, connector: Name, attempt: nat, details: Details)
    requires Spent(w) && kind !in NAMING
    ensures var w' := Log(w, kind, connector, attempt, details).0;
            NothingCreated(w, w') && w'.kc == w.kc && w'.mem == w.mem
  {
    hide Project, AuditOf, Creations;
  }

  lemma CloseSpent(w: World, kind: EventKind, connector: Name, status: Status)
    requires Spent(w) && kind !in NAMING
    ensures NothingCreated(w, LogAndComplete(w, kind, connector, NO_DETAILS, status).0)
  {
    hide Project, Creations, Log;
    LogSpent(w, kind, connector, 0, NO_DETAILS);
  }

  lemma RestartSpent(job: Job, w: World, t: Tick, onlyFailed: bool)
    requires Spent(w)
    ensures NothingCreated(w, RestartStep(job, w, t, onlyFailed).0)
  {
    hide Project, Creations, Log;
    var (kc, d) := RestartConnector(w.kc, job.name, onlyFailed);
    CreationsIssue(w.kc, kc, if onlyFailed then RestartFailed else RestartAll, job.name, d.Returned?);
    var w1 := w.(kc := kc);
    var failedTasks := (t.health.Unhealthy? && t.health.failedTasks) || job.LatestDetails().failedTasks;
    LogSpent(w1, TaskRestart, job.name, job.sum.taskRestarts + 1, NO_DETAILS.(failedTasks := failedTasks));
    LogSpent(w1, ConnectorRestart, job.name, job.sum.connectorRestarts + 1, NO_DETAILS);
  }

  lemma DispatchSpent(s: Settings, job: Job, w: World, t: Tick, a: Action)
    requires Spent(w) && job.mode == w.db.mode
    requires job.mode == RestartOnly || a !in {Recreate, RetryRecreate, Action.RecreateFresh}
    ensures NothingCreated(w, Dispatch(s, job, w, t, a).0)
  {
    hide NothingCreated, Spent, RestartStep, LogAndComplete, RecreateWithOffsets, RetryWithOffsets,
      RecreateWithoutOffsets;
    CloseSpent(w, HealingLevelLimitReached, job.name, Escalated);
    CloseSpent(w, HealingEscalated, job.name, Escalated);
    RestartSpent(job, w, t, true);
    RestartSpent(job, w, t, false);
  }

  lemma ExecuteSpent(s: Settings, job: Job, w: World, t: Tick, a: Action)
    requires Spent(w) && job.mode == w.db.mode
    requires job.mode == RestartOnly || a !in {Recreate, RetryRecreate, Action.RecreateFresh}
    ensures NothingCreated(w, Execute(s, job, w, t, a).0)
  {
    hide Project, Creations, Dispatch, LogAndComplete;
    DispatchSpent(s, job, w, t, a);
    var w1 := Dispatch(s, job, w, t, a).0;
    CloseSpent(w1.(mem := w1.mem.(uncertain := true)), HealingEscalated, job.name, Escalated);
  }

  lemma SpentDecides(p: Policy, job: Job, failedTasks: bool)
    requires job.mode != RestartOnly && SpentOn(job.mode, job.sum)
    ensures Decide(p, job, failedTasks) !in {Recreate, RetryRecreate, Action.RecreateFresh}
  {
  }

  lemma UnhealthySpent(s: Settings, job: Job, w: World, t: Tick)
    requires Spent(w) && job == ReadJob(w.db)
    ensures NothingCreated(w, HandleUnhealthy(s, job, w, t).0)
  {
    hide Project, Creations, Record, Execute, Decide, Clamp, SpentOn;
    UnhealthyEnds(s, job, w, t);
    var w0 := Forget(w);
    LogSpent(w0, HealthFailureObserved, job.name, NextCount(s, job), NO_DETAILS.(failedTasks := FailedTasks(t)));
    var w1 := ObservationRow(s, job, w, t);
    LogSpent(w1, HealthFailedConfirmed, job.name, 0, NO_DETAILS);
    var (seen, confirming) := Observed(s, job, w, t);
    var job' := ObservedJob(s, job, t, confirming);
    var a := Decide(s.policy, job', FailedTasks(t));
    if job.mode != RestartOnly { SpentDecides(s.policy, job', FailedTasks(t)); }
    ExecuteSpent(s, job', seen, t, a);
  }

  lemma HealthySpent(s: Settings, job: Job, w: World)
    requires Spent(w)
    ensures NothingCreated(w, HandleHealthy(s, job, w).0)
  {
    hide Project, Creations, LogAndComplete, DeleteAll, Superseded, NoAutomatedStep, LatestIn;
    DeleteAllCreations(w.kc, Superseded(s, job));
    CloseSpent(w.(kc := DeleteAll(w.kc, Superseded(s, job))), HealingRecovered, job.name, Completed);
  }

  lemma ProcessSpent(s: Settings, job: Job, w: World, t: Tick)
    requires Spent(w) && job == ReadJob(w.db)
    ensures NothingCreated(w, ProcessJob(s, job, w, t).0)
  {
    hide Project, Creations, LogAndComplete, Execute, HandleUnhealthy, HandleHealthy, WaitUntil, ManagedStopped;
    var w1 := See(w, t.health);
    CloseSpent(w, HealingEscalated, job.name, Escalated);
    UnhealthySpent(s, job, w1, t);
    HealthySpent(s, job, w1);
    if job.mode == RestartOnly {
      ExecuteSpent(s, job, w1, t, if job.sum.timeouts < MAX_TIMEOUTS then RetryRecreate else Escalate);
    }
  }

  lemma StepSpent(s: Settings, w: World, t: Tick)
    requires Spent(w)
    ensures NothingCreated(w, Step(s, w, t))
  {
    hide Project, Creations, ProcessJob, Log, SpentOn;
    if w.db.Open() {
      var w0 := Begin(w, t);
      var job := ReadJob(w0.db);
      var (w1, d1) := Complete(w0, Processing);
      if d1.Returned? {
        assert ReadJob(w1.db) == job;
        ProcessSpent(s, job, w1, t);
      }
      var (w2, d2) := Processed(s, w, t);
      LogSpent(w2, StateMachineError, job.name, 0, NO_DETAILS);
    }
  }

  lemma {:induction false} RunSpent(s: Settings, w: World, inputs: seq<Input>)
    requires Spent(w)
    ensures NothingCreated(w, Run(s, w, inputs))
  {
    hide Project, Creations, Step, SpentOn;
    if inputs != [] {
      RunSpent(s, w, inputs[..|inputs| - 1]);
      var before, last := Run(s, w, inputs[..|inputs| - 1]), inputs[|inputs| - 1];
      if last.Poll? { StepSpent(s, before, last.tick); }
    }
  }

  // ---- Exactly when a name is repeated ---------------------------------------------------------

  /** Some continuation with a working database repeats a name. */
  ghost predicate MayRepeat(original: Name, s: Settings, w: World) {
    exists inputs ::
      (forall i | 0 <= i < |inputs| :: Reliable(inputs[i]))
        && !AllFresh(original, Creations(Run(s, w, inputs).kc.calls))
  }

  /** Main result: an open item with no name on record, whose next name was created
      already, can repeat it if and only if a recreate is still in budget; if none is,
      no run creates anything more, whatever fails. */
  lemma NameRepeats(original: Name, s: Settings, w: World)
    requires Active(w) && Climbs(Project(w.db.log)) && AllFresh(original, Creations(w.kc.calls))
    requires Created(Creations(w.kc.calls), ReadJob(w.db).ReplacementName())
    ensures MayRepeat(original, s, w) <==> InBudget(w)
    ensures !InBudget(w) ==> forall inputs :: Creations(Run(s, w, inputs).kc.calls) == Creations(w.kc.calls)
  {
    hide Project, Creations, AllFresh, Created, Run, Job.ReplacementName;
    if InBudget(w) {
      var inputs := Repeats(original, s, w);
    } else {
      OutOfBudget(w);
      forall inputs ensures Creations(Run(s, w, inputs).kc.calls) == Creations(w.kc.calls) {
        RunSpent(s, w, inputs);
      }
    }
  }

  lemma OutOfBudget(w: World)
    requires !InBudget(w) && Climbs(Project(w.db.log))
    ensures Spent(w)
  {
    hide Project;
  }

  /** A poll whose first write is lost logs an error row, which hides the name on record. */
  lemma LostWriteDisplaces(s: Settings, w: World, t: Tick)
    requires Active(w) && t.dbReplies == [LOST]
    ensures SamePlace(w, Step(s, w, t))
    ensures Project(Step(s, w, t).db.log).connectorRestarts == Project(w.db.log).connectorRestarts
    ensures LatestIs(Project(Step(s, w, t).db.log), {StateMachineError})
  {
    hide Project, AuditOf, Creations;
  }

  /** One lost write after a recreate that failed under its new name: that name can be
      created again exactly if a recreate is in budget. */
  lemma DisplacedNameRepeats(original: Name, s: Settings, w: World, t: Tick, name: Name)
    requires Active(w) && t.dbReplies == [LOST] && name == ConnectorNames.Next(w.db.current)
    requires Named(Project(w.db.log), name) && Created(Creations(w.kc.calls), name)
    requires AllFresh(original, Creations(w.kc.calls))
    ensures MayRepeat(original, s, Step(s, w, t)) <==> InBudget(w)
  {
    hide Project, Creations, AllFresh, Created, Step, ConnectorNames.Next, MayRepeat;
    LostWriteDisplaces(s, w, t);
    var w' := Step(s, w, t);
    if Climbs(Project(w'.db.log)) { NoNameOnRecord(w'); }
    NameRepeats(original, s, w');
  }

  lemma NoNameOnRecord(w: World)
    requires Climbs(Project(w.db.log))
    ensures ReadJob(w.db).ReplacementName() == ConnectorNames.Next(w.db.current)
  {
    hide Project, ConnectorNames.Next;
  }

  // ---- A literal run -----------------------------------------------------------------------------

  /** An unhealthy check with readable configuration and offsets. */
  function Check(dbReplies: seq<Reply>, kcReplies: seq<Reply>): Input {
    Input.Poll(Tick(0, true, Unhealthy(false), Config(false, true), OffsetsRead(Some(Offsets([7]))), true,
                    dbReplies, kcReplies))
  }

  /** The connector is restarted; the saga stops it and loses its create; the next poll
      loses its first write; the last one recreates without offsets. */
  const LOST_CREATE := [Check([], []), Check([], [Ok, LOST]), Check([LOST], []), Check([], [])]

  lemma CreateLost(s: Settings, job: Job, w: World, name: Name, offsets: Offsets)
    requires Durable(w) && w.kc.replies == [LOST]
    ensures var (kc, d) := CreateConnector(w.kc, name, false, false);
            && d == Raised(false) && kc.cluster == w.kc.cluster
            && CreateReplacement(s, job, w, name, offsets)
               == FailRecreate(job, w.(kc := kc), job.name, Involved(job, Some(name)))
  {
    hide FailRecreate, Involved, PatchReplacement, Record;
  }

  lemma SagaLosesCreate(s: Settings, job: Job, w: World, t: Tick)
    requires Durable(w) && w.kc.replies == [Ok, LOST] && t.config == Config(false, true)
    requires t.offsets == OffsetsRead(Some(Offsets([7])))
    ensures var (w', d) := RecreateWithOffsets(s, job, w, t);
            var s0, s' := Project(w.db.log), Project(w'.db.log);
            && d.Returned? && w'.mem == w.mem
            && w'.db == w.db.(log := w'.db.log, now := w'.db.now)
            && s' == s0.(withOffsetFailed := s0.withOffsetFailed + 1, latest := s'.latest)
            && LatestIs(s', {RecreateWithOffsetFailed})
            && forall n :: n in w'.kc.cluster.stopped <==> n in w.kc.cluster.stopped
  {
    hide Project, AuditOf, AddAudit, Job.ReplacementName, Involved, CreateReplacement;
    var w1 := Captured(job, w, t.offsets.offsets);
    var (kc, ok) := StopConnector(w1.kc, job.name);
    CreateLost(s, job, w1.(kc := kc), job.ReplacementName(), Offsets([7]));
  }

  lemma SagaCheck(w: World)
    requires Active(w) && w.db.mode == Recovery && Climbs(Project(w.db.log)) && w.db.current in w.kc.cluster.stopped
    requires Project(w.db.log).latest.Some? && Project(w.db.log).latest.value.at <= w.db.now
    requires Project(w.db.log).connectorRestarts >= 1 && ReadJob(w.db).WithOffsetCount() == 0
    ensures var w' := Step(SETTINGS, w, LOST_CREATE[1].tick);
            var s0, s' := Project(w.db.log), Project(w'.db.log);
            && Active(w') && w'.db.mode == Recovery && w'.db.current == w.db.current
            && w'.db.current in w'.kc.cluster.stopped
            && s'.connectorRestarts == s0.connectorRestarts
            && s'.withoutOffset == s0.withoutOffset && s'.withoutOffsetFailed == s0.withoutOffsetFailed
            && Creations(w'.kc.calls) == Creations(w.kc.calls) + [Creation(ReadJob(w.db).ReplacementName(), false)]
  {
    hide Project, Creations, Decide, Step, Acting, Watched, Climbs, Job.ReplacementName, RecreateWithOffsets;
    var t := LOST_CREATE[1].tick;
    assert t == Push(SETTINGS, w, [Ok, LOST]);
    var job, w1 := Acting(SETTINGS, w, t), Watched(SETTINGS, w, t);
    PushedJob(SETTINGS, w, [Ok, LOST]);
    PushedWorld(SETTINGS, w, [Ok, LOST]);
    PushedStep(SETTINGS, w, [Ok, LOST]);
    ClimbDecides(SETTINGS.policy, job);
    SameName(ReadJob(w.db), job);
    SagaLosesCreate(SETTINGS, job, w1, t);
    RecreateCreates(SETTINGS, job, w1, t);
  }

  lemma FreshIsNew(c: Name)
    ensures var w := Fresh(c);
            Active(w) && Climbs(Project(w.db.log)) && Project(w.db.log) == NO_EVENTS && Creations(w.kc.calls) == []
  {
  }

  /** Fresh names fail without their condition, for every connector name: one lost write
      makes the incident create the same name twice. */
  lemma LostWriteRepeatsName(c: Name)
    ensures var w, name := Fresh(c), ConnectorNames.Next(c);
            && Creations(Run(SETTINGS, w, LOST_CREATE).kc.calls) == [Creation(name, false), Creation(name, false)]
            && !AllFresh(c, Creations(Run(SETTINGS, w, LOST_CREATE).kc.calls))
            && !Undisturbed(SETTINGS, w, LOST_CREATE)
  {
    hide Project, Creations, Step, ConnectorNames.Next, Run, AllFresh;
    var w := Fresh(c);
    FreshIsNew(c);
    assert LOST_CREATE[0].tick == Push(SETTINGS, w, []);
    ClimbOnce(SETTINGS, w);
    var w1 := Step(SETTINGS, w, LOST_CREATE[0].tick);
    SagaCheck(w1);
    var w2 := Step(SETTINGS, w1, LOST_CREATE[1].tick);
    LostWriteDisplaces(SETTINGS, w2, LOST_CREATE[2].tick);
    var w3 := Step(SETTINGS, w2, LOST_CREATE[2].tick);
    NoNameOnRecord(w1);
    NoNameOnRecord(w3);
    assert LOST_CREATE[3].tick == Push(SETTINGS, w3, []);
    TopCreates(SETTINGS, w3);
    var name: Name := ReadJob(w1.db).ReplacementName();
    assert Creations(Step(SETTINGS, w3, LOST_CREATE[3].tick).kc.calls)
      == [Creation(name, false)] + [Creation(name, false)];
    assert Created([Creation(name, false)], name) by { assert [Creation(name, false)][0].name == name; }
    RepeatedCreation(c, [Creation(name, false)], name);
    FourPolls(SETTINGS, w, LOST_CREATE);
    LostWriteIsLoud(SETTINGS, w2);
    Disturbs(SETTINGS, w, LOST_CREATE, 2);
  }

  lemma Disturbs(s: Settings, w: World, inputs: seq<Input>, k: nat)
    requires k < |inputs| && !UndisturbedAt(s, Run(s, w, inputs[..k]), inputs[k])
    ensures !Undisturbed(s, w, inputs)
  {
    hide UndisturbedAt, Run;
  }

  lemma LostWriteIsLoud(s: Settings, w: World)
    requires Active(w)
    ensures !UndisturbedAt(s, w, Check([LOST], []))
  {
    hide Project;
  }

  lemma FourPolls(s: Settings, w: World, inputs: seq<Input>)
    requires |inputs| == 4
    ensures var w2 := Advance(s, Advance(s, w, inputs[0]), inputs[1]);
            && Run(s, w, inputs[..2]) == w2
            && Run(s, w, inputs) == Advance(s, Advance(s, w2, inputs[2]), inputs[3])
  {
    hide Advance;
    RunAppend(s, w, [], inputs[0]);
    RunAppend(s, w, inputs[..1], inputs[1]);
    RunAppend(s, w, inputs[..2], inputs[2]);
    RunAppend(s, w, inputs[..3], inputs[3]);
    assert [] + [inputs[0]] == inputs[..1] && inputs[..1] + [inputs[1]] == inputs[..2];
    assert inputs[..2] + [inputs[2]] == inputs[..3] && inputs[..3] + [inputs[3]] == inputs;
  }
}
