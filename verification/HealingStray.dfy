/** What a process restart may lead to when it forgets an unknown outcome: exactly
    when a connector left running beside the current one is dangerous. */
module HealingStray {
  import opened Basics
  import opened ConnectorNames
  import opened HealingDomain
  import opened HealingWorld
  import opened HealingSteps
  import opened HealingSafety
  import opened HealingProgress
  import opened HealingReach

  function NextName(name: Name): Name {
    NextVersion(name);
    ConnectorNames.Next(name)
  }

  /** The fresh recreate is in budget and its name is free. */
  predicate FreshThreat(job: Job, c: Cluster) {
    job.WithoutOffsetCount() < MAX_WITHOUT_OFFSET && job.ReplacementName() !in c.stopped
  }

  /** The first recreate finds its name free, or fails and is followed by a fresh
      recreate whose name is free, or its create times out on the name of a stopped
      connector, which then becomes the current one and is resumed by the retry. */
  predicate RecreateThreat(job: Job, c: Cluster) {
    var name := job.ReplacementName();
    || name !in c.stopped
    || (job.WithoutOffsetCount() < MAX_WITHOUT_OFFSET && NextName(name) !in c.stopped)
    || (!c.Running(name) && job.sum.timeouts + 1 < MAX_TIMEOUTS)
  }

  /** Automation may still start another connector beside one that runs already. */
  predicate Danger(job: Job, c: Cluster) {
    && job.mode == Recovery
    && if LatestIn(job, TERMINAL + {RecreateWithoutOffset, RecreateWithoutOffsetFailed}) then false
       else if LatestIn(job, {RecreateWithOffsetTimeout}) && job.sum.timeouts < MAX_TIMEOUTS then
         job.LatestDetails().offsets.Some?
       else if LatestIn(job, NAMING) || job.WithOffsetCount() > 0 then FreshThreat(job, c)
       else RecreateThreat(job, c)
  }

  /** Two different connectors of the lineage run. */
  predicate TwoRun(base: string, c: Cluster, m: Name, n: Name) {
    RunningIn(base, c, m) && RunningIn(base, c, n) && m != n
  }

  // ---- A dangerous item: the recreates that start a second connector -----------------------

  lemma FreshStarts(base: string, s: Settings, job: Job, w: World, t: Tick, stray: Name)
    requires Durable(w) && w.kc.replies == [] && t.config == Config(false, true)
    requires RunningIn(base, w.kc.cluster, stray) && stray != job.name && Base(job.ReplacementName()) == base
    requires job.ReplacementName() !in w.kc.cluster.stopped
    ensures var (w', d) := RecreateWithoutOffsets(s, job, w, t);
            d == Returned(true) && TwoRun(base, w'.kc.cluster, stray, job.ReplacementName())
  {
    hide Project, AuditOf, Base, IsVersioned, Job.ReplacementName, Job.OriginalName;
  }

  /** Every request of the saga succeeds. */
  lemma CreateStarts(base: string, s: Settings, job: Job, w: World, name: Name, offsets: Offsets, stray: Name)
    requires Durable(w) && w.kc.replies == []
    requires RunningIn(base, w.kc.cluster, stray) && stray != job.name && Base(name) == base
    requires name !in w.kc.cluster.stopped
    ensures var (w', d) := CreateReplacement(s, job, w, name, offsets);
            d == Returned(true) && TwoRun(base, w'.kc.cluster, stray, name)
  {
    hide Project, AuditOf, AddAudit, Base, IsVersioned, Involved, AbandonReplacement;
  }

  lemma RecreateStarts(base: string, s: Settings, job: Job, w: World, t: Tick, stray: Name)
    requires Durable(w) && w.kc.replies == [] && t.config == Config(false, true)
    requires t.offsets == OffsetsRead(Some(Offsets([7])))
    requires RunningIn(base, w.kc.cluster, stray) && stray != job.name && Base(job.ReplacementName()) == base
    requires job.ReplacementName() !in w.kc.cluster.stopped
    ensures var (w', d) := RecreateWithOffsets(s, job, w, t);
            d == Returned(true) && TwoRun(base, w'.kc.cluster, stray, job.ReplacementName())
  {
    hide Project, AuditOf, AddAudit, Base, Job.ReplacementName, CreateReplacement, TwoRun, FailRecreate, Involved;
    var w1 := Captured(job, w, t.offsets.offsets);
    var w2 := w1.(kc := StopConnector(w1.kc, job.name).0);
    CreateStarts(base, s, job, w2, job.ReplacementName(), Offsets([7]), stray);
  }

  lemma RetryStarts(base: string, job: Job, w: World, t: Tick, stray: Name)
    requires Durable(w) && w.kc.replies == [] && t.config.Config?
    requires t.registered == (job.name in w.kc.cluster.stopped) && job.LatestDetails().offsets.Some?
    requires RunningIn(base, w.kc.cluster, stray) && stray != job.name && Base(job.name) == base
    ensures var (w', d) := RetryWithOffsets(job, w, t);
            d == Returned(true) && TwoRun(base, w'.kc.cluster, stray, job.name)
  {
    hide Project, AuditOf, AddAudit, Base, Job.OriginalName;
  }

  /** The state after a saga that failed to stop the current connector. */
  lemma RecreateNotStopped(s: Settings, job: Job, w: World, t: Tick)
    requires Durable(w) && w.kc.replies == [Fail(false, false)] && t.config == Config(false, true)
    requires t.offsets == OffsetsRead(Some(Offsets([7])))
    ensures var (w', d) := RecreateWithOffsets(s, job, w, t);
            var s0, s' := Project(w.db.log), Project(w'.db.log);
            && d.Returned? && w'.kc.cluster == w.kc.cluster && w'.mem == w.mem
            && w'.db == w.db.(log := w'.db.log, now := w'.db.now)
            && s' == s0.(withOffsetFailed := s0.withOffsetFailed + 1, latest := s'.latest)
            && LatestIs(s', {RecreateWithOffsetFailed})
            && s'.latest.value.details.newName == Some(job.ReplacementName())
  {
    hide Project, AuditOf, AddAudit, Base, Job.ReplacementName, Job.OriginalName;
  }

  /** The state after a saga whose create timed out on a registered name. */
  lemma RecreateTimesOut(s: Settings, job: Job, w: World, t: Tick)
    requires Durable(w) && w.kc.replies == [Ok, Fail(false, true)] && t.config == Config(false, true)
    requires t.offsets == OffsetsRead(Some(Offsets([7])))
    requires job.ReplacementName() in w.kc.cluster.stopped
    ensures var (w', d) := RecreateWithOffsets(s, job, w, t);
            var s0, s' := Project(w.db.log), Project(w'.db.log);
            && d.Returned? && w'.mem == w.mem
            && (forall n :: n != job.name ==> w'.kc.cluster.Running(n) == w.kc.cluster.Running(n))
            && w'.db == w.db.(log := w'.db.log, now := w'.db.now, current := job.ReplacementName())
            && s' == s0.(timeouts := s0.timeouts + 1, latest := s'.latest)
            && LatestIs(s', {RecreateWithOffsetTimeout})
            && s'.latest.value.details.offsets.Some? && s'.latest.value.details.newName == Some(job.ReplacementName())
  {
    hide Project, AuditOf, AddAudit, Base, Job.ReplacementName, Job.OriginalName;
  }

  // ---- A dangerous item: the polls that get there ------------------------------------------

  /** An open item of the lineage with another connector running beside its current one. */
  predicate Strays(base: string, w: World, stray: Name) {
    && Active(w) && w.db.mode == Recovery
    && Base(w.db.current) == base && SeedIn(base, Project(w.db.log))
    && RunningIn(base, w.kc.cluster, stray) && stray != w.db.current
  }

  lemma NextOfSeed(base: string, job: Job)
    requires Base(job.name) == base && SeedIn(base, job.sum)
    ensures Base(job.ReplacementName()) == base
    ensures job.LatestDetails().newName.None? ==> job.ReplacementName() == NextName(job.name) != job.name
    ensures job.LatestDetails().newName.Some? ==>
              var name := job.LatestDetails().newName.value;
              job.ReplacementName() == NextName(name) != name
  {
    hide Base, Sequence, ConnectorNames.Next, IsVersioned;
    ReplacementInLineage(base, job);
    NextVersion(if job.LatestDetails().newName.Some? then job.LatestDetails().newName.value else job.name);
  }

  /** The poll dispatches the fresh recreate. */
  lemma FreshStep(base: string, s: Settings, w: World, stray: Name)
    requires Strays(base, w, stray) && FreshThreat(ReadJob(w.db), w.kc.cluster)
    requires Decide(s.policy, Acting(s, w, Push(s, w, [])), false) == RecreateFresh
    ensures exists n :: TwoRun(base, Step(s, w, Push(s, w, [])).kc.cluster, stray, n)
  {
    hide Project, AuditOf, Decide, Step, Base, Acting, Watched, Job.ReplacementName, RecreateWithoutOffsets, Observed;
    var t := Push(s, w, []);
    var job, w1 := Acting(s, w, t), Watched(s, w, t);
    PushedJob(s, w, []);
    PushedWorld(s, w, []);
    PushedStep(s, w, []);
    SameNames(ReadJob(w.db), job);
    NextOfSeed(base, job);
    FreshStarts(base, s, job, w1, t, stray);
    assert TwoRun(base, Step(s, w, t).kc.cluster, stray, job.ReplacementName());
  }

  lemma SameNames(job: Job, job': Job)
    requires job'.name == job.name && job'.sum == job.sum
    ensures job'.ReplacementName() == job.ReplacementName()
    ensures job'.Kind() == job.Kind() && job'.LatestDetails() == job.LatestDetails()
  {
  }

  lemma RecreateStep(base: string, s: Settings, w: World, stray: Name)
    requires Strays(base, w, stray) && ReadJob(w.db).ReplacementName() !in w.kc.cluster.stopped
    requires Decide(s.policy, Acting(s, w, Push(s, w, [])), false) == Recreate
    ensures exists n :: TwoRun(base, Step(s, w, Push(s, w, [])).kc.cluster, stray, n)
  {
    hide Project, AuditOf, Decide, Step, Base, Acting, Watched, Job.ReplacementName, RecreateWithOffsets, Observed;
    var t := Push(s, w, []);
    var job, w1 := Acting(s, w, t), Watched(s, w, t);
    PushedJob(s, w, []);
    PushedWorld(s, w, []);
    PushedStep(s, w, []);
    SameNames(ReadJob(w.db), job);
    NextOfSeed(base, job);
    RecreateStarts(base, s, job, w1, t, stray);
    assert TwoRun(base, Step(s, w, t).kc.cluster, stray, job.ReplacementName());
  }

  lemma RetryStep(base: string, s: Settings, w: World, stray: Name)
    requires Strays(base, w, stray) && ReadJob(w.db).LatestDetails().offsets.Some?
    requires LatestIs(Project(w.db.log), {RecreateWithOffsetTimeout}) && Project(w.db.log).timeouts < MAX_TIMEOUTS
    ensures exists n :: TwoRun(base, Step(s, w, Push(s, w, [])).kc.cluster, stray, n)
  {
    hide Project, AuditOf, Step, Base, Acting, Watched, RetryWithOffsets, Observed;
    var t := Push(s, w, []);
    var job, w1 := Acting(s, w, t), Watched(s, w, t);
    PushedJob(s, w, []);
    PushedWorld(s, w, []);
    PushedStep(s, w, []);
    SameNames(ReadJob(w.db), job);
    RetryStarts(base, job, w1, t, stray);
    assert TwoRun(base, Step(s, w, t).kc.cluster, stray, job.name);
  }

  /** The poll of a saga that cannot stop the current connector: the replacement name
      is on record, and the fresh recreate comes next. */
  lemma NotStoppedStep(base: string, s: Settings, w: World, stray: Name)
    requires Strays(base, w, stray)
    requires Decide(s.policy, Acting(s, w, Push(s, w, [Fail(false, false)])), false) == Recreate
    ensures var w', name := Step(s, w, Push(s, w, [Fail(false, false)])), ReadJob(w.db).ReplacementName();
            && Strays(base, w', stray) && w'.kc.cluster == w.kc.cluster
            && LatestIs(Project(w'.db.log), {RecreateWithOffsetFailed})
            && ReadJob(w'.db).LatestDetails().newName == Some(name)
            && ReadJob(w'.db).ReplacementName() == NextName(name)
            && ReadJob(w'.db).WithoutOffsetCount() == ReadJob(w.db).WithoutOffsetCount()
  {
    hide Project, AuditOf, Decide, Step, Base, Acting, Watched, Job.ReplacementName, RecreateWithOffsets, Observed;
    var t := Push(s, w, [Fail(false, false)]);
    var job, w1 := Acting(s, w, t), Watched(s, w, t);
    PushedJob(s, w, [Fail(false, false)]);
    PushedWorld(s, w, [Fail(false, false)]);
    PushedStep(s, w, [Fail(false, false)]);
    SameNames(ReadJob(w.db), job);
    RecreateNotStopped(s, job, w1, t);
    NextOfSeed(base, job);
    NextOfSeed(base, ReadJob(Step(s, w, t).db));
  }

  /** The poll of a saga whose create times out on the name of a stopped connector:
      that connector is the current one now, and its retry is pending. */
  lemma TimedOutStep(base: string, s: Settings, w: World, stray: Name)
    requires Strays(base, w, stray) && ReadJob(w.db).ReplacementName() in w.kc.cluster.stopped
    requires ReadJob(w.db).ReplacementName() != stray
    requires Decide(s.policy, Acting(s, w, Push(s, w, [Ok, Fail(false, true)])), false) == Recreate
    requires Project(w.db.log).timeouts + 1 < MAX_TIMEOUTS
    ensures var w' := Step(s, w, Push(s, w, [Ok, Fail(false, true)]));
            && Strays(base, w', stray)
            && LatestIs(Project(w'.db.log), {RecreateWithOffsetTimeout}) && Project(w'.db.log).timeouts < MAX_TIMEOUTS
            && ReadJob(w'.db).LatestDetails().offsets.Some?
  {
    hide Project, AuditOf, Decide, Step, Base, Acting, Watched, Job.ReplacementName, RecreateWithOffsets, Observed;
    var t := Push(s, w, [Ok, Fail(false, true)]);
    var job, w1 := Acting(s, w, t), Watched(s, w, t);
    PushedJob(s, w, [Ok, Fail(false, true)]);
    PushedWorld(s, w, [Ok, Fail(false, true)]);
    PushedStep(s, w, [Ok, Fail(false, true)]);
    SameNames(ReadJob(w.db), job);
    RecreateTimesOut(s, job, w1, t);
    NextOfSeed(base, job);
  }

  /** After the climb the policy takes the recreate that is due. */
  lemma DueRecreate(s: Settings, w: World, kcReplies: seq<Reply>)
    requires Active(w) && Climbs(Project(w.db.log))
    requires Project(w.db.log).connectorRestarts >= s.policy.connectorRestarts
    ensures Decide(s.policy, Acting(s, w, Push(s, w, kcReplies)), false)
         == if ReadJob(w.db).WithOffsetCount() == 0 then Recreate else FreshOrEscalate(ReadJob(w.db))
  {
    hide Project, Decide, Acting, Climbs;
    PushedJob(s, w, kcReplies);
    ClimbDecides(s.policy, Acting(s, w, Push(s, w, kcReplies)));
  }

  /** After a recreate with offset the policy goes on to the fresh one. */
  lemma DueFresh(s: Settings, w: World, kcReplies: seq<Reply>)
    requires Active(w) && ReadJob(w.db).WithoutOffsetCount() < MAX_WITHOUT_OFFSET
    requires LatestIs(Project(w.db.log), NAMING - {RecreateWithoutOffset, RecreateWithoutOffsetFailed})
    requires LatestIs(Project(w.db.log), {RecreateWithOffsetTimeout}) ==> Project(w.db.log).timeouts >= MAX_TIMEOUTS
    ensures Decide(s.policy, Acting(s, w, Push(s, w, kcReplies)), false) == RecreateFresh
  {
    hide Project, Acting;
    PushedJob(s, w, kcReplies);
  }

  /** The two polls of a recreate that fails and a fresh recreate. */
  lemma FailThenFresh(base: string, s: Settings, w: World, stray: Name) returns (inputs: seq<Input>)
    requires Strays(base, w, stray) && ReadJob(w.db).WithoutOffsetCount() < MAX_WITHOUT_OFFSET
    requires Decide(s.policy, Acting(s, w, Push(s, w, [Fail(false, false)])), false) == Recreate
    requires NextName(ReadJob(w.db).ReplacementName()) !in w.kc.cluster.stopped
    ensures forall i | 0 <= i < |inputs| :: Reliable(inputs[i])
    ensures exists n :: TwoRun(base, Run(s, w, inputs).kc.cluster, stray, n)
  {
    hide Project, Decide, Step, Base, Acting, Job.ReplacementName, NextName;
    var first := Input.Poll(Push(s, w, [Fail(false, false)]));
    NotStoppedStep(base, s, w, stray);
    var w1 := Step(s, w, first.tick);
    DueFresh(s, w1, []);
    var second := Input.Poll(Push(s, w1, []));
    FreshStep(base, s, w1, stray);
    TwoPolls(s, w, first, second);
    inputs := [first, second];
  }

  lemma TwoPolls(s: Settings, w: World, first: Input, second: Input)
    ensures Run(s, w, [first]) == Advance(s, w, first)
    ensures Run(s, w, [first, second]) == Advance(s, Advance(s, w, first), second)
  {
    hide Advance;
    RunAppend(s, w, [], first);
    RunAppend(s, w, [first], second);
    assert [] + [first] == [first] && [first] + [second] == [first, second];
  }

  /** The two polls of a create that times out and its retry. */
  lemma TimeOutThenRetry(base: string, s: Settings, w: World, stray: Name) returns (inputs: seq<Input>)
    requires Strays(base, w, stray) && Project(w.db.log).timeouts + 1 < MAX_TIMEOUTS
    requires Decide(s.policy, Acting(s, w, Push(s, w, [Ok, Fail(false, true)])), false) == Recreate
    requires ReadJob(w.db).ReplacementName() in w.kc.cluster.stopped && ReadJob(w.db).ReplacementName() != stray
    ensures forall i | 0 <= i < |inputs| :: Reliable(inputs[i])
    ensures exists n :: TwoRun(base, Run(s, w, inputs).kc.cluster, stray, n)
  {
    hide Project, Decide, Step, Base, Acting, Job.ReplacementName;
    var first := Input.Poll(Push(s, w, [Ok, Fail(false, true)]));
    TimedOutStep(base, s, w, stray);
    var w1 := Step(s, w, first.tick);
    var second := Input.Poll(Push(s, w1, []));
    RetryStep(base, s, w1, stray);
    TwoPolls(s, w, first, second);
    inputs := [first, second];
  }

  /** From a dangerous item whose climb is done. */
  lemma DangerAtTop(base: string, s: Settings, w: World, stray: Name) returns (inputs: seq<Input>)
    requires Strays(base, w, stray) && Danger(ReadJob(w.db), w.kc.cluster)
    requires Climbs(Project(w.db.log)) ==> Project(w.db.log).connectorRestarts >= s.policy.connectorRestarts
    ensures forall i | 0 <= i < |inputs| :: Reliable(inputs[i])
    ensures exists n :: TwoRun(base, Run(s, w, inputs).kc.cluster, stray, n)
  {
    hide Project, Decide, Step, Base, Acting, Job.ReplacementName, Climbs, NextName;
    var job := ReadJob(w.db);
    var push := Input.Poll(Push(s, w, []));
    TwoPolls(s, w, push, push);
    inputs := [push];
    if Climbs(job.sum) {
      ClimbsIsNotNaming(job);
      DueRecreate(s, w, []);
      DueRecreate(s, w, [Fail(false, false)]);
      DueRecreate(s, w, [Ok, Fail(false, true)]);
      if job.WithOffsetCount() > 0 {
        FreshStep(base, s, w, stray);
      } else if job.ReplacementName() !in w.kc.cluster.stopped {
        RecreateStep(base, s, w, stray);
      } else if job.WithoutOffsetCount() < MAX_WITHOUT_OFFSET
        && NextName(job.ReplacementName()) !in w.kc.cluster.stopped {
        inputs := FailThenFresh(base, s, w, stray);
      } else {
        inputs := TimeOutThenRetry(base, s, w, stray);
      }
    } else {
      NamingIfNotClimbs(base, job);
      if LatestIn(job, {RecreateWithOffsetTimeout}) && job.sum.timeouts < MAX_TIMEOUTS {
        RetryStep(base, s, w, stray);
      } else {
        DueFresh(s, w, []);
        FreshStep(base, s, w, stray);
      }
    }
  }

  lemma ClimbsIsNotNaming(job: Job)
    requires Climbs(job.sum)
    ensures !LatestIn(job, NAMING + TERMINAL) && job.LatestDetails().newName.None?
  {
  }

  lemma NamingIfNotClimbs(base: string, job: Job)
    requires SeedIn(base, job.sum) && !Climbs(job.sum) && !LatestIn(job, TERMINAL)
    ensures LatestIn(job, NAMING)
  {
    hide Base;
  }

  /** The climb neither removes nor adds danger. */
  lemma SamePlaceSameDanger(base: string, w: World, w': World, stray: Name)
    requires Strays(base, w, stray) && Climbs(Project(w.db.log)) && SamePlace(w, w')
    ensures Strays(base, w', stray)
    ensures Danger(ReadJob(w'.db), w'.kc.cluster) == Danger(ReadJob(w.db), w.kc.cluster)
  {
    hide Project, Base, NextName, ConnectorNames.Next;
    assert ReadJob(w'.db).ReplacementName() == ReadJob(w.db).ReplacementName();
  }

  /** Danger is real: polls with a working database end with two connectors running. */
  lemma DangerRunsTwo(base: string, s: Settings, w: World, stray: Name) returns (inputs: seq<Input>)
    requires Strays(base, w, stray) && Danger(ReadJob(w.db), w.kc.cluster)
    ensures forall i | 0 <= i < |inputs| :: Reliable(inputs[i])
    ensures !AtMostOne(base, Run(s, w, inputs).kc.cluster)
  {
    hide Project, Danger, Strays, Climbs, SamePlace, RunningIn;
    if Climbs(Project(w.db.log)) {
      assert Active(w) by { StraysIsActive(base, w, stray); }
      var climb := Climb(s, w);
      var w1 := Run(s, w, climb);
      SamePlaceSameDanger(base, w, w1, stray);
      var rest := DangerAtTop(base, s, w1, stray);
      RunConcat(s, w, climb, rest);
      inputs := climb + rest;
    } else {
      inputs := DangerAtTop(base, s, w, stray);
    }
  }

  lemma StraysIsActive(base: string, w: World, stray: Name)
    requires Strays(base, w, stray)
    ensures Active(w)
  {
  }

  // ---- A harmless item: what it stays through every poll ------------------------------------

  /** Nothing but the current connector runs, or no danger comes from what does. */
  ghost predicate Tame(base: string, job: Job, c: Cluster) {
    OnlyRuns(base, c, job.name) || !Danger(job, c)
  }

  ghost predicate Harmless(base: string, w: World) {
    && Safe(base, w)
    && (w.db.Open() ==> !w.mem.uncertain && Tame(base, ReadJob(w.db), w.kc.cluster))
  }

  /** What an action leaves behind when it returns. */
  ghost predicate LeavesTame(base: string, r: (World, Done)) {
    && Safe(base, r.0)
    && (r.1.Returned? && r.0.db.Open() ==> Tame(base, ReadJob(r.0.db), r.0.kc.cluster))
  }

  /** The state an action of a harmless item starts from, with a stray connector. */
  ghost predicate ReadyTame(base: string, job: Job, w: World) {
    && Safe(base, w) && Durable(w)
    && job.name == w.db.current && job.mode == w.db.mode && SeedIn(base, job.sum)
    && SameRecreates(job.sum, Project(w.db.log))
    && !Danger(job, w.kc.cluster)
  }

  lemma CloseTame(base: string, w: World, kind: EventKind, connector: Name)
    requires Safe(base, w) && Durable(w)
    ensures LeavesTame(base, LogAndComplete(w, kind, connector, NO_DETAILS, Escalated))
  {
    hide Safe, LogAndComplete, Tame;
    LogAndCompleteSafe(base, w, kind, connector, Escalated);
    assert LogAndComplete(w, kind, connector, NO_DETAILS, Escalated).1.Returned? ==>
        !LogAndComplete(w, kind, connector, NO_DETAILS, Escalated).0.db.Open();
  }

  /** Rows that only observe or restart leave the danger as it is. */
  lemma SameDanger(job: Job, job': Job, c: Cluster)
    requires Climbs(job.sum) && Climbs(job'.sum) && SameRecreates(job.sum, job'.sum)
    requires job'.name == job.name && job'.mode == job.mode
    ensures Danger(job', c) == Danger(job, c)
  {
    hide ConnectorNames.Next;
    assert job'.ReplacementName() == job.ReplacementName();
  }

  lemma RestartTame(base: string, job: Job, w: World, t: Tick, onlyFailed: bool)
    requires ReadyTame(base, job, w) && Climbs(job.sum)
    ensures LeavesTame(base, RestartStep(job, w, t, onlyFailed))
  {
    hide Safe, Project, AuditOf, Danger, OnlyRuns, AtMostOne, RestartConnector, Log;
    var (kc, d) := RestartConnector(w.kc, job.name, onlyFailed);
    var w1 := w.(kc := kc);
    SafeCluster(base, w);
    IssueSafe(base, w, kc, if onlyFailed then RestartFailed else RestartAll, job.name, d.Returned?);
    var failedTasks := (t.health.Unhealthy? && t.health.failedTasks) || job.LatestDetails().failedTasks;
    LogSafe(base, w1, TaskRestart, job.name, job.sum.taskRestarts + 1, NO_DETAILS.(failedTasks := failedTasks));
    LogSafe(base, w1, ConnectorRestart, job.name, job.sum.connectorRestarts + 1, NO_DETAILS);
    RestartRow(job, w, t, onlyFailed);
    var (w', d') := RestartStep(job, w, t, onlyFailed);
    if d'.Returned? {
      SameDanger(job, ReadJob(w'.db), w.kc.cluster);
    }
  }

  lemma RestartRow(job: Job, w: World, t: Tick, onlyFailed: bool)
    requires SameRecreates(job.sum, Project(w.db.log))
    ensures var (w', d) := RestartStep(job, w, t, onlyFailed);
            && w'.kc.cluster == w.kc.cluster && w'.db.current == w.db.current && w'.db.mode == w.db.mode
            && (d.Returned? ==> Climbs(Project(w'.db.log)) && SameRecreates(job.sum, Project(w'.db.log)))
  {
    hide Project, AuditOf;
  }

  /** A retry whose offsets are lost requests nothing and fails. */
  lemma RetryTame(base: string, job: Job, w: World, t: Tick)
    requires ReadyTame(base, job, w) && job.LatestDetails().offsets.None?
    ensures var r := RetryWithOffsets(job, w, t);
            Safe(base, r.0) && Durable(r.0) && r.1 != Returned(true)
  {
    hide Safe, Project, AuditOf, Danger;
    LogSafe(base, w, RecreateWithOffsetFailed, job.name, job.WithOffsetCount() + 1,
            NO_DETAILS.(original := Some(job.OriginalName())));
  }

  lemma StopSafe(base: string, w: World, name: Name)
    requires Safe(base, w)
    ensures var (kc, ok) := StopConnector(w.kc, name); Safe(base, w.(kc := kc))
  {
    hide Safe, AtMostOne;
    var (kc, ok) := StopConnector(w.kc, name);
    SafeCluster(base, w);
    FewerRun(base, w.kc.cluster, kc.cluster);
    IssueSafe(base, w, kc, StopOp, name, ok);
  }

  /** Creating a registered name raises and changes nothing. */
  lemma ConflictSafe(base: string, w: World, name: Name, retry: bool, running: bool)
    requires Safe(base, w) && name in w.kc.cluster.stopped
    ensures var (kc, d) := CreateConnector(w.kc, name, retry, running);
            Safe(base, w.(kc := kc)) && d.Raised? && kc.cluster == w.kc.cluster
  {
    hide Safe, AtMostOne;
    var (kc, d) := CreateConnector(w.kc, name, retry, running);
    SafeCluster(base, w);
    IssueSafe(base, w, kc, CreateOp(retry, running), name, d.Returned?);
  }

  /** A fresh recreate whose name is taken starts nothing and fails. */
  lemma FreshTame(base: string, s: Settings, job: Job, w: World, t: Tick)
    requires ReadyTame(base, job, w) && job.ReplacementName() in w.kc.cluster.stopped
    ensures var r := RecreateWithoutOffsets(s, job, w, t);
            Safe(base, r.0) && r.1 != Returned(true)
  {
    hide Safe, Project, AuditOf, Danger, Job.ReplacementName, StopConnector, CreateConnector, Record, SeedIn;
    var name := job.ReplacementName();
    assert Base(name) == base by { SafeCluster(base, w); ReplacementInLineage(base, job); }
    var w1 := w.(kc := StopConnector(w.kc, job.name).0);
    StopSafe(base, w, job.name);
    LogSafe(base, w1, RecreateWithoutOffsetFailed, job.name, job.WithoutOffsetCount() + 1, Involved(job, Some(name)));
    ConflictSafe(base, w1, name, false, true);
    var w2 := w1.(kc := CreateConnector(w1.kc, name, false, true).0);
    LogSafe(base, w2, RecreateWithoutOffsetFailed, job.name, job.WithoutOffsetCount() + 1, Involved(job, Some(name)));
  }

  /** The cluster after requests that start and register nothing. */
  ghost predicate Quieter(c: Cluster, c': Cluster) {
    && (forall n :: c'.Running(n) ==> c.Running(n))
    && (forall n :: n in c'.stopped <==> n in c.stopped)
  }

  lemma TameAfterFailure(job: Job, c: Cluster, job': Job, c': Cluster)
    requires Climbs(job.sum) && !RecreateThreat(job, c) && Quieter(c, c')
    requires job'.name == job.name && job'.WithoutOffsetCount() == job.WithoutOffsetCount()
    requires LatestIn(job', {RecreateWithOffsetFailed})
    requires job'.LatestDetails().newName in {None, Some(job.ReplacementName())}
    ensures !Danger(job', c')
  {
    hide ConnectorNames.Next;
    assert job'.ReplacementName() in {job.ReplacementName(), NextName(job.ReplacementName())};
  }

  lemma TameAfterTimeout(base: string, job: Job, c: Cluster, job': Job, c': Cluster)
    requires Climbs(job.sum) && !RecreateThreat(job, c) && Quieter(c, c') && AtMostOne(base, c)
    requires job'.name == job.ReplacementName() && Base(job'.name) == base
    requires job'.WithoutOffsetCount() == job.WithoutOffsetCount() && job'.sum.timeouts == job.sum.timeouts + 1
    requires LatestIn(job', {RecreateWithOffsetTimeout}) && job'.LatestDetails().newName == Some(job.ReplacementName())
    ensures Tame(base, job', c')
  {
    hide ConnectorNames.Next, Base;
    var name := job.ReplacementName();
    assert job'.ReplacementName() == NextName(name);
    if c.Running(name) {
      assert RunningIn(base, c, name);
      forall n | RunningIn(base, c', n) ensures n == name {
        assert RunningIn(base, c, n);
      }
    }
  }

  lemma FailRecreateTame(base: string, job: Job, w: World, c: Cluster, details: Details)
    requires Safe(base, w) && Durable(w) && job.name == w.db.current && Base(job.ReplacementName()) == base
    requires SameRecreates(job.sum, Project(w.db.log)) && Quieter(c, w.kc.cluster)
    requires Climbs(job.sum) && !RecreateThreat(job, c)
    requires details.newName in {None, Some(job.ReplacementName())}
    ensures LeavesTame(base, FailRecreate(job, w, job.name, details))
  {
    hide Safe, Project, AuditOf, Danger, OnlyRuns, RecreateThreat, Quieter, Climbs, Job.ReplacementName, Base;
    LogSafe(base, w, RecreateWithOffsetFailed, job.name, job.WithOffsetCount() + 1, details);
    var w' := FailRecreate(job, w, job.name, details).0;
    TameAfterFailure(job, c, ReadJob(w'.db), w'.kc.cluster);
  }

  /** The rest of a saga whose create finds its name taken. */
  lemma ConflictTame(base: string, s: Settings, job: Job, w: World, c: Cluster, offsets: Offsets)
    requires Safe(base, w) && Durable(w) && job.name == w.db.current && Base(job.ReplacementName()) == base
    requires SameRecreates(job.sum, Project(w.db.log)) && Quieter(c, w.kc.cluster) && AtMostOne(base, c)
    requires Climbs(job.sum) && !RecreateThreat(job, c)
    ensures LeavesTame(base, CreateReplacement(s, job, w, job.ReplacementName(), offsets))
  {
    hide Safe, Project, AuditOf, Danger, OnlyRuns, AtMostOne, Climbs, Job.ReplacementName, CreateConnector,
      FailRecreate, Base, NextName, Involved, Record;
    var name := job.ReplacementName();
    NamesInvolved(job, name);
    ConflictSafe(base, w, name, false, false);
    var (kc, d) := CreateConnector(w.kc, name, false, false);
    var w1 := w.(kc := kc);
    if d.timeout {
      MoveSafe(base, w1, name);
      var w2 := MoveTo(w1, name).0;
      var details := Involved(job, Some(name)).(offsets := Some(offsets));
      LogSafe(base, w2, RecreateWithOffsetTimeout, name, job.sum.timeouts + 1, details);
      var w3 := Log(w2, RecreateWithOffsetTimeout, name, job.sum.timeouts + 1, details).0;
      assert CreateReplacement(s, job, w, name, offsets) == (w3, Returned(false));
      TameAfterTimeout(base, job, c, ReadJob(w3.db), w3.kc.cluster);
    } else {
      FailRecreateTame(base, job, w1, c, Involved(job, Some(name)));
    }
  }

  lemma CapturedTame(base: string, job: Job, w: World, offsets: Option<Offsets>)
    requires Safe(base, w) && Durable(w) && SameRecreates(job.sum, Project(w.db.log))
    ensures var w' := Captured(job, w, offsets);
            && Safe(base, w') && Durable(w') && w'.kc == w.kc && w'.db.current == w.db.current
            && SameRecreates(job.sum, Project(w'.db.log))
  {
    hide Safe, Project, AuditOf;
    LogSafe(base, w, OffsetCaptured, job.name, job.WithOffsetCount() + 1, NO_DETAILS.(offsets := offsets));
  }

  lemma RecreateTame(base: string, s: Settings, job: Job, w: World, t: Tick)
    requires ReadyTame(base, job, w) && Climbs(job.sum) && !RecreateThreat(job, w.kc.cluster)
    ensures LeavesTame(base, RecreateWithOffsets(s, job, w, t))
  {
    hide Safe, Project, AuditOf, Danger, OnlyRuns, AtMostOne, Climbs, RecreateThreat, Job.ReplacementName, Tame, Base,
      FailRecreate, CreateReplacement, StopConnector, SeedIn, SameRecreates, Record, Involved;
    if t.offsets.OffsetsRead? && t.config.Config? {
      var c, name, offsets := w.kc.cluster, job.ReplacementName(), t.offsets.offsets;
      SafeCluster(base, w);
      ReplacementInLineage(base, job);
      CapturedTame(base, job, w, offsets);
      var w1 := Captured(job, w, offsets);
      FailRecreateTame(base, job, w1, c, NO_DETAILS.(original := Some(job.OriginalName()), offsets := offsets));
      NamesInvolved(job, name);
      FailRecreateTame(base, job, w1, c, Involved(job, None));
      var (kc, ok) := StopConnector(w1.kc, job.name);
      StopSafe(base, w1, job.name);
      FailRecreateTame(base, job, w1.(kc := kc), c, Involved(job, Some(name)));
      if offsets.Some? {
        ConflictTame(base, s, job, w1.(kc := kc), c, offsets.value);
      }
    }
  }

  lemma NamesInvolved(job: Job, name: Name)
    ensures Involved(job, None).newName == None && Involved(job, Some(name)).newName == Some(name)
  {
  }

  /** The action of a harmless item with a stray connector. */
  lemma DispatchTame(base: string, s: Settings, job: Job, w: World, t: Tick, a: Action)
    requires ReadyTame(base, job, w)
    requires a in {RestartTasks, RestartWholeConnector, Recreate} ==> Climbs(job.sum)
    requires a == Recreate ==> job.WithOffsetCount() == 0
    requires a == RetryRecreate ==> LatestIn(job, {RecreateWithOffsetTimeout}) && job.sum.timeouts < MAX_TIMEOUTS
    requires a == Action.RecreateFresh ==>
               && job.WithoutOffsetCount() < MAX_WITHOUT_OFFSET && (Climbs(job.sum) ==> job.WithOffsetCount() > 0)
               && !LatestIn(job, {RecreateWithoutOffset, RecreateWithoutOffsetFailed}) && !LatestIn(job, TERMINAL)
               && (LatestIn(job, {RecreateWithOffsetTimeout}) ==> job.sum.timeouts >= MAX_TIMEOUTS)
    ensures LeavesTame(base, Dispatch(s, job, w, t, a))
  {
    hide Project, Safe, RestartStep, RecreateWithOffsets, RetryWithOffsets, RecreateWithoutOffsets, LogAndComplete,
      LeavesTame, Climbs, Job.ReplacementName, NextName, SeedIn, SameRecreates;
    CloseTame(base, w, HealingLevelLimitReached, job.name);
    CloseTame(base, w, HealingEscalated, job.name);
    if job.Level() >= RequiredLevel(a) {
      match a
      case RestartTasks => RestartTame(base, job, w, t, true);
      case RestartWholeConnector => RestartTame(base, job, w, t, false);
      case Recreate =>
        ClimbsIsNotNaming(job);
        RecreateTame(base, s, job, w, t);
      case RetryRecreate =>
        RetryTame(base, job, w, t);
        EscalatedTame(base, job, RetryWithOffsets(job, w, t));
      case RecreateFresh =>
        if Climbs(job.sum) { ClimbsIsNotNaming(job); } else { NamingIfNotClimbs(base, job); }
        FreshTame(base, s, job, w, t);
        FreshCalm(s, job, w, t);
        EscalatedTame(base, job, RecreateWithoutOffsets(s, job, w, t));
      case _ =>
    }
  }

  lemma EscalatedTame(base: string, job: Job, r: (World, Done))
    requires Safe(base, r.0) && Durable(r.0) && r.1 != Returned(true)
    ensures LeavesTame(base, OrEscalate(job, r))
  {
    hide Safe, LogAndComplete, Tame;
    CloseTame(base, r.0, HealingEscalated, job.name);
  }

  lemma ExecuteTame(base: string, s: Settings, job: Job, w: World, t: Tick, a: Action)
    requires Durable(w) && !w.mem.uncertain && LeavesTame(base, Dispatch(s, job, w, t, a))
    ensures Harmless(base, Execute(s, job, w, t, a).0)
  {
    hide Safe, Project, Dispatch, Tame, Quarantine;
    ExecuteCalm(s, job, w, t, a);
    var (w1, d) := Dispatch(s, job, w, t, a);
    if d.Raised? {
      var mem := w1.mem.(uncertain := true);
      MemoryKeepsSafe(base, w1, mem);
      QuarantineSafe(base, job, w1.(mem := mem));
    }
  }

  /** What the policy may decide for an item that is neither closed nor refreshed. */
  lemma Decisions(base: string, p: Policy, job: Job, failedTasks: bool)
    requires SeedIn(base, job.sum)
    ensures var a := Decide(p, job, failedTasks);
            && (a in {Debounce, RestartTasks, RestartWholeConnector, Recreate}
              ==> Climbs(job.sum) || LatestIn(job, TERMINAL))
            && (a == Recreate ==> job.WithOffsetCount() == 0)
            && (a == RetryRecreate ==> LatestIn(job, {RecreateWithOffsetTimeout}) && job.sum.timeouts < MAX_TIMEOUTS)
            && (a == Action.RecreateFresh ==>
                  && job.WithoutOffsetCount() < MAX_WITHOUT_OFFSET && (Climbs(job.sum) ==> job.WithOffsetCount() > 0)
                  && !LatestIn(job, {RecreateWithoutOffset, RecreateWithoutOffsetFailed})
                  && (LatestIn(job, {RecreateWithOffsetTimeout}) ==> job.sum.timeouts >= MAX_TIMEOUTS))
  {
    hide Base;
  }

  /** With a working database an unhealthy check of an item that is not terminal
      observes and then acts. */
  lemma ObservesThenActs(s: Settings, job: Job, w: World, t: Tick)
    requires Durable(w) && !LatestIn(job, TERMINAL)
    ensures var (seen, confirming) := Observed(s, job, w, t);
            var job' := ObservedJob(s, job, t, confirming);
            var a := Decide(s.policy, job', FailedTasks(t));
            HandleUnhealthy(s, job, w, t) == if a.Debounce? then (seen, Returned(true))
              else Execute(s, job', seen, t, a)
  {
    hide Project, AuditOf, Execute, Clamp, ShouldRestartConnector;
  }

  lemma ObservationSafe(base: string, s: Settings, job: Job, w: World, t: Tick)
    requires Safe(base, w)
    ensures Safe(base, Observed(s, job, w, t).0)
  {
    hide Safe, Record, Clamp;
    var w0 := Forget(w);
    MemoryKeepsSafe(base, w, w0.mem);
    var details := NO_DETAILS.(failedTasks := FailedTasks(t));
    LogSafe(base, w0, HealthFailureObserved, job.name, NextCount(s, job), details);
    LogSafe(base, ObservationRow(s, job, w, t), HealthFailedConfirmed, job.name, 0, NO_DETAILS);
  }

  lemma ObservationRowsClimb(s: Settings, job: Job, w: World, t: Tick)
    requires Durable(w)
    ensures var w' := Observed(s, job, w, t).0;
            && Durable(w') && w'.db.status == w.db.status && w'.db.current == w.db.current && w'.db.mode == w.db.mode
            && w'.kc == w.kc && w'.mem.uncertain == w.mem.uncertain
            && Climbs(Project(w'.db.log)) && SameRecreates(Project(w.db.log), Project(w'.db.log))
  {
    hide Project, AuditOf, Clamp;
  }

  lemma DangerOfParts(job: Job, job': Job, c: Cluster)
    requires job'.name == job.name && job'.mode == job.mode && job'.sum == job.sum
    ensures Danger(job', c) == Danger(job, c) && LatestIn(job', TERMINAL) == LatestIn(job, TERMINAL)
  {
    hide ConnectorNames.Next;
    assert job'.ReplacementName() == job.ReplacementName();
  }

  lemma ObservedTame(base: string, s: Settings, job: Job, w: World, t: Tick)
    requires Safe(base, w) && Durable(w) && job == ReadJob(w.db) && !Danger(job, w.kc.cluster)
    ensures var (seen, confirming) := Observed(s, job, w, t);
            ReadyTame(base, ObservedJob(s, job, t, confirming), seen)
  {
    hide Safe, Project, Danger, Record, Clamp, SeedIn;
    ReadJobSeed(base, w);
    ObservationSafe(base, s, job, w, t);
    ObservationRowsClimb(s, job, w, t);
    var (seen, confirming) := Observed(s, job, w, t);
    DangerOfParts(job, ObservedJob(s, job, t, confirming), w.kc.cluster);
  }

  lemma UnhealthyTame(base: string, s: Settings, job: Job, w: World, t: Tick)
    requires Safe(base, w) && Durable(w) && w.db.Open() && !w.mem.uncertain && !LatestIn(job, TERMINAL)
    requires job == ReadJob(w.db) && !Danger(job, w.kc.cluster)
    ensures Harmless(base, HandleUnhealthy(s, job, w, t).0)
  {
    hide Safe, Project, AuditOf, Danger, OnlyRuns, Execute, Dispatch, Decide, Clamp, Observed, Climbs, HandleUnhealthy,
      SameRecreates, SeedIn, LatestIn;
    ReadJobSeed(base, w);
    var (seen, confirming) := Observed(s, job, w, t);
    var job' := ObservedJob(s, job, t, confirming);
    var a := Decide(s.policy, job', FailedTasks(t));
    ObservesThenActs(s, job, w, t);
    ObservedTame(base, s, job, w, t);
    ObservationRowsClimb(s, job, w, t);
    DangerOfParts(job, job', w.kc.cluster);
    Decisions(base, s.policy, job', FailedTasks(t));
    if a.Debounce? {
      SameDanger(job, ReadJob(seen.db), w.kc.cluster);
    } else {
      DispatchTame(base, s, job', seen, t, a);
      ExecuteTame(base, s, job', seen, t, a);
    }
  }

  /** The retry that a poll makes when the connector is not registered. */
  lemma NotCreatedTame(base: string, s: Settings, job: Job, w: World, t: Tick)
    requires Safe(base, w) && Durable(w) && !w.mem.uncertain && job == ReadJob(w.db) && !Danger(job, w.kc.cluster)
    requires LatestIn(job, {RecreateWithOffsetTimeout})
    ensures Harmless(base, Execute(s, job, w, t, if job.sum.timeouts < MAX_TIMEOUTS then RetryRecreate else Escalate).0)
  {
    hide Safe, Project, Danger, Dispatch, Execute, Harmless, SeedIn;
    ReadJobSeed(base, w);
    var a := if job.sum.timeouts < MAX_TIMEOUTS then RetryRecreate else Escalate;
    DispatchTame(base, s, job, w, t, a);
    ExecuteTame(base, s, job, w, t, a);
  }

  lemma HealthyTame(base: string, s: Settings, job: Job, w: World)
    requires Safe(base, w) && Durable(w) && !w.mem.uncertain && job == ReadJob(w.db) && !Danger(job, w.kc.cluster)
    ensures Harmless(base, HandleHealthy(s, job, w).0)
  {
    hide Safe, Project, AuditOf, Danger, DeleteAll, Superseded, NoAutomatedStep, LatestIn, Log, Complete;
    HealthyCalm(s, job, w);
    CompleteSafe(base, w, Completed);
    MemoryKeepsSafe(base, Complete(w, Completed).0, w.mem.(healthySince := None));
    MemoryKeepsSafe(base, w, w.mem.(healthySince := Some(w.db.now)));
    DeleteSupersededSafe(base, w, Superseded(s, job));
    var w1 := w.(kc := DeleteAll(w.kc, Superseded(s, job)));
    LogAndCompleteSafe(base, w1, HealingRecovered, job.name, Completed);
    MemoryKeepsSafe(base, LogAndComplete(w1, HealingRecovered, job.name, NO_DETAILS, Completed).0,
      w.mem.(healthySince := None));
    RecoveredCloses(s, job, w);
  }

  lemma RecoveredCloses(s: Settings, job: Job, w: World)
    requires Durable(w)
    ensures !RecordRecovered(s, job, w).0.db.Open()
  {
    hide Project, AuditOf, DeleteAll, Superseded, NoAutomatedStep;
  }

  lemma ProcessTame(base: string, s: Settings, job: Job, w: World, t: Tick)
    requires Safe(base, w) && Durable(w) && w.db.Open() && !w.mem.uncertain
    requires job == ReadJob(w.db) && !Danger(job, w.kc.cluster)
    ensures Harmless(base, ProcessJob(s, job, w, t).0)
  {
    hide Safe, Project, Danger, OnlyRuns, Execute, HandleUnhealthy, HandleHealthy, WaitUntil, ManagedStopped, LatestIn;
    var w1 := See(w, t.health);
    MemoryKeepsSafe(base, w, w1.mem);
    MemoryKeepsSafe(base, w, w1.mem.(healthySince := None));
    CompleteSafe(base, w, Escalated);
    assert !Complete(w, Escalated).0.db.Open();
    assert ReadJob(w1.db) == job;
    if LatestIn(job, {RecreateWithOffsetTimeout}) {
      NotCreatedTame(base, s, job, w1, t);
    }
    HealthyTame(base, s, job, w1);
    if !LatestIn(job, TERMINAL) {
      UnhealthyTame(base, s, job, w1, t);
    }
  }

  /** A poll with a working database keeps a harmless item harmless. */
  lemma StepHarmless(base: string, s: Settings, w: World, t: Tick)
    requires Harmless(base, w) && t.dbReplies == []
    ensures Harmless(base, Step(s, w, t))
  {
    hide Safe, Project, Danger, OnlyRuns, ProcessJob, Settle;
    if w.db.Open() {
      StepCalm(s, w, t);
      if OnlyRuns(base, w.kc.cluster, w.db.current) {
        StepSafe(base, s, w, t);
      } else {
        var w0 := Begin(w, t);
        var job := ReadJob(w0.db);
        var w1 := Complete(w0, Processing).0;
        BeginSafe(base, w, t);
        CompleteSafe(base, w0, Processing);
        assert job == ReadJob(w.db) == ReadJob(w1.db);
        ProcessTame(base, s, job, w1, t);
        ProcessCalm(s, job, w1, t);
        var (w2, d) := ProcessJob(s, job, w1, t);
        SettleHarmless(base, job, w2, d);
      }
    }
  }

  lemma SettleHarmless(base: string, job: Job, w: World, d: Done)
    requires Harmless(base, w) && d.Returned?
    ensures Harmless(base, Settle(job, w, d))
  {
    hide Safe, Project, OnlyRuns;
    CompleteSafe(base, w, Waiting);
    if w.db.Open() {
      DangerOfParts(ReadJob(w.db), ReadJob(Complete(w, Waiting).0.db), w.kc.cluster);
    }
  }

  lemma {:induction false} RunHarmless(base: string, s: Settings, w: World, inputs: seq<Input>)
    requires Harmless(base, w) && forall i | 0 <= i < |inputs| :: Reliable(inputs[i])
    ensures Harmless(base, Run(s, w, inputs))
  {
    hide Safe, Danger, OnlyRuns, Step, ReadJob;
    if inputs != [] {
      RunHarmless(base, s, w, inputs[..|inputs| - 1]);
      var before, last := Run(s, w, inputs[..|inputs| - 1]), inputs[|inputs| - 1];
      assert Reliable(last);
      match last
      case Poll(t) => StepHarmless(base, s, before, t);
      case ProcessRestart => MemoryKeepsSafe(base, before, Restarted(before).mem);
    }
  }

  // ---- Exactly when a restart is dangerous ---------------------------------------------------

  /** Some continuation with a working database ends with two connectors running. */
  ghost predicate MayRunTwo(base: string, s: Settings, w: World) {
    exists inputs ::
      (forall i | 0 <= i < |inputs| :: Reliable(inputs[i])) && !AtMostOne(base, Run(s, w, inputs).kc.cluster)
  }

  /** After a harmless restart the guarantee holds between all requests, too. */
  lemma HarmlessRestart(base: string, s: Settings, w: World, inputs: seq<Input>)
    requires Safe(base, w) && w.db.Open()
    requires OnlyRuns(base, w.kc.cluster, w.db.current) || !Danger(ReadJob(w.db), w.kc.cluster)
    requires forall i | 0 <= i < |inputs| :: Reliable(inputs[i])
    ensures var w' := Run(s, Restarted(w), inputs);
            && AtMostOne(base, w'.kc.cluster)
            && forall i | 0 <= i < |w'.kc.calls| :: AtMostOne(base, w'.kc.calls[i].after)
  {
    hide Project, Danger, Run, ReadJob, OnlyRuns, AtMostOne;
    MemoryKeepsSafe(base, w, Restarted(w).mem);
    assert ReadJob(Restarted(w).db).name == w.db.current by { ReadJobSeed(base, w); }
    RunHarmless(base, s, Restarted(w), inputs);
  }

  /** Main result, for every open item, known outcome or not: after a process restart,
      polls with a working database can leave two connectors running if and only if
      another connector than the current one runs at the restart and a recreate that
      starts a second one is still open to the item. */
  lemma RestartRunsTwo(base: string, s: Settings, w: World)
    requires Safe(base, w) && w.db.Open()
    ensures MayRunTwo(base, s, Restarted(w))
        <==> !OnlyRuns(base, w.kc.cluster, w.db.current) && Danger(ReadJob(w.db), w.kc.cluster)
  {
    hide Project, Danger, Safe, Run, ReadJob;
    var w' := Restarted(w);
    MemoryKeepsSafe(base, w, w'.mem);
    if !OnlyRuns(base, w.kc.cluster, w.db.current) && Danger(ReadJob(w.db), w.kc.cluster) {
      var stray :| RunningIn(base, w.kc.cluster, stray) && stray != w.db.current;
      DangerStrays(base, w', stray);
      var inputs := DangerRunsTwo(base, s, w', stray);
    } else {
      forall inputs | forall i | 0 <= i < |inputs| :: Reliable(inputs[i])
        ensures AtMostOne(base, Run(s, w', inputs).kc.cluster)
      {
        HarmlessRestart(base, s, w, inputs);
      }
    }
  }

  lemma DangerStrays(base: string, w: World, stray: Name)
    requires Safe(base, w) && w.db.Open() && !w.mem.uncertain && Danger(ReadJob(w.db), w.kc.cluster)
    requires RunningIn(base, w.kc.cluster, stray) && stray != w.db.current
    ensures Strays(base, w, stray)
  {
    hide Project, AtMostOne, Base, FreshThreat, RecreateThreat;
  }

  /** The same for runs: the first restart that strikes an open item, after a run whose
      restarts were clean so far. */
  lemma RestartOfRunRunsTwo(s: Settings, w: World, inputs: seq<Input>)
    requires Start(w) && RestartsAreClean(Base(w.db.current), s, w, inputs) && Run(s, w, inputs).db.Open()
    ensures var base, w' := Base(w.db.current), Run(s, w, inputs);
            MayRunTwo(base, s, Run(s, w, inputs + [ProcessRestart]))
            <==> !OnlyRuns(base, w'.kc.cluster, w'.db.current) && Danger(ReadJob(w'.db), w'.kc.cluster)
  {
    hide Run, Base, Danger, ReadJob, MayRunTwo, OnlyRuns, AtMostOne;
    var base := Base(w.db.current);
    StartIsSafe(base, w);
    RunSafe(base, s, w, inputs);
    RunAppend(s, w, inputs, ProcessRestart);
    RestartRunsTwo(base, s, Run(s, w, inputs));
  }

  lemma StartIsSafe(base: string, w: World)
    requires Start(w) && base == Base(w.db.current)
    ensures Inv(base, w)
  {
    hide Base;
    OnlyIsAtMostOne(base, w.kc.cluster, w.db.current);
  }
}
