/** What polls with a working database can bring about from an open item: they
    leave no unknown outcome, and some of them climb to the next recreate. */
module HealingReach {
  import opened Basics
  import opened ConnectorNames
  import opened HealingDomain
  import opened HealingWorld
  import opened HealingSteps
  import opened HealingProgress
  import opened HealingFreshNames

  // ---- A working database leaves no unknown outcome --------------------------------------

  /** What every part of a poll keeps when writes succeed. */
  predicate Calm(w: World, w': World) {
    Durable(w') && w'.mem.uncertain == w.mem.uncertain && w'.db.mode == w.db.mode
  }

  lemma CreateCalm(s: Settings, job: Job, w: World, name: Name, offsets: Offsets)
    requires Durable(w)
    ensures Calm(w, CreateReplacement(s, job, w, name, offsets).0)
  {
    hide Project, AuditOf, AddAudit, CreateConnector, PatchOffsets, ResumeConnector, DeleteConnector, IsVersioned;
  }

  lemma RecreateCalm(s: Settings, job: Job, w: World, t: Tick)
    requires Durable(w)
    ensures Calm(w, RecreateWithOffsets(s, job, w, t).0)
  {
    hide Project, AuditOf, AddAudit, Job.ReplacementName, CreateReplacement, StopConnector;
    if t.offsets.OffsetsRead? && t.offsets.offsets.Some? {
      var offsets := t.offsets.offsets;
      var w1 := Captured(job, w, offsets);
      CreateCalm(s, job, w1.(kc := StopConnector(w1.kc, job.name).0), job.ReplacementName(), offsets.value);
    }
  }

  lemma RetryCalm(job: Job, w: World, t: Tick)
    requires Durable(w)
    ensures Calm(w, RetryWithOffsets(job, w, t).0)
  {
    hide Project, AuditOf, AddAudit;
  }

  lemma FreshCalm(s: Settings, job: Job, w: World, t: Tick)
    requires Durable(w)
    ensures Calm(w, RecreateWithoutOffsets(s, job, w, t).0)
  {
    hide Project, AuditOf, AddAudit, Job.ReplacementName;
  }

  lemma DispatchCalm(s: Settings, job: Job, w: World, t: Tick, a: Action)
    requires Durable(w)
    ensures Calm(w, Dispatch(s, job, w, t, a).0)
  {
    hide Project, AuditOf, RecreateWithOffsets, RetryWithOffsets, RecreateWithoutOffsets;
    RecreateCalm(s, job, w, t);
    RetryCalm(job, w, t);
    FreshCalm(s, job, w, t);
  }

  lemma ExecuteCalm(s: Settings, job: Job, w: World, t: Tick, a: Action)
    requires Durable(w) && !w.mem.uncertain
    ensures var (w', d) := Execute(s, job, w, t, a); Calm(w, w') && d.Returned?
    ensures Dispatch(s, job, w, t, a).1.Raised? ==> !Execute(s, job, w, t, a).0.db.Open()
  {
    hide Project, AuditOf, Dispatch;
    DispatchCalm(s, job, w, t, a);
  }

  lemma UnhealthyCalm(s: Settings, job: Job, w: World, t: Tick)
    requires Durable(w) && !w.mem.uncertain
    ensures var (w', d) := HandleUnhealthy(s, job, w, t); Calm(w, w') && d.Returned?
  {
    hide Project, AuditOf, Execute, Decide, Clamp;
    var (seen, confirming) := Observed(s, job, w, t);
    var job' := ObservedJob(s, job, t, confirming);
    ExecuteCalm(s, job', seen, t, Decide(s.policy, job', FailedTasks(t)));
  }

  lemma HealthyCalm(s: Settings, job: Job, w: World)
    requires Durable(w)
    ensures var (w', d) := HandleHealthy(s, job, w); Calm(w, w') && d.Returned?
  {
    hide Project, AuditOf, LatestIn, DeleteAll, Superseded, NoAutomatedStep;
  }

  lemma RetryDueCalm(s: Settings, job: Job, w: World, t: Tick)
    requires Durable(w) && !w.mem.uncertain
    ensures var a := if job.sum.timeouts < MAX_TIMEOUTS then RetryRecreate else Escalate;
            var (w', d) := Execute(s, job, w, t, a); Calm(w, w') && d.Returned?
  {
    hide Execute, Calm;
    ExecuteCalm(s, job, w, t, if job.sum.timeouts < MAX_TIMEOUTS then RetryRecreate else Escalate);
  }

  lemma ProcessCalm(s: Settings, job: Job, w: World, t: Tick)
    requires Durable(w) && !w.mem.uncertain
    ensures var (w', d) := ProcessJob(s, job, w, t); Calm(w, w') && d.Returned?
  {
    hide Project, AuditOf, Execute, HandleUnhealthy, HandleHealthy, WaitUntil, ManagedStopped, LatestIn, Record,
      Quarantine;
    var w1 := See(w, t.health);
    UnhealthyCalm(s, job, w1, t);
    HealthyCalm(s, job, w1);
    RetryDueCalm(s, job, w1, t);
  }

  /** A poll with a working database is quiet and ends with a known outcome. */
  lemma StepCalm(s: Settings, w: World, t: Tick)
    requires t.dbReplies == [] && !w.mem.uncertain
    ensures !Step(s, w, t).mem.uncertain && Step(s, w, t).db.mode == w.db.mode && QuietPoll(s, w, t)
  {
    hide Project, AuditOf, ProcessJob;
    if w.db.Open() {
      ProcessCalm(s, ReadJob(Begin(w, t).db), Complete(Begin(w, t), Processing).0, t);
    }
  }

  lemma {:induction false} ReliableIsUndisturbed(s: Settings, w: World, inputs: seq<Input>)
    requires !w.mem.uncertain && forall i | 0 <= i < |inputs| :: Reliable(inputs[i])
    ensures !Run(s, w, inputs).mem.uncertain && Run(s, w, inputs).db.mode == w.db.mode && Undisturbed(s, w, inputs)
  {
    hide Step, QuietPoll;
    if inputs != [] {
      var front, last := inputs[..|inputs| - 1], inputs[|inputs| - 1];
      ReliableIsUndisturbed(s, w, front);
      var before := Run(s, w, front);
      assert Reliable(last);
      if last.Poll? {
        StepCalm(s, before, last.tick);
      }
      forall i | 0 <= i < |inputs| ensures UndisturbedAt(s, Run(s, w, inputs[..i]), inputs[i]) {
        if i < |front| {
          assert front[..i] == inputs[..i] && front[i] == inputs[i];
        }
      }
    }
  }

  lemma {:induction false} RunConcat(s: Settings, w: World, a: seq<Input>, b: seq<Input>)
    ensures Run(s, w, a + b) == Run(s, Run(s, w, a), b)
  {
    hide Advance;
    if b == [] {
      assert a + b == a;
    } else {
      var front := b[..|b| - 1];
      assert (a + b)[..|a + b| - 1] == a + front;
      RunConcat(s, w, a, front);
    }
  }

  // ---- A poll that acts -----------------------------------------------------------------

  function Delay(s: Settings, w: World): nat {
    var until := WaitUntil(s, ReadJob(w.db));
    if until.Some? && until.value > w.db.now then until.value - w.db.now else 0
  }

  /** A poll after the wait that finds the connector failed, its configuration and
      offsets readable, and the database working. */
  function Push(s: Settings, w: World, kcReplies: seq<Reply>): Tick {
    Tick(Delay(s, w), true, Unhealthy(false), Config(false, true), OffsetsRead(Some(Offsets([7]))),
         w.db.current in w.kc.cluster.stopped, [], kcReplies)
  }

  function Polled(w: World, t: Tick): World {
    See(Complete(Begin(w, t), Processing).0, t.health)
  }

  /** The state and the job that the action of the poll starts from. */
  function Watched(s: Settings, w: World, t: Tick): World {
    Observed(s, ReadJob(w.db), Polled(w, t), t).0
  }

  function Acting(s: Settings, w: World, t: Tick): Job {
    var job := ReadJob(w.db);
    ObservedJob(s, job, t, Observed(s, job, Polled(w, t), t).1)
  }

  predicate Active(w: World) {
    w.db.Open() && !w.mem.uncertain && !LatestIs(Project(w.db.log), TERMINAL)
  }

  lemma PushedJob(s: Settings, w: World, kcReplies: seq<Reply>)
    requires Active(w)
    ensures var t := Push(s, w, kcReplies);
            var job := Acting(s, w, t);
            && job.name == w.db.current && job.mode == w.db.mode && job.sum == Project(w.db.log)
            && job.confirmed && !job.failedTask
            && !Decide(s.policy, job, false).Debounce?
  {
    hide Project, Record, Clamp;
  }

  lemma PushedWorld(s: Settings, w: World, kcReplies: seq<Reply>)
    requires Active(w)
    ensures var w' := Watched(s, w, Push(s, w, kcReplies));
            var s0, s' := Project(w.db.log), Project(w'.db.log);
            && w'.kc == w.kc.(replies := kcReplies) && w'.mem.uncertain == w.mem.uncertain
            && Durable(w') && w'.db.Open() && w'.db.current == w.db.current && w'.db.mode == w.db.mode
            && s' == s0.(observed := s'.observed, confirmed := s'.confirmed, latest := s'.latest)
  {
    hide Project, AuditOf;
  }

  /** Such a poll observes, confirms and acts. */
  lemma PushedStep(s: Settings, w: World, kcReplies: seq<Reply>)
    requires Active(w)
    ensures var t := Push(s, w, kcReplies);
            var job, w1 := Acting(s, w, t), Watched(s, w, t);
            var w2 := Execute(s, job, w1, t, Decide(s.policy, job, false)).0;
            var w' := Step(s, w, t);
            && w' == w2.(db := w2.db.(status := w'.db.status))
            && (w'.db.Open() <==> w2.db.Open())
  {
    hide Project, AuditOf, Execute, Clamp, Decide, Observed, HandleUnhealthy;
    var t := Push(s, w, kcReplies);
    var job, w1 := Acting(s, w, t), Watched(s, w, t);
    PushedJob(s, w, kcReplies);
    PushedWorld(s, w, kcReplies);
    PushedObserves(s, w, t);
    ExecuteCalm(s, job, w1, t, Decide(s.policy, job, false));
    assert ReadJob(Begin(w, t).db) == ReadJob(w.db);
    assert WaitUntil(s, ReadJob(w.db)).Some? ==> Begin(w, t).db.now >= WaitUntil(s, ReadJob(w.db)).value;
    var w0 := Complete(Begin(w, t), Processing).0;
    assert ProcessJob(s, ReadJob(w.db), w0, t)
      == WithFollowup(HandleUnhealthy(s, ReadJob(w.db), Polled(w, t), t), true);
  }

  lemma PushedObserves(s: Settings, w: World, t: Tick)
    requires Active(w) && t.dbReplies == [] && t.health == Unhealthy(false)
    requires !Decide(s.policy, Acting(s, w, t), false).Debounce?
    ensures HandleUnhealthy(s, ReadJob(w.db), Polled(w, t), t)
         == Execute(s, Acting(s, w, t), Watched(s, w, t), t, Decide(s.policy, Acting(s, w, t), false))
  {
    hide Project, AuditOf, Execute, Clamp;
  }

  // ---- Climbing to the next recreate -------------------------------------------------------

  /** The latest row neither names a replacement nor is terminal: the policy climbs. */
  predicate Climbs(s: Summary) {
    s.latest.Some? ==> s.latest.value.kind !in NAMING + TERMINAL && s.latest.value.details.newName.None?
  }

  /** Once the connector restarts are spent, the climb goes on to a recreate. */
  lemma ClimbDecides(p: Policy, job: Job)
    requires Climbs(job.sum) && job.confirmed && !job.failedTask
    ensures Decide(p, job, false) == if job.sum.connectorRestarts < p.connectorRestarts then RestartWholeConnector
                                     else if job.WithOffsetCount() == 0 then Recreate
                                     else FreshOrEscalate(job)
  {
  }

  predicate SameRecreates(s: Summary, s': Summary) {
    && s'.withOffset == s.withOffset && s'.withOffsetFailed == s.withOffsetFailed && s'.timeouts == s.timeouts
    && s'.withoutOffset == s.withoutOffset && s'.withoutOffsetFailed == s.withoutOffsetFailed
  }

  /** Only restarts lie between the two states. */
  predicate SamePlace(w: World, w': World) {
    && Active(w') && Climbs(Project(w'.db.log))
    && w'.kc.cluster == w.kc.cluster && w'.db.current == w.db.current && w'.db.mode == w.db.mode
    && SameRecreates(Project(w.db.log), Project(w'.db.log))
    && Creations(w'.kc.calls) == Creations(w.kc.calls)
  }

  lemma RestartExecutes(s: Settings, job: Job, w: World, t: Tick)
    requires Durable(w) && w.kc.replies == [] && !w.mem.uncertain
    ensures var w' := Execute(s, job, w, t, RestartWholeConnector).0;
            var s0, s' := Project(w.db.log), Project(w'.db.log);
            && w'.db == w.db.(log := w'.db.log, now := w'.db.now) && w'.mem == w.mem
            && w'.kc.cluster == w.kc.cluster && Creations(w'.kc.calls) == Creations(w.kc.calls)
            && s' == s0.(connectorRestarts := s0.connectorRestarts + 1, latest := s'.latest)
            && Climbs(s') && !LatestIs(s', TERMINAL) && s'.latest.Some? && s'.latest.value.at <= w'.db.now
  {
    hide Project, AuditOf, Creations;
    var (kc, d) := RestartConnector(w.kc, job.name, false);
    CreationsIssue(w.kc, kc, RestartAll, job.name, d.Returned?);
  }

  lemma ClimbOnce(s: Settings, w: World)
    requires Active(w) && Climbs(Project(w.db.log))
    requires Project(w.db.log).connectorRestarts < s.policy.connectorRestarts
    ensures var w' := Step(s, w, Push(s, w, []));
            && SamePlace(w, w')
            && Project(w'.db.log).connectorRestarts == Project(w.db.log).connectorRestarts + 1
            && Project(w'.db.log).latest.Some? && Project(w'.db.log).latest.value.at <= w'.db.now
  {
    hide Project, AuditOf, Creations, Execute, Decide, Acting, Watched, Step, Climbs;
    var t := Push(s, w, []);
    var job, w1 := Acting(s, w, t), Watched(s, w, t);
    PushedJob(s, w, []);
    PushedWorld(s, w, []);
    ClimbDecides(s.policy, job);
    PushedStep(s, w, []);
    RestartExecutes(s, job, w1, t);
  }

  /** From every climbing item, polls with a working database spend the restarts that
      are left and change nothing else. */
  lemma {:induction false} Climb(s: Settings, w: World) returns (inputs: seq<Input>)
    requires Active(w) && Climbs(Project(w.db.log))
    ensures forall i | 0 <= i < |inputs| :: Reliable(inputs[i])
    ensures SamePlace(w, Run(s, w, inputs))
    ensures Project(Run(s, w, inputs).db.log).connectorRestarts >= s.policy.connectorRestarts
    decreases s.policy.connectorRestarts - Project(w.db.log).connectorRestarts
  {
    hide Project, Creations, Step, Climbs;
    if Project(w.db.log).connectorRestarts >= s.policy.connectorRestarts {
      inputs := [];
    } else {
      var first := Poll(Push(s, w, []));
      ClimbOnce(s, w);
      var w1 := Step(s, w, first.tick);
      var rest := Climb(s, w1);
      RunAppend(s, w, [], first);
      assert [] + [first] == [first];
      RunConcat(s, w, [first], rest);
      inputs := [first] + rest;
    }
  }
}
