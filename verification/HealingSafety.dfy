/** At most one connector of a lineage runs, after every single request to Kafka
    Connect, whatever the replies and the database do. */
module HealingSafety {
  import opened Basics
  import opened ConnectorNames
  import opened HealingDomain
  import opened HealingWorld
  import opened HealingSteps

  predicate RunningIn(base: string, c: Cluster, n: Name) {
    c.Running(n) && Base(n) == base
  }

  ghost predicate NoneRuns(base: string, c: Cluster) {
    forall n :: !RunningIn(base, c, n)
  }

  ghost predicate OnlyRuns(base: string, c: Cluster, name: Name) {
    forall n :: RunningIn(base, c, n) ==> n == name
  }

  ghost predicate AtMostOne(base: string, c: Cluster) {
    forall m, n :: RunningIn(base, c, m) && RunningIn(base, c, n) ==> m == n
  }

  /** Every cluster state between two requests. */
  ghost predicate CallsSafe(base: string, calls: seq<Call>) {
    forall i | 0 <= i < |calls| :: AtMostOne(base, calls[i].after)
  }

  predicate DetailsIn(base: string, kind: EventKind, d: Details) {
    d.newName.Some? ==> kind in NAMING && Base(d.newName.value) == base
  }

  /** The replacement name on record, if any, is of the lineage. */
  predicate SeedIn(base: string, s: Summary) {
    s.latest.Some? ==> DetailsIn(base, s.latest.value.kind, s.latest.value.details)
  }

  ghost predicate Safe(base: string, w: World) {
    && Base(w.db.current) == base
    && SeedIn(base, Project(w.db.log))
    && CallsSafe(base, w.kc.calls)
    && AtMostOne(base, w.kc.cluster)
  }

  /** As long as automation may continue, only the current connector of the item
      may run. */
  ghost predicate Inv(base: string, w: World) {
    && Safe(base, w)
    && (w.db.Open() && !w.mem.uncertain ==> OnlyRuns(base, w.kc.cluster, w.db.current))
  }

  /** What an action leaves behind when it returns. */
  ghost predicate Settled(base: string, r: (World, Done)) {
    && Safe(base, r.0)
    && (r.1.Returned? && r.0.db.Open() ==> OnlyRuns(base, r.0.kc.cluster, r.0.db.current))
  }

  // ---- Requests ----------------------------------------------------------------

  lemma FewerRun(base: string, c: Cluster, c': Cluster)
    requires forall n :: c'.Running(n) ==> c.Running(n)
    ensures AtMostOne(base, c) ==> AtMostOne(base, c')
    ensures NoneRuns(base, c) ==> NoneRuns(base, c')
    ensures forall name :: OnlyRuns(base, c, name) ==> OnlyRuns(base, c', name)
  {
    assert forall n :: RunningIn(base, c', n) ==> RunningIn(base, c, n);
  }

  lemma StopLeavesNone(base: string, kc: Kc, name: Name)
    requires OnlyRuns(base, kc.cluster, name)
    ensures var (kc', ok) := StopConnector(kc, name);
            && OnlyRuns(base, kc'.cluster, name)
            && (ok ==> NoneRuns(base, kc'.cluster))
  {
    var (kc', ok) := StopConnector(kc, name);
    FewerRun(base, kc.cluster, kc'.cluster);
  }

  lemma CreateAddsOne(base: string, kc: Kc, name: Name, retry: bool, running: bool)
    requires NoneRuns(base, kc.cluster)
    ensures var (kc', d) := CreateConnector(kc, name, retry, running);
            && OnlyRuns(base, kc'.cluster, name)
            && (!running ==> NoneRuns(base, kc'.cluster))
  {
    var (kc', d) := CreateConnector(kc, name, retry, running);
    forall n | RunningIn(base, kc'.cluster, n) ensures n == name && running {
      assert !RunningIn(base, kc.cluster, n);
    }
  }

  lemma PatchRunsNothing(base: string, kc: Kc, name: Name, offsets: Offsets)
    ensures var kc' := PatchOffsets(kc, name, offsets).0;
            && (NoneRuns(base, kc.cluster) ==> NoneRuns(base, kc'.cluster))
            && forall m :: OnlyRuns(base, kc.cluster, m) ==> OnlyRuns(base, kc'.cluster, m)
  {
    FewerRun(base, kc.cluster, PatchOffsets(kc, name, offsets).0.cluster);
  }

  lemma ResumeRunsOne(base: string, kc: Kc, name: Name)
    requires OnlyRuns(base, kc.cluster, name)
    ensures OnlyRuns(base, ResumeConnector(kc, name).0.cluster, name)
  {
    var kc' := ResumeConnector(kc, name).0;
    forall n | RunningIn(base, kc'.cluster, n) ensures n == name {
      assert n != name ==> RunningIn(base, kc.cluster, n);
    }
  }

  lemma DeleteKeepsOthers(base: string, kc: Kc, name: Name)
    ensures forall m :: OnlyRuns(base, kc.cluster, m) ==> OnlyRuns(base, DeleteConnector(kc, name).cluster, m)
    ensures AtMostOne(base, kc.cluster) ==> AtMostOne(base, DeleteConnector(kc, name).cluster)
  {
    FewerRun(base, kc.cluster, DeleteConnector(kc, name).cluster);
  }

  lemma {:induction false} DeleteAllSafe(base: string, kc: Kc, names: seq<Name>)
    requires CallsSafe(base, kc.calls) && AtMostOne(base, kc.cluster)
    ensures var kc' := DeleteAll(kc, names);
            && CallsSafe(base, kc'.calls) && AtMostOne(base, kc'.cluster)
            && forall m :: OnlyRuns(base, kc.cluster, m) ==> OnlyRuns(base, kc'.cluster, m)
    decreases |names|
  {
    if names != [] {
      DeleteKeepsOthers(base, kc, names[0]);
      DeleteAllSafe(base, DeleteConnector(kc, names[0]), names[1..]);
    }
  }

  // ---- Database writes ---------------------------------------------------------

  lemma LogSafe(base: string, w: World, kind: EventKind, connector: Name, attempt: nat, details: Details)
    requires Safe(base, w) && DetailsIn(base, kind, details)
    ensures var (w', d) := Log(w, kind, connector, attempt, details);
            && Safe(base, w') && w'.kc == w.kc && w'.mem == w.mem
            && w'.db.current == w.db.current && w'.db.status == w.db.status
  {
    hide AtMostOne, CallsSafe, Project, Base;
  }

  lemma MoveSafe(base: string, w: World, name: Name)
    requires Safe(base, w) && Base(name) == base
    ensures var (w', d) := MoveTo(w, name);
            && Safe(base, w') && w'.kc == w.kc && w'.mem == w.mem
            && w'.db.status == w.db.status
            && (d.Returned? ==> w'.db.current == name)
  {
    hide AtMostOne, CallsSafe, Project, Base;
  }

  lemma CompleteSafe(base: string, w: World, status: Status)
    requires Safe(base, w)
    ensures var (w', d) := Complete(w, status);
            && Safe(base, w') && w'.kc == w.kc && w'.mem == w.mem
            && w'.db.current == w.db.current
            && (w'.db.status == status || w'.db.status == w.db.status)
            && (d.Returned? ==> w'.db.status == status)
  {
    hide AtMostOne, CallsSafe, Project, Base;
  }

  lemma IssueSafe(base: string, w: World, kc: Kc, op: Op, name: Name, ok: bool)
    requires Safe(base, w) && AtMostOne(base, kc.cluster)
    requires kc == Issue(w.kc, op, name, ok, kc.cluster)
    ensures Safe(base, w.(kc := kc))
  {
    hide AtMostOne, Project, Base;
  }

  // ---- Actions -------------------------------------------------------------------

  lemma AbandonSafe(base: string, job: Job, w: World, name: Name, kind: EventKind)
    requires Safe(base, w) && OnlyRuns(base, w.kc.cluster, name) && Base(name) == base
    requires kind in NAMING
    ensures Settled(base, AbandonReplacement(job, w, name, kind))
  {
    hide Safe, OnlyRuns, Base, Log, MoveTo;
    var details := Involved(job, Some(name));
    MoveSafe(base, w, name);
    var (w1, _) := MoveTo(w, name);
    LogSafe(base, w1, kind, name, job.WithOffsetCount() + 1, details);
    var (w2, _) := Log(w1, kind, name, job.WithOffsetCount() + 1, details);
    LogSafe(base, w2, RecreateWithOffsetFailed, name, job.WithOffsetCount() + 1, details);
  }

  lemma FinishSafe(base: string, s: Settings, job: Job, w: World, name: Name, kind: EventKind, attempt: nat)
    requires Safe(base, w) && OnlyRuns(base, w.kc.cluster, name) && Base(name) == base
    requires kind in NAMING
    ensures Settled(base, FinishReplacement(s, job, w, name, kind, attempt))
  {
    hide Safe, OnlyRuns, AtMostOne, Base, Log, MoveTo, DeleteConnector, IsVersioned;
    LogSafe(base, w, kind, name, attempt, Involved(job, Some(name)));
    var (w1, _) := Log(w, kind, name, attempt, Involved(job, Some(name)));
    MoveSafe(base, w1, name);
    var (w2, _) := MoveTo(w1, name);
    DeleteKeepsOthers(base, w2.kc, job.name);
    var kc := DeleteConnector(w2.kc, job.name);
    SafeCluster(base, w2);
    IssueSafe(base, w2, kc, DeleteOp, job.name, First(w2.kc.replies).Ok?);
  }

  lemma SafeCluster(base: string, w: World)
    requires Safe(base, w)
    ensures AtMostOne(base, w.kc.cluster) && Base(w.db.current) == base
  {
  }

  lemma OnlyIsAtMostOne(base: string, c: Cluster, name: Name)
    requires OnlyRuns(base, c, name) || NoneRuns(base, c)
    ensures AtMostOne(base, c)
    ensures NoneRuns(base, c) ==> forall m :: OnlyRuns(base, c, m)
  {
  }

  lemma ResumeSafe(base: string, s: Settings, job: Job, w: World, name: Name)
    requires Safe(base, w) && NoneRuns(base, w.kc.cluster) && Base(name) == base
    ensures Settled(base, ResumeReplacement(s, job, w, name))
  {
    hide Safe, OnlyRuns, NoneRuns, AtMostOne, Base, Settled, ResumeConnector, AbandonReplacement, FinishReplacement;
    var (kc, ok) := ResumeConnector(w.kc, name);
    var w1 := w.(kc := kc);
    OnlyIsAtMostOne(base, w.kc.cluster, name);
    ResumeRunsOne(base, w.kc, name);
    OnlyIsAtMostOne(base, kc.cluster, name);
    IssueSafe(base, w, kc, ResumeOp, name, ok);
    if ok {
      FinishSafe(base, s, job, w1, name, RecreateWithOffset, job.WithOffsetCount() + 1);
    } else {
      AbandonSafe(base, job, w1, name, ConnectorResumeFailed);
    }
  }

  lemma PatchSafe(base: string, s: Settings, job: Job, w: World, name: Name, offsets: Offsets)
    requires Safe(base, w) && NoneRuns(base, w.kc.cluster) && Base(name) == base
    ensures Settled(base, PatchReplacement(s, job, w, name, offsets))
  {
    hide Safe, OnlyRuns, NoneRuns, AtMostOne, Base, Settled, PatchOffsets, AbandonReplacement, ResumeReplacement;
    var (kc, ok) := PatchOffsets(w.kc, name, offsets);
    var w1 := w.(kc := kc);
    PatchRunsNothing(base, w.kc, name, offsets);
    OnlyIsAtMostOne(base, kc.cluster, name);
    IssueSafe(base, w, kc, PatchOp, name, ok);
    if ok {
      ResumeSafe(base, s, job, w1, name);
    } else {
      AbandonSafe(base, job, w1, name, OffsetPatchFailed);
    }
  }

  lemma CreateSafe(base: string, s: Settings, job: Job, w: World, name: Name, offsets: Offsets)
    requires Safe(base, w) && NoneRuns(base, w.kc.cluster) && Base(name) == base
    ensures Settled(base, CreateReplacement(s, job, w, name, offsets))
  {
    hide Safe, OnlyRuns, NoneRuns, AtMostOne, Base, CreateConnector, Log, MoveTo, PatchReplacement;
    var (kc, d) := CreateConnector(w.kc, name, false, false);
    var w1 := w.(kc := kc);
    CreateAddsOne(base, w.kc, name, false, false);
    OnlyIsAtMostOne(base, kc.cluster, name);
    IssueSafe(base, w, kc, CreateOp(false, false), name, d.Returned?);
    if d.Returned? {
      PatchSafe(base, s, job, w1, name, offsets);
    } else if d.timeout {
      MoveSafe(base, w1, name);
      var (w2, _) := MoveTo(w1, name);
      LogSafe(base, w2, RecreateWithOffsetTimeout, name, job.sum.timeouts + 1,
              Involved(job, Some(name)).(offsets := Some(offsets)));
    } else {
      LogSafe(base, w1, RecreateWithOffsetFailed, job.name, job.WithOffsetCount() + 1, Involved(job, Some(name)));
    }
  }

  /** What every action may rely on. */
  ghost predicate Ready(base: string, job: Job, w: World) {
    && Safe(base, w)
    && OnlyRuns(base, w.kc.cluster, w.db.current)
    && job.name == w.db.current
    && SeedIn(base, job.sum)
  }

  lemma ReplacementInLineage(base: string, job: Job)
    requires Base(job.name) == base && SeedIn(base, job.sum)
    ensures Base(job.ReplacementName()) == base
  {
    hide Base, ConnectorNames.Next, IsVersioned;
    var d := job.LatestDetails();
    NextVersion(if d.newName.Some? then d.newName.value else job.name);
  }

  lemma RecreateSafe(base: string, s: Settings, job: Job, w: World, t: Tick)
    requires Ready(base, job, w)
    ensures Settled(base, RecreateWithOffsets(s, job, w, t))
  {
    hide Safe, OnlyRuns, NoneRuns, AtMostOne, Base, SeedIn, StopConnector, Log, CreateReplacement,
      Job.ReplacementName;
    if t.offsets.OffsetsRead? && t.config.Config? {
      var captured := t.offsets.offsets;
      var attempt := job.WithOffsetCount() + 1;
      var details := NO_DETAILS.(offsets := captured);
      LogSafe(base, w, OffsetCaptured, job.name, attempt, details);
      var (w1, d1) := Log(w, OffsetCaptured, job.name, attempt, details);
      LogSafe(base, w1, RecreateWithOffsetFailed, job.name, attempt,
              NO_DETAILS.(original := Some(job.OriginalName()), offsets := captured));
      LogSafe(base, w1, RecreateWithOffsetFailed, job.name, attempt, Involved(job, None));
      SafeCluster(base, w1);
      ReplacementInLineage(base, job);
      var name := job.ReplacementName();
      var (kc, ok) := StopConnector(w1.kc, job.name);
      var w2 := w1.(kc := kc);
      StopLeavesNone(base, w1.kc, job.name);
      OnlyIsAtMostOne(base, kc.cluster, job.name);
      IssueSafe(base, w1, kc, StopOp, job.name, ok);
      LogSafe(base, w2, RecreateWithOffsetFailed, job.name, attempt, Involved(job, Some(name)));
      if ok && captured.Some? {
        CreateSafe(base, s, job, w2, name, captured.value);
      }
    }
  }

  lemma LogRetrySafe(base: string, job: Job, w: World, kind: EventKind, attempt: nat)
    requires Safe(base, w) && OnlyRuns(base, w.kc.cluster, w.db.current) && job.name == w.db.current
    requires kind in NAMING
    ensures Settled(base, LogRetry(job, w, kind, attempt))
  {
    hide Safe, OnlyRuns, AtMostOne, Base, Log;
    SafeCluster(base, w);
    LogSafe(base, w, kind, job.name, attempt, Involved(job, Some(job.name)).(oldName := job.LatestDetails().oldName));
  }

  lemma CompleteRetrySafe(base: string, job: Job, w: World, offsets: Offsets)
    requires Safe(base, w) && NoneRuns(base, w.kc.cluster) && job.name == w.db.current
    ensures Settled(base, CompleteRetry(job, w, offsets))
  {
    hide Safe, OnlyRuns, NoneRuns, AtMostOne, Base, PatchOffsets, ResumeConnector, Log, LogRetry;
    SafeCluster(base, w);
    var (kc1, patched) := PatchOffsets(w.kc, job.name, offsets);
    var w1 := w.(kc := kc1);
    PatchRunsNothing(base, w.kc, job.name, offsets);
    OnlyIsAtMostOne(base, kc1.cluster, job.name);
    IssueSafe(base, w, kc1, PatchOp, job.name, patched);
    LogRetrySafe(base, job, w1, OffsetPatchFailed, job.sum.timeouts + 1);
    var (kc2, resumed) := ResumeConnector(kc1, job.name);
    var w2 := w1.(kc := kc2);
    ResumeRunsOne(base, kc1, job.name);
    OnlyIsAtMostOne(base, kc2.cluster, job.name);
    IssueSafe(base, w1, kc2, ResumeOp, job.name, resumed);
    LogRetrySafe(base, job, w2, ConnectorResumeFailed, job.sum.timeouts + 1);
    LogSafe(base, w2, RecreateWithOffset, job.name, job.WithOffsetCount() + 1,
            Involved(job, Some(job.name)).(oldName := job.LatestDetails().oldName));
  }

  lemma RetryCreateSafe(base: string, kc: Kc, name: Name)
    requires OnlyRuns(base, kc.cluster, name)
    ensures var (kc', d) := CreateConnector(kc, name, true, false);
            && OnlyRuns(base, kc'.cluster, name)
            && (d.Returned? ==> NoneRuns(base, kc'.cluster))
  {
    var (kc', d) := CreateConnector(kc, name, true, false);
    forall n | RunningIn(base, kc'.cluster, n) ensures n == name && d.Raised? {
      assert RunningIn(base, kc.cluster, n);
    }
  }

  lemma RetrySafe(base: string, job: Job, w: World, t: Tick)
    requires Ready(base, job, w)
    ensures Settled(base, RetryWithOffsets(job, w, t))
  {
    hide Safe, OnlyRuns, NoneRuns, AtMostOne, Base, SeedIn, StopConnector, CreateConnector, Log, LogRetry,
      CompleteRetry;
    SafeCluster(base, w);
    var attempt := job.WithOffsetCount() + 1;
    LogSafe(base, w, RecreateWithOffsetFailed, job.name, attempt, NO_DETAILS.(original := Some(job.OriginalName())));
    if t.config.Config? && job.LatestDetails().offsets.Some? {
      var offsets := job.LatestDetails().offsets.value;
      if t.registered {
        var (kc, ok) := StopConnector(w.kc, job.name);
        var w1 := w.(kc := kc);
        StopLeavesNone(base, w.kc, job.name);
        OnlyIsAtMostOne(base, kc.cluster, job.name);
        IssueSafe(base, w, kc, StopOp, job.name, ok);
        if ok {
          CompleteRetrySafe(base, job, w1, offsets);
        } else {
          var details := Involved(job, Some(job.name)).(oldName := job.LatestDetails().oldName);
          LogSafe(base, w1, RecreateWithOffsetFailed, job.name, attempt, details);
          var (w2, _) := Log(w1, RecreateWithOffsetFailed, job.name, attempt, details);
          LogRetrySafe(base, job, w2, RecreateWithOffsetTimeout, job.sum.timeouts + 1);
        }
      } else {
        var (kc, d) := CreateConnector(w.kc, job.name, true, false);
        var w1 := w.(kc := kc);
        RetryCreateSafe(base, w.kc, job.name);
        OnlyIsAtMostOne(base, kc.cluster, job.name);
        IssueSafe(base, w, kc, CreateOp(true, false), job.name, d.Returned?);
        if d.Returned? {
          CompleteRetrySafe(base, job, w1, offsets);
        } else {
          LogRetrySafe(base, job, w1, RecreateWithOffsetTimeout, job.sum.timeouts + 1);
        }
      }
    }
  }

  /** A fresh recreate that fails may leave the replacement running while the row
      still names the old connector, so it is safe but not settled. */
  lemma FreshSafe(base: string, s: Settings, job: Job, w: World, t: Tick)
    requires Ready(base, job, w)
    ensures var r := RecreateWithoutOffsets(s, job, w, t);
            Safe(base, r.0) && (r.1.Returned? && r.1.value ==> Settled(base, r))
  {
    hide Safe, OnlyRuns, NoneRuns, AtMostOne, Base, SeedIn, StopConnector, CreateConnector, Log, FinishReplacement,
      Job.ReplacementName;
    SafeCluster(base, w);
    ReplacementInLineage(base, job);
    var name := job.ReplacementName();
    var (kc1, stopped) := StopConnector(w.kc, job.name);
    var w1 := w.(kc := kc1);
    StopLeavesNone(base, w.kc, job.name);
    OnlyIsAtMostOne(base, kc1.cluster, job.name);
    IssueSafe(base, w, kc1, StopOp, job.name, stopped);
    LogSafe(base, w1, RecreateWithoutOffsetFailed, job.name, job.WithoutOffsetCount() + 1, Involved(job, Some(name)));
    if stopped {
      var (kc2, d) := CreateConnector(kc1, name, false, true);
      var w2 := w1.(kc := kc2);
      CreateAddsOne(base, kc1, name, false, true);
      OnlyIsAtMostOne(base, kc2.cluster, name);
      IssueSafe(base, w1, kc2, CreateOp(false, true), name, d.Returned?);
      LogSafe(base, w2, RecreateWithoutOffsetFailed, job.name, job.WithoutOffsetCount() + 1, Involved(job, Some(name)));
      FinishSafe(base, s, job, w2, name, RecreateWithoutOffset, job.WithoutOffsetCount() + 1);
    }
  }

  lemma RestartSafe(base: string, job: Job, w: World, t: Tick, onlyFailed: bool)
    requires Ready(base, job, w)
    ensures Settled(base, RestartStep(job, w, t, onlyFailed))
  {
    hide Safe, OnlyRuns, AtMostOne, Base, SeedIn, RestartConnector, Log;
    SafeCluster(base, w);
    var (kc, d) := RestartConnector(w.kc, job.name, onlyFailed);
    var w1 := w.(kc := kc);
    IssueSafe(base, w, kc, if onlyFailed then RestartFailed else RestartAll, job.name, d.Returned?);
    var failedTasks := (t.health.Unhealthy? && t.health.failedTasks) || job.LatestDetails().failedTasks;
    LogSafe(base, w1, TaskRestart, job.name, job.sum.taskRestarts + 1, NO_DETAILS.(failedTasks := failedTasks));
    LogSafe(base, w1, ConnectorRestart, job.name, job.sum.connectorRestarts + 1, NO_DETAILS);
  }

  lemma LogAndCompleteSafe(base: string, w: World, kind: EventKind, connector: Name, status: Status)
    requires Safe(base, w)
    ensures var (w', d) := LogAndComplete(w, kind, connector, NO_DETAILS, status);
            && Safe(base, w') && w'.kc == w.kc && w'.mem == w.mem && w'.db.current == w.db.current
            && (w'.db.status == status || w'.db.status == w.db.status)
            && (d.Returned? ==> w'.db.status == status)
  {
    hide Safe, Log, Complete;
    LogSafe(base, w, kind, connector, 0, NO_DETAILS);
    CompleteSafe(base, Log(w, kind, connector, 0, NO_DETAILS).0, status);
  }

  lemma EscalateSafe(base: string, job: Job, w: World)
    requires Safe(base, w)
    ensures Settled(base, EscalateItem(job, w))
  {
    hide Safe, OnlyRuns, LogAndComplete;
    LogAndCompleteSafe(base, w, HealingEscalated, job.name, Escalated);
  }

  lemma DispatchSafe(base: string, s: Settings, job: Job, w: World, t: Tick, a: Action)
    requires Ready(base, job, w)
    ensures Settled(base, Dispatch(s, job, w, t, a))
  {
    hide Ready, RestartStep, RecreateWithOffsets, RetryWithOffsets, RecreateWithoutOffsets, EscalateItem,
      LogAndComplete, Safe, OnlyRuns;
    assert Safe(base, w) by { ReadyIsSafe(base, job, w); }
    LogAndCompleteSafe(base, w, HealingLevelLimitReached, job.name, Escalated);
    EscalateSafe(base, job, w);
    match a
    case RestartTasks => RestartSafe(base, job, w, t, true);
    case RestartWholeConnector => RestartSafe(base, job, w, t, false);
    case Recreate => RecreateSafe(base, s, job, w, t);
    case RetryRecreate =>
      RetrySafe(base, job, w, t);
      EscalateSafe(base, job, RetryWithOffsets(job, w, t).0);
    case RecreateFresh =>
      FreshSafe(base, s, job, w, t);
      EscalateSafe(base, job, RecreateWithoutOffsets(s, job, w, t).0);
    case _ =>
  }

  lemma ReadyIsSafe(base: string, job: Job, w: World)
    requires Ready(base, job, w)
    ensures Safe(base, w)
  {
  }

  lemma QuarantineSafe(base: string, job: Job, w: World)
    requires Safe(base, w) && w.mem.uncertain
    ensures Inv(base, Quarantine(job, w).0)
    ensures Quarantine(job, w).1.Raised? ==> Quarantine(job, w).0.mem.uncertain
  {
    hide Safe, OnlyRuns, LogAndComplete;
    LogAndCompleteSafe(base, w, HealingEscalated, job.name, Escalated);
    MemoryKeepsSafe(base, LogAndComplete(w, HealingEscalated, job.name, NO_DETAILS, Escalated).0,
      w.mem.(uncertain := false));
  }

  lemma MemoryKeepsSafe(base: string, w: World, mem: Memory)
    requires Safe(base, w)
    ensures Safe(base, w.(mem := mem))
  {
    hide AtMostOne, CallsSafe, SeedIn, Base;
  }

  lemma ExecuteSafe(base: string, s: Settings, job: Job, w: World, t: Tick, a: Action)
    requires Ready(base, job, w)
    ensures Inv(base, Execute(s, job, w, t, a).0)
  {
    hide Ready, Dispatch, Safe, OnlyRuns, Quarantine;
    DispatchSafe(base, s, job, w, t, a);
    var (w1, d) := Dispatch(s, job, w, t, a);
    if d.Raised? {
      var mem := w1.mem.(uncertain := true);
      MemoryKeepsSafe(base, w1, mem);
      QuarantineSafe(base, job, w1.(mem := mem));
    }
  }

  // ---- Observations ----------------------------------------------------------------

  lemma UnhealthySafe(base: string, s: Settings, job: Job, w: World, t: Tick)
    requires Ready(base, job, w) && !w.mem.uncertain
    ensures Inv(base, HandleUnhealthy(s, job, w, t).0)
  {
    hide Safe, OnlyRuns, Log, Complete, Execute, Decide, SeedIn, Clamp;
    var w0 := Forget(w);
    MemoryKeepsSafe(base, w, w0.mem);
    CompleteSafe(base, w0, Escalated);
    var failedTasks := t.health.Unhealthy? && t.health.failedTasks;
    var failedCount := Clamp(job.failedCount + 1, s.policy.MaxFailedCount());
    var details := NO_DETAILS.(failedTasks := failedTasks);
    ClampNatural(job.failedCount + 1, s.policy.MaxFailedCount());
    LogSafe(base, w0, HealthFailureObserved, job.name, failedCount, details);
    var (w1, d1) := Log(w0, HealthFailureObserved, job.name, failedCount, details);
    LogSafe(base, w1, HealthFailedConfirmed, job.name, 0, NO_DETAILS);
    var confirming := !job.confirmed && (t.alertConfirmed || failedCount >= s.policy.confirmChecks);
    var (w2, d2) := if confirming then Log(w1, HealthFailedConfirmed, job.name, 0, NO_DETAILS)
      else (w1, Returned(true));
    var job2 := job.(failedCount := failedCount, failedTask := failedTasks, confirmed := job.confirmed || confirming);
    assert Ready(base, job2, w2);
    ExecuteSafe(base, s, job2, w2, t, Decide(s.policy, job2, failedTasks));
  }

  lemma RecoveredSafe(base: string, s: Settings, job: Job, w: World)
    requires Ready(base, job, w) && !w.mem.uncertain
    ensures Inv(base, RecordRecovered(s, job, w).0)
  {
    hide Safe, OnlyRuns, Complete, LogAndComplete, DeleteAll, SeedIn, Superseded, NoAutomatedStep;
    CompleteSafe(base, w, Completed);
    MemoryKeepsSafe(base, Complete(w, Completed).0, w.mem.(healthySince := None));
    var kc := DeleteAll(w.kc, Superseded(s, job));
    DeleteSupersededSafe(base, w, Superseded(s, job));
    var w1 := w.(kc := kc);
    LogAndCompleteSafe(base, w1, HealingRecovered, job.name, Completed);
    MemoryKeepsSafe(base, LogAndComplete(w1, HealingRecovered, job.name, NO_DETAILS, Completed).0,
      w.mem.(healthySince := None));
  }

  lemma DeleteSupersededSafe(base: string, w: World, names: seq<Name>)
    requires Safe(base, w)
    ensures Safe(base, w.(kc := DeleteAll(w.kc, names)))
    ensures forall m :: OnlyRuns(base, w.kc.cluster, m) ==> OnlyRuns(base, DeleteAll(w.kc, names).cluster, m)
  {
    hide AtMostOne, OnlyRuns, SeedIn, Base;
    DeleteAllSafe(base, w.kc, names);
  }

  lemma HealthySafe(base: string, s: Settings, job: Job, w: World)
    requires Ready(base, job, w) && !w.mem.uncertain
    ensures Inv(base, HandleHealthy(s, job, w).0)
  {
    hide Safe, OnlyRuns, RecordRecovered, SeedIn;
    RecoveredSafe(base, s, job, w);
    MemoryKeepsSafe(base, w, w.mem.(healthySince := Some(w.db.now)));
  }

  lemma ProcessSafe(base: string, s: Settings, job: Job, w: World, t: Tick)
    requires Inv(base, w) && w.db.Open() && job.name == w.db.current && SeedIn(base, job.sum)
    ensures Inv(base, ProcessJob(s, job, w, t).0)
  {
    hide Safe, OnlyRuns, Complete, Quarantine, Execute, HandleUnhealthy, HandleHealthy, WaitUntil, ManagedStopped,
      SeedIn, LatestIn;
    var w1 := See(w, t.health);
    MemoryKeepsSafe(base, w, w1.mem);
    if w.mem.uncertain {
      QuarantineSafe(base, job, w);
    } else {
      CompleteSafe(base, w, Escalated);
      assert Ready(base, job, w1);
      MemoryKeepsSafe(base, w1, w1.mem.(healthySince := None));
      ExecuteSafe(base, s, job, w1, t, if job.sum.timeouts < MAX_TIMEOUTS then RetryRecreate else Escalate);
      UnhealthySafe(base, s, job, w1, t);
      HealthySafe(base, s, job, w1);
    }
  }

  lemma BeginSafe(base: string, w: World, t: Tick)
    requires Safe(base, w)
    ensures Safe(base, Begin(w, t))
  {
    hide AtMostOne, CallsSafe, Base;
  }

  lemma SettleSafe(base: string, job: Job, w: World, d: Done)
    requires Inv(base, w)
    ensures Inv(base, Settle(job, w, d))
  {
    hide Safe, OnlyRuns, Log, Complete;
    LogSafe(base, w, StateMachineError, job.name, 0, NO_DETAILS);
    CompleteSafe(base, w, Waiting);
  }

  lemma ReadJobSeed(base: string, w: World)
    requires Safe(base, w)
    ensures ReadJob(w.db).name == w.db.current && SeedIn(base, ReadJob(w.db).sum)
  {
    hide AtMostOne, CallsSafe, Base;
  }

  lemma StepSafe(base: string, s: Settings, w: World, t: Tick)
    requires Inv(base, w)
    ensures Inv(base, Step(s, w, t))
  {
    hide Safe, OnlyRuns, Complete, ProcessJob, Settle, ReadJob;
    if w.db.Open() {
      var w0 := Begin(w, t);
      BeginSafe(base, w, t);
      var job := ReadJob(w0.db);
      ReadJobSeed(base, w0);
      CompleteSafe(base, w0, Processing);
      var (w1, d1) := Complete(w0, Processing);
      assert w1.db.Open() && Inv(base, w1);
      ProcessSafe(base, s, job, w1, t);
      var (w2, d2) := if d1.Raised? then (w1, d1) else ProcessJob(s, job, w1, t);
      SettleSafe(base, job, w2, d2);
    }
  }

  // ---- Runs --------------------------------------------------------------------------

  /** A process restart forgets an unknown outcome.  That is clean if the item is
      closed already or nothing but its current connector runs. */
  ghost predicate RestartIsClean(base: string, w: World) {
    w.db.Open() && w.mem.uncertain ==> OnlyRuns(base, w.kc.cluster, w.db.current)
  }

  ghost predicate RestartsAreClean(base: string, s: Settings, w: World, inputs: seq<Input>) {
    forall i | 0 <= i < |inputs| ::
      inputs[i].ProcessRestart? ==> RestartIsClean(base, Run(s, w, inputs[..i]))
  }

  lemma {:induction false} RunSafe(base: string, s: Settings, w: World, inputs: seq<Input>)
    requires Inv(base, w) && RestartsAreClean(base, s, w, inputs)
    ensures Inv(base, Run(s, w, inputs))
  {
    hide Safe, OnlyRuns, Step, RestartIsClean;
    if inputs != [] {
      var front, last := inputs[..|inputs| - 1], inputs[|inputs| - 1];
      forall i | 0 <= i < |front| ensures front[i].ProcessRestart? ==> RestartIsClean(base, Run(s, w, front[..i])) {
        assert front[..i] == inputs[..i] && front[i] == inputs[i];
      }
      RunSafe(base, s, w, front);
      var before := Run(s, w, front);
      match last
      case Poll(t) => StepSafe(base, s, before, t);
      case ProcessRestart => RestartedSafe(base, before);
    }
  }

  lemma RestartedSafe(base: string, w: World)
    requires Inv(base, w) && RestartIsClean(base, w)
    ensures Inv(base, Restarted(w))
  {
    hide Safe, OnlyRuns;
    MemoryKeepsSafe(base, w, Restarted(w).mem);
  }

  /** At the start of an incident at most its current connector runs in its lineage. */
  ghost predicate Start(w: World) {
    && w.db.log == []
    && w.db.Open()
    && !w.mem.uncertain
    && w.kc.calls == []
    && OnlyRuns(Base(w.db.current), w.kc.cluster, w.db.current)
  }

  /** Main result: after every request of every run whose process restarts are clean,
      however requests and database writes fail, at most one connector of the lineage
      runs. */
  lemma AtMostOneRuns(s: Settings, w: World, inputs: seq<Input>)
    requires Start(w) && RestartsAreClean(Base(w.db.current), s, w, inputs)
    ensures var base, w' := Base(w.db.current), Run(s, w, inputs);
            && AtMostOne(base, w'.kc.cluster)
            && (forall i | 0 <= i < |w'.kc.calls| :: AtMostOne(base, w'.kc.calls[i].after))
            && Base(w'.db.current) == base
            && (w'.db.Open() && !w'.mem.uncertain ==> OnlyRuns(base, w'.kc.cluster, w'.db.current))
  {
    hide Run, Base;
    var base := Base(w.db.current);
    OnlyIsAtMostOne(base, w.kc.cluster, w.db.current);
    assert Inv(base, w);
    RunSafe(base, s, w, inputs);
  }
}
