/** One healing step as a function of the state and of everything the outside
    answers.  The sequence of calls, the early returns and the places where an
    exception escapes are those of db_state_machine.py and actions.py. */
module HealingSteps {
  import opened Basics
  import opened ConnectorNames
  import opened HealingDomain
  import opened HealingWorld

  datatype Settings = Settings(
    policy: Policy,
    keepBase: bool,
    restartWait: nat,
    recreateWait: nat,
    confirmWindow: nat)

  datatype ConfigRead = ConfigUnreadable | Config(empty: bool, hasSchemaTopic: bool)

  datatype OffsetsRead = OffsetsUnreadable | OffsetsRead(offsets: Option<Offsets>)

  /** All that one poll of the item gets from outside: the time passed, whether an
      alert already confirmed the failure, the results of reads, and the replies
      to writes. */
  datatype Tick = Tick(
    elapsed: nat,
    alertConfirmed: bool,
    health: Health,
    config: ConfigRead,
    offsets: OffsetsRead,
    registered: bool,
    dbReplies: seq<Reply>,
    kcReplies: seq<Reply>)

  // ---- Writing through the world -------------------------------------------

  function Log(w: World, kind: EventKind, connector: Name, attempt: nat, details: Details): (World, Done) {
    var (db, d) := Record(w.db, kind, connector, attempt, details);
    (w.(db := db), d)
  }

  function Complete(w: World, status: Status): (World, Done) {
    var (db, d) := SetStatus(w.db, status);
    (w.(db := db), d)
  }

  function MoveTo(w: World, name: Name): (World, Done) {
    var (db, d) := SetCurrent(w.db, name);
    (w.(db := db), d)
  }

  function LogAndComplete(w: World, kind: EventKind, connector: Name, details: Details, status: Status): (World, Done) {
    var (w1, d1) := Log(w, kind, connector, 0, details);
    if d1.Raised? then (w1, d1) else Complete(w1, status)
  }

  // ---- Restarts --------------------------------------------------------------

  function RestartStep(job: Job, w: World, t: Tick, onlyFailed: bool): (World, Done) {
    var (kc, d) := RestartConnector(w.kc, job.name, onlyFailed);
    var w1 := w.(kc := kc);
    if d.Raised? then (w1, d)
    else if onlyFailed then
      Log(w1, TaskRestart, job.name, job.sum.taskRestarts + 1,
          NO_DETAILS.(failedTasks := (t.health.Unhealthy? && t.health.failedTasks) || job.LatestDetails().failedTasks))
    else
      Log(w1, ConnectorRestart, job.name, job.sum.connectorRestarts + 1, NO_DETAILS)
  }

  // ---- Recreate with offset ---------------------------------------------------

  /** The names a saga writes into its events. */
  function Involved(job: Job, newName: Option<Name>): Details {
    NO_DETAILS.(original := Some(job.OriginalName()), oldName := Some(job.name), newName := newName)
  }

  function FailRecreate(job: Job, w: World, connector: Name, details: Details): (World, Done) {
    var (w1, d) := Log(w, RecreateWithOffsetFailed, connector, job.WithOffsetCount() + 1, details);
    (w1, if d.Raised? then d else Returned(false))
  }

  /** A replacement that exists but could not be brought up: it becomes the
      current connector and both failures are logged. */
  function AbandonReplacement(job: Job, w: World, name: Name, kind: EventKind): (World, Done) {
    var (w1, d1) := MoveTo(w, name);
    if d1.Raised? then (w1, d1)
    else
      var (w2, d2) := Log(w1, kind, name, job.WithOffsetCount() + 1, Involved(job, Some(name)));
      if d2.Raised? then (w2, d2) else FailRecreate(job, w2, name, Involved(job, Some(name)))
  }

  function DeleteFailedVersioned(s: Settings, job: Job, w: World, name: Name): World {
    if job.name == name || !IsVersioned(job.name) || (s.keepBase && job.name == job.OriginalName()) then w
    else w.(kc := DeleteConnector(w.kc, job.name))
  }

  /** The last part of both recreate sagas: audit, move the queue row, clean up. */
  function FinishReplacement(s: Settings, job: Job, w: World, name: Name, kind: EventKind, attempt: nat): (World,
          Done) {
    var (w1, d1) := Log(w, kind, name, attempt, Involved(job, Some(name)));
    if d1.Raised? then (w1, d1)
    else
      var (w2, d2) := MoveTo(w1, name);
      if d2.Raised? then (w2, d2) else (DeleteFailedVersioned(s, job, w2, name), Returned(true))
  }

  function ResumeReplacement(s: Settings, job: Job, w: World, name: Name): (World, Done) {
    var (kc, ok) := ResumeConnector(w.kc, name);
    var w1 := w.(kc := kc);
    if !ok then AbandonReplacement(job, w1, name, ConnectorResumeFailed)
    else FinishReplacement(s, job, w1, name, RecreateWithOffset, job.WithOffsetCount() + 1)
  }

  function PatchReplacement(s: Settings, job: Job, w: World, name: Name, offsets: Offsets): (World, Done) {
    var (kc, ok) := PatchOffsets(w.kc, name, offsets);
    var w1 := w.(kc := kc);
    if !ok then AbandonReplacement(job, w1, name, OffsetPatchFailed)
    else ResumeReplacement(s, job, w1, name)
  }

  function CreateReplacement(s: Settings, job: Job, w: World, name: Name, offsets: Offsets): (World, Done) {
    var (kc, d) := CreateConnector(w.kc, name, false, false);
    var w1 := w.(kc := kc);
    if d.Returned? then PatchReplacement(s, job, w1, name, offsets)
    else if d.timeout then
      var (w2, d2) := MoveTo(w1, name);
      if d2.Raised? then (w2, d2)
      else
        var (w3, d3) := Log(w2, RecreateWithOffsetTimeout, name, job.sum.timeouts + 1,
                            Involved(job, Some(name)).(offsets := Some(offsets)));
        (w3, if d3.Raised? then d3 else Returned(false))
    else FailRecreate(job, w1, job.name, Involved(job, Some(name)))
  }

  function RecreateWithOffsets(s: Settings, job: Job, w: World, t: Tick): (World, Done) {
    if t.offsets.OffsetsUnreadable? || t.config.ConfigUnreadable? then (w, Raised(false))
    else
      var captured := t.offsets.offsets;
      var (w1, d1) := Log(w, OffsetCaptured, job.name, job.WithOffsetCount() + 1, NO_DETAILS.(offsets := captured));
      if d1.Raised? then (w1, d1)
      else if captured.None? || captured.value.entries == [] then
        FailRecreate(job, w1, job.name, NO_DETAILS.(original := Some(job.OriginalName()), offsets := captured))
      else if t.config.empty || !t.config.hasSchemaTopic then
        FailRecreate(job, w1, job.name, Involved(job, None))
      else
        var name := job.ReplacementName();
        var (kc, ok) := StopConnector(w1.kc, job.name);
        var w2 := w1.(kc := kc);
        if !ok then FailRecreate(job, w2, job.name, Involved(job, Some(name)))
        else CreateReplacement(s, job, w2, name, captured.value)
  }

  // ---- Retry of a timed-out recreate -----------------------------------------

  function LogRetry(job: Job, w: World, kind: EventKind, attempt: nat): (World, Done) {
    var (w1, d) := Log(w, kind, job.name, attempt,
      Involved(job, Some(job.name)).(oldName := job.LatestDetails().oldName));
    (w1, if d.Raised? then d else Returned(false))
  }

  /** Patch, resume and audit a replacement that is registered and stopped. */
  function CompleteRetry(job: Job, w: World, offsets: Offsets): (World, Done) {
    var (kc1, patched) := PatchOffsets(w.kc, job.name, offsets);
    var w1 := w.(kc := kc1);
    if !patched then LogRetry(job, w1, OffsetPatchFailed, job.sum.timeouts + 1)
    else
      var (kc2, resumed) := ResumeConnector(kc1, job.name);
      var w2 := w1.(kc := kc2);
      if !resumed then LogRetry(job, w2, ConnectorResumeFailed, job.sum.timeouts + 1)
      else
        var (w3, d) := Log(w2, RecreateWithOffset, job.name, job.WithOffsetCount() + 1,
                           Involved(job, Some(job.name)).(oldName := job.LatestDetails().oldName));
        (w3, if d.Raised? then d else Returned(true))
  }

  /** The handler of the guarded part of the retry: a timeout, even one raised
      by the audit of a failed stop, is logged as another timeout. */
  function HandleRetryError(job: Job, w: World, d: Done): (World, Done)
    requires d.Raised?
  {
    if d.timeout then LogRetry(job, w, RecreateWithOffsetTimeout, job.sum.timeouts + 1) else (w, d)
  }

  function RetryWithOffsets(job: Job, w: World, t: Tick): (World, Done) {
    if t.config.ConfigUnreadable? then (w, Raised(false))
    else if job.LatestDetails().offsets.None? then
      FailRecreate(job, w, job.name, NO_DETAILS.(original := Some(job.OriginalName())))
    else
      var offsets := job.LatestDetails().offsets.value;
      if t.registered then
        var (kc, ok) := StopConnector(w.kc, job.name);
        var w1 := w.(kc := kc);
        if ok then CompleteRetry(job, w1, offsets)
        else
          var (w2, d2) := FailRecreate(job, w1, job.name,
                            Involved(job, Some(job.name)).(oldName := job.LatestDetails().oldName));
          if d2.Raised? then HandleRetryError(job, w2, d2) else (w2, d2)
      else
        var (kc, d) := CreateConnector(w.kc, job.name, true, false);
        var w1 := w.(kc := kc);
        if d.Raised? then HandleRetryError(job, w1, d) else CompleteRetry(job, w1, offsets)
  }

  // ---- Recreate without offset ------------------------------------------------

  function RecreateWithoutOffsets(s: Settings, job: Job, w: World, t: Tick): (World, Done) {
    if t.config.ConfigUnreadable? || t.config.empty then (w, Raised(false))
    else
      var name := job.ReplacementName();
      var (kc1, stopped) := StopConnector(w.kc, job.name);
      var w1 := w.(kc := kc1);
      if !stopped then FailFresh(job, w1, name)
      else
        var (kc2, d) := CreateConnector(kc1, name, false, true);
        var w2 := w1.(kc := kc2);
        if d.Raised? then FailFresh(job, w2, name)
        else FinishReplacement(s, job, w2, name, RecreateWithoutOffset, job.WithoutOffsetCount() + 1)
  }

  function FailFresh(job: Job, w: World, name: Name): (World, Done) {
    var (w1, d) := Log(w, RecreateWithoutOffsetFailed, job.name, job.WithoutOffsetCount() + 1,
                       Involved(job, Some(name)));
    (w1, if d.Raised? then d else Returned(false))
  }

  // ---- Dispatch ----------------------------------------------------------------

  function EscalateItem(job: Job, w: World): (World, Done) {
    LogAndComplete(w, HealingEscalated, job.name, NO_DETAILS, Escalated)
  }

  function OrEscalate(job: Job, r: (World, Done)): (World, Done) {
    if r.1.Raised? || r.1.value then r else EscalateItem(job, r.0)
  }

  function Dispatch(s: Settings, job: Job, w: World, t: Tick, a: Action): (World, Done) {
    if job.Level() < RequiredLevel(a) then
      LogAndComplete(w, HealingLevelLimitReached, job.name, NO_DETAILS, Escalated)
    else
      match a
      case RestartTasks => RestartStep(job, w, t, true)
      case RestartWholeConnector => RestartStep(job, w, t, false)
      case Recreate => RecreateWithOffsets(s, job, w, t)
      case RetryRecreate => OrEscalate(job, RetryWithOffsets(job, w, t))
      case RecreateFresh => OrEscalate(job, RecreateWithoutOffsets(s, job, w, t))
      case _ => EscalateItem(job, w)
  }

  function Quarantine(job: Job, w: World): (World, Done) {
    var (w1, d) := LogAndComplete(w, HealingEscalated, job.name, NO_DETAILS, Escalated);
    if d.Raised? then (w1, d) else (w1.(mem := w1.mem.(uncertain := false)), d)
  }

  /** An action that raises leaves its outcome unknown: the item is marked in the
      memory of the process and quarantined. */
  function Execute(s: Settings, job: Job, w: World, t: Tick, a: Action): (World, Done) {
    var (w1, d) := Dispatch(s, job, w, t, a);
    if d.Returned? then (w1, d) else Quarantine(job, w1.(mem := w1.mem.(uncertain := true)))
  }

  // ---- Observations --------------------------------------------------------------

  function Forget(w: World): World {
    w.(mem := w.mem.(healthySince := None))
  }

  function HandleUnhealthy(s: Settings, job: Job, w: World, t: Tick): (World, Done) {
    var failedTasks := t.health.Unhealthy? && t.health.failedTasks;
    var w0 := Forget(w);
    if Decide(s.policy, job, failedTasks || job.failedTask).Stop? then Complete(w0, Escalated)
    else
      var failedCount := Clamp(job.failedCount + 1, s.policy.MaxFailedCount());
      var (w1, d1) := Log(w0, HealthFailureObserved, job.name, failedCount, NO_DETAILS.(failedTasks := failedTasks));
      if d1.Raised? then (w1, d1)
      else
        var job1 := job.(failedCount := failedCount, failedTask := failedTasks);
        var confirming := !job.confirmed && (t.alertConfirmed || failedCount >= s.policy.confirmChecks);
        var (w2, d2) := if confirming then Log(w1, HealthFailedConfirmed, job.name, 0, NO_DETAILS)
          else (w1, Returned(true));
        if d2.Raised? then (w2, d2)
        else
          var job2 := job1.(confirmed := job.confirmed || confirming);
          var a := Decide(s.policy, job2, failedTasks);
          if a.Debounce? then (w2, Returned(true)) else Execute(s, job2, w2, t, a)
  }

  /** The world after the capture that opens a recreate with offset. */
  function Captured(job: Job, w: World, offsets: Option<Offsets>): World {
    Log(w, OffsetCaptured, job.name, job.WithOffsetCount() + 1, NO_DETAILS.(offsets := offsets)).0
  }

  /** Where a recreate with offset can end. */
  lemma RecreateEnds(s: Settings, job: Job, w: World, t: Tick)
    ensures var w' := RecreateWithOffsets(s, job, w, t).0;
            w' == w ||
            (t.offsets.OffsetsRead? &&
             var captured, name := t.offsets.offsets, job.ReplacementName();
             var w1 := Captured(job, w, captured);
             var (kc, ok) := StopConnector(w1.kc, job.name);
             var w2 := w1.(kc := kc);
             || w' == w1
             || w' == FailRecreate(job, w1, job.name,
               NO_DETAILS.(original := Some(job.OriginalName()), offsets := captured)).0
             || w' == FailRecreate(job, w1, job.name, Involved(job, None)).0
             || w' == FailRecreate(job, w2, job.name, Involved(job, Some(name))).0
             || (captured.Some? && First(w.db.replies).Ok? && ok
               && w' == CreateReplacement(s, job, w2, name, captured.value).0))
  {
    hide Record, StopConnector, FailRecreate, CreateReplacement, Involved, Job.ReplacementName, Job.OriginalName;
  }

  // ---- The stages of an unhealthy check, to reason about them one at a time ------

  predicate FailedTasks(t: Tick) { t.health.Unhealthy? && t.health.failedTasks }

  function NextCount(s: Settings, job: Job): nat {
    ClampNatural(job.failedCount + 1, s.policy.MaxFailedCount());
    Clamp(job.failedCount + 1, s.policy.MaxFailedCount())
  }

  function ObservationRow(s: Settings, job: Job, w: World, t: Tick): World {
    Log(Forget(w), HealthFailureObserved, job.name, NextCount(s, job), NO_DETAILS.(failedTasks := FailedTasks(t))).0
  }

  /** The state after the rows of one observation, and whether it confirmed. */
  function Observed(s: Settings, job: Job, w: World, t: Tick): (World, bool) {
    var w1 := ObservationRow(s, job, w, t);
    var confirming := !job.confirmed && (t.alertConfirmed || NextCount(s, job) >= s.policy.confirmChecks);
    (if confirming then Log(w1, HealthFailedConfirmed, job.name, 0, NO_DETAILS).0 else w1, confirming)
  }

  function ObservedJob(s: Settings, job: Job, t: Tick, confirming: bool): Job {
    job.(failedCount := NextCount(s, job), failedTask := FailedTasks(t), confirmed := job.confirmed || confirming)
  }

  /** Where an unhealthy check can end. */
  lemma UnhealthyEnds(s: Settings, job: Job, w: World, t: Tick)
    ensures var w' := HandleUnhealthy(s, job, w, t).0;
            var (seen, confirming) := Observed(s, job, w, t);
            var job' := ObservedJob(s, job, t, confirming);
            || w' == Complete(Forget(w), Escalated).0
            || w' == ObservationRow(s, job, w, t)
            || w' == seen
            || w' == Execute(s, job', seen, t, Decide(s.policy, job', FailedTasks(t))).0
  {
    hide Decide, Clamp, Log, Execute, Complete;
  }

  predicate NoAutomatedStep(job: Job) {
    && job.sum.taskRestarts == 0
    && job.sum.connectorRestarts == 0
    && job.WithOffsetCount() == 0
    && job.WithoutOffsetCount() == 0
  }

  /** The superseded names of a recovered item, sorted. */
  function Superseded(s: Settings, job: Job): seq<Name> {
    var d := job.LatestDetails();
    var original := if d.original.Some? then d.original.value
                    else if d.oldName.Some? then d.oldName.value else job.name;
    var keepOriginal := original != job.name && !s.keepBase;
    var keepOld := d.oldName.Some? && d.oldName.value != job.name
                   && d.oldName.value != original;
    if keepOriginal && keepOld then
      if StringLess(original, d.oldName.value) then [original, d.oldName.value] else [d.oldName.value, original]
    else if keepOriginal then [original]
    else if keepOld then [d.oldName.value]
    else []
  }

  function DeleteAll(kc: Kc, names: seq<Name>): Kc
    decreases |names|
  {
    if names == [] then kc else DeleteAll(DeleteConnector(kc, names[0]), names[1..])
  }

  function RecordRecovered(s: Settings, job: Job, w: World): (World, Done) {
    if NoAutomatedStep(job) then
      var (w1, d) := Complete(w, Completed);
      if d.Raised? then (w1, d) else (Forget(w1), Returned(true))
    else
      var w1 := w.(kc := DeleteAll(w.kc, Superseded(s, job)));
      var (w2, d) := LogAndComplete(w1, HealingRecovered, job.name, NO_DETAILS, Completed);
      if d.Raised? then (w2, d) else (Forget(w2), Returned(true))
  }

  function HandleHealthy(s: Settings, job: Job, w: World): (World, Done) {
    if !LatestIn(job, WAIT_AFTER_RESTART + WAIT_AFTER_RECREATE) then RecordRecovered(s, job, w)
    else
      var actionAt := job.sum.latest.value.at;
      var since := w.mem.healthySince;
      if since.None? || since.value <= actionAt then
        (w.(mem := w.mem.(healthySince := Some(w.db.now))), Returned(true))
      else if w.db.now < since.value + s.confirmWindow then (w, Returned(true))
      else RecordRecovered(s, job, w)
  }

  predicate ManagedStopped(job: Job) {
    job.hasNextStep && LatestIn(job, MANAGED_STOPPED)
  }

  function WaitUntil(s: Settings, job: Job): Option<int> {
    if LatestIn(job, WAIT_AFTER_RESTART) then Some(job.sum.latest.value.at + s.restartWait)
    else if LatestIn(job, WAIT_AFTER_RECREATE + {RecreateWithOffsetTimeout}) then
      Some(job.sum.latest.value.at + s.recreateWait)
    else None
  }

  function WithFollowup(r: (World, Done), followup: bool): (World, Done) {
    if r.1.Raised? then r else (r.0, Returned(followup))
  }

  function See(w: World, health: Health): World {
    w.(mem := w.mem.(seen := w.mem.seen + [Observation(health, w.db.now)]))
  }

  /** Processes the item after its row was marked PROCESSING.  A returned value
      says whether a follow-up is due. */
  function ProcessJob(s: Settings, job: Job, w: World, t: Tick): (World, Done) {
    if w.mem.uncertain then WithFollowup(Quarantine(job, w), false)
    else if LatestIn(job, TERMINAL) then WithFollowup(Complete(w, Escalated), false)
    else if WaitUntil(s, job).Some? && w.db.now < WaitUntil(s, job).value then (w, Returned(job.failedCount > 0))
    else
      var w1 := See(w, t.health);
      match t.health
      case Unreachable => (Forget(w1), Returned(job.failedCount > 0))
      case NotCreated =>
        if LatestIn(job, {RecreateWithOffsetTimeout}) then
          WithFollowup(Execute(s, job, w1, t, if job.sum.timeouts < MAX_TIMEOUTS then RetryRecreate else Escalate),
            true)
        else (Forget(w1), Returned(job.failedCount > 0))
      case Stopped =>
        if ManagedStopped(job) then WithFollowup(HandleUnhealthy(s, job, w1, t), true)
        else (w1, Returned(false))
      case Healthy => WithFollowup(HandleHealthy(s, job, w1), job.failedCount > 0)
      case Unhealthy(_) => WithFollowup(HandleUnhealthy(s, job, w1, t), true)
  }

  /** The world at the beginning of a step: time has passed and the replies of
      this step are laid out. */
  function Begin(w: World, t: Tick): World {
    w.(db := w.db.(now := w.db.now + t.elapsed, replies := t.dbReplies),
       kc := w.kc.(replies := t.kcReplies))
  }

  /** The end of a step: an exception is logged unless the item is quarantined;
      a follow-up puts an open item to WAITING. */
  function Settle(job: Job, w: World, d: Done): World {
    if d.Raised? then
      if w.mem.uncertain then w else Log(w, StateMachineError, job.name, 0, NO_DETAILS).0
    else if d.value && w.db.Open() then Complete(w, Waiting).0
    else w
  }

  /** One poll of the item.  Closed items are not listed any more. */
  function Step(s: Settings, w: World, t: Tick): World {
    if !w.db.Open() then w
    else
      var w0 := Begin(w, t);
      var job := ReadJob(w0.db);
      var (w1, d1) := Complete(w0, Processing);
      var (w2, d2) := if d1.Raised? then (w1, d1) else ProcessJob(s, job, w1, t);
      Settle(job, w2, d2)
  }

  // ---- Runs -----------------------------------------------------------------------

  /** A run interleaves polls with restarts of the healing process, which lose
      its memory. */
  datatype Input = Poll(tick: Tick) | ProcessRestart

  function Restarted(w: World): World {
    w.(mem := Memory(false, None, w.mem.seen))
  }

  function Advance(s: Settings, w: World, i: Input): World {
    match i
    case Poll(t) => Step(s, w, t)
    case ProcessRestart => Restarted(w)
  }

  function Run(s: Settings, w: World, inputs: seq<Input>): World {
    if inputs == [] then w
    else Advance(s, Run(s, w, inputs[..|inputs| - 1]), inputs[|inputs| - 1])
  }

  lemma RunAppend(s: Settings, w: World, inputs: seq<Input>, i: Input)
    ensures Run(s, w, []) == w
    ensures Run(s, w, inputs + [i]) == Advance(s, Run(s, w, inputs), i)
  {
    hide Advance;
    assert (inputs + [i])[..|inputs|] == inputs;
  }
}
