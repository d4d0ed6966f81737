/** The healing aggregate: recovery policy, append-only event log and the job
    that is projected from it. */
module HealingDomain {
  import opened Basics
  import opened ConnectorNames

  /** Kafka Connect refuses an empty connector name. */
  type Name = s: string | s != "" witness "c"

  /** Connector offsets as Kafka Connect returns them: a list of entries. */
  datatype Offsets = Offsets(entries: seq<int>)

  datatype HealingMode = RestartOnly | Recovery

  datatype EventKind =
    | HealthFailureObserved
    | HealthFailedConfirmed
    | TaskRestart
    | ConnectorRestart
    | OffsetCaptured
    | OffsetCaptureFailed
    | OffsetPatchFailed
    | ConnectorResumeFailed
    | RecreateWithOffset
    | RecreateWithOffsetTimeout
    | RecreateWithOffsetFailed
    | RecreateWithoutOffset
    | RecreateWithoutOffsetFailed
    | HealingEscalated
    | HealingLevelLimitReached
    | HealingRecovered
    | StateMachineError

  /** The part of an event's JSON details that a later step reads back. */
  datatype Details = Details(
    failedTasks: bool,
    original: Option<Name>,
    oldName: Option<Name>,
    newName: Option<Name>,
    offsets: Option<Offsets>)

  const NO_DETAILS := Details(false, None, None, None, None)

  datatype Event = Event(kind: EventKind, connector: Name, at: int, attempt: nat, details: Details)

  /** RecoveryPolicy rejects every value below one. */
  datatype PolicyValues = PolicyValues(confirmChecks: int, taskRestarts: int, connectorRestarts: int)
  {
    predicate Positive() {
      confirmChecks >= 1 && taskRestarts >= 1 && connectorRestarts >= 1
    }

    function MaxFailedCount(): int {
      confirmChecks + taskRestarts + connectorRestarts
    }
  }

  type Policy = p: PolicyValues | p.Positive() witness PolicyValues(1, 1, 1)

  const MAX_TIMEOUTS: nat := 2
  const MAX_WITHOUT_OFFSET: nat := 1

  function Clamp(value: int, maximum: int): int {
    var low := if value < maximum then value else maximum;
    if low < 0 then 0 else low
  }

  lemma ClampNatural(value: int, maximum: int)
    ensures Clamp(value, maximum) >= 0
  {
  }

  // ---- The projection of a log -------------------------------------------

  /** Everything the queue procedure derives from the log of one item. */
  datatype Summary = Summary(
    observed: nat,
    confirmed: nat,
    taskRestarts: nat,
    connectorRestarts: nat,
    withOffset: nat,
    withOffsetFailed: nat,
    timeouts: nat,
    withoutOffset: nat,
    withoutOffsetFailed: nat,
    latest: Option<Event>)

  const NO_EVENTS := Summary(0, 0, 0, 0, 0, 0, 0, 0, 0, None)

  function Add(s: Summary, e: Event): Summary {
    var t := s.(latest := Some(e));
    match e.kind
    case HealthFailureObserved => t.(observed := s.observed + 1)
    case HealthFailedConfirmed => t.(confirmed := s.confirmed + 1)
    case TaskRestart => t.(taskRestarts := s.taskRestarts + 1)
    case ConnectorRestart => t.(connectorRestarts := s.connectorRestarts + 1)
    case RecreateWithOffset => t.(withOffset := s.withOffset + 1)
    case RecreateWithOffsetFailed => t.(withOffsetFailed := s.withOffsetFailed + 1)
    case RecreateWithOffsetTimeout => t.(timeouts := s.timeouts + 1)
    case RecreateWithoutOffset => t.(withoutOffset := s.withoutOffset + 1)
    case RecreateWithoutOffsetFailed => t.(withoutOffsetFailed := s.withoutOffsetFailed + 1)
    case _ => t
  }

  function Project(log: seq<Event>): Summary {
    if log == [] then NO_EVENTS else Add(Project(log[..|log| - 1]), log[|log| - 1])
  }

  lemma ProjectAppend(log: seq<Event>, e: Event)
    ensures Project(log + [e]) == Add(Project(log), e)
  {
    assert (log + [e])[..|log|] == log;
  }

  /** How often events of the given kinds occur: the count the queue procedure
      takes over all rows of the item. */
  function Count(log: seq<Event>, kinds: set<EventKind>): nat {
    if log == [] then 0
    else Count(log[1..], kinds) + if log[0].kind in kinds then 1 else 0
  }

  lemma {:induction false} CountAppend(log: seq<Event>, e: Event, kinds: set<EventKind>)
    ensures Count(log + [e], kinds) == Count(log, kinds) + if e.kind in kinds then 1 else 0
  {
    if log == [] {
      assert log + [e] == [e];
    } else {
      assert (log + [e])[1..] == log[1..] + [e];
      CountAppend(log[1..], e, kinds);
    }
  }

  /** The running projection agrees with counting the rows of the log and with
      taking its last row. */
  lemma {:induction false} ProjectCounts(log: seq<Event>)
    ensures var s := Project(log);
            && s.observed == Count(log, {HealthFailureObserved})
            && s.confirmed == Count(log, {HealthFailedConfirmed})
            && s.taskRestarts == Count(log, {TaskRestart})
            && s.connectorRestarts == Count(log, {ConnectorRestart})
            && s.withOffset + s.withOffsetFailed == Count(log, {RecreateWithOffset, RecreateWithOffsetFailed})
            && s.timeouts == Count(log, {RecreateWithOffsetTimeout})
            && s.withoutOffset + s.withoutOffsetFailed
               == Count(log, {RecreateWithoutOffset, RecreateWithoutOffsetFailed})
            && s.latest == if log == [] then None else Some(log[|log| - 1])
  {
    if log != [] {
      var front, e := log[..|log| - 1], log[|log| - 1];
      assert log == front + [e];
      ProjectCounts(front);
      CountAppend(front, e, {HealthFailureObserved});
      CountAppend(front, e, {HealthFailedConfirmed});
      CountAppend(front, e, {TaskRestart});
      CountAppend(front, e, {ConnectorRestart});
      CountAppend(front, e, {RecreateWithOffset, RecreateWithOffsetFailed});
      CountAppend(front, e, {RecreateWithOffsetTimeout});
      CountAppend(front, e, {RecreateWithoutOffset, RecreateWithoutOffsetFailed});
    }
  }

  // ---- The audit of a log -------------------------------------------------

  /** What the theorems say about the order of a log: the attempt numbers of its
      observations and restarts, how often recreate-with-offset began, with which
      offsets and after how many connector restarts, the restarts after that, the
      recreate results before it, and the connector last restored with offsets. */
  datatype Audit = Audit(
    observations: seq<nat>,
    taskAttempts: seq<nat>,
    connectorAttempts: seq<nat>,
    captures: nat,
    captured: Option<Offsets>,
    restartsAtCapture: nat,
    lateRestarts: nat,
    earlyResults: nat,
    restored: Option<Name>,
    recoveries: nat)

  const NO_AUDIT := Audit([], [], [], 0, None, 0, 0, 0, None, 0)

  const RECREATE_RESULTS := {RecreateWithOffset, RecreateWithOffsetFailed, RecreateWithOffsetTimeout,
                             RecreateWithoutOffset, RecreateWithoutOffsetFailed}

  function AddAudit(a: Audit, e: Event): Audit {
    var late := a.lateRestarts + if a.captures > 0 then 1 else 0;
    match e.kind
    case HealthFailureObserved => a.(observations := a.observations + [e.attempt])
    case TaskRestart => a.(taskAttempts := a.taskAttempts + [e.attempt], lateRestarts := late)
    case ConnectorRestart => a.(connectorAttempts := a.connectorAttempts + [e.attempt], lateRestarts := late)
    case OffsetCaptured =>
      a.(captures := a.captures + 1, captured := e.details.offsets, restartsAtCapture := |a.connectorAttempts|)
    case HealingRecovered => a.(recoveries := a.recoveries + 1)
    case _ =>
      var early := if e.kind in RECREATE_RESULTS && a.captures == 0 then 1 else 0;
      a.(earlyResults := a.earlyResults + early,
         restored := if e.kind == RecreateWithOffset then Some(e.connector) else a.restored)
  }

  function AuditOf(log: seq<Event>): Audit {
    if log == [] then NO_AUDIT else AddAudit(AuditOf(log[..|log| - 1]), log[|log| - 1])
  }

  lemma AuditAppend(log: seq<Event>, e: Event)
    ensures AuditOf(log + [e]) == AddAudit(AuditOf(log), e)
  {
    assert (log + [e])[..|log|] == log;
  }

  // ---- The job ------------------------------------------------------------

  datatype Job = Job(
    name: Name,
    mode: HealingMode,
    failedCount: int,
    confirmed: bool,
    failedTask: bool,
    hasNextStep: bool,
    sum: Summary)
  {
    function Kind(): Option<EventKind> {
      if sum.latest.None? then None else Some(sum.latest.value.kind)
    }

    function LatestDetails(): Details {
      if sum.latest.None? then NO_DETAILS else sum.latest.value.details
    }

    /** The queue row carries level 4 for RECOVERY and 2 otherwise. */
    function Level(): nat {
      if mode == RestartOnly then 2 else 4
    }

    function WithOffsetCount(): nat {
      sum.withOffset + sum.withOffsetFailed
    }

    function WithoutOffsetCount(): nat {
      sum.withoutOffset + sum.withoutOffsetFailed
    }

    function OriginalName(): Name {
      var d := LatestDetails();
      if d.original.Some? then d.original.value
      else if d.oldName.Some? then d.oldName.value
      else name
    }

    /** The name a replacement gets: the successor of the last replacement name
        on record, else of the current name. */
    function ReplacementName(): Name {
      var d := LatestDetails();
      var seed := if d.newName.Some? then d.newName.value else name;
      NextVersion(seed);
      Next(seed)
    }
  }

  // ---- The transition policy -----------------------------------------------

  datatype Action =
    | Debounce
    | RestartTasks
    | RestartWholeConnector
    | Recreate
    | RetryRecreate
    | RecreateFresh
    | Escalate
    | Stop

  const WAIT_AFTER_RESTART := {TaskRestart, ConnectorRestart}
  const WAIT_AFTER_RECREATE := {RecreateWithOffset, RecreateWithoutOffset}
  const RECREATE_FAILURES := {RecreateWithOffsetFailed, OffsetCaptureFailed, OffsetPatchFailed, ConnectorResumeFailed}
  const TERMINAL := {HealingEscalated, HealingLevelLimitReached}

  /** The rows that may carry the name of a replacement. */
  const NAMING := RECREATE_FAILURES + {RecreateWithOffset, RecreateWithOffsetTimeout,
                                       RecreateWithoutOffset, RecreateWithoutOffsetFailed}

  const MANAGED_STOPPED := RECREATE_FAILURES + {RecreateWithOffsetTimeout, RecreateWithOffset}

  predicate LatestIn(job: Job, kinds: set<EventKind>) {
    job.Kind().Some? && job.Kind().value in kinds
  }

  function FreshOrEscalate(job: Job): Action {
    if job.WithoutOffsetCount() < MAX_WITHOUT_OFFSET then RecreateFresh else Escalate
  }

  predicate ShouldRestartConnector(p: Policy, job: Job) {
    && job.sum.connectorRestarts < p.connectorRestarts
    && (job.failedTask ==>
          && job.sum.taskRestarts >= p.taskRestarts
          && (job.confirmed || job.failedCount >= p.confirmChecks + p.taskRestarts))
  }

  function Decide(p: Policy, job: Job, hasFailedTasks: bool): Action {
    if LatestIn(job, {RecreateWithOffset}) then FreshOrEscalate(job)
    else if LatestIn(job, {RecreateWithOffsetTimeout}) then
      if job.sum.timeouts < MAX_TIMEOUTS then RetryRecreate else FreshOrEscalate(job)
    else if LatestIn(job, RECREATE_FAILURES) then FreshOrEscalate(job)
    else if LatestIn(job, {RecreateWithoutOffset, RecreateWithoutOffsetFailed}) then Escalate
    else if LatestIn(job, TERMINAL) && !job.hasNextStep then Stop
    else if !job.confirmed && job.failedCount < p.confirmChecks then Debounce
    else if hasFailedTasks && job.sum.taskRestarts < p.taskRestarts then RestartTasks
    else if ShouldRestartConnector(p, job) then RestartWholeConnector
    else if job.WithOffsetCount() == 0 then Recreate
    else FreshOrEscalate(job)
  }

  function RequiredLevel(a: Action): nat {
    match a
    case RestartTasks => 2
    case RestartWholeConnector => 2
    case Recreate => 3
    case RetryRecreate => 3
    case RecreateFresh => 4
    case _ => 0
  }

  /** Clamping the failed count at the policy's maximum never changes a
      decision, whatever the log holds. */
  lemma ClampMasksNoThreshold(p: Policy, job: Job, hasFailedTasks: bool)
    requires job.failedCount >= 0
    ensures Decide(p, job.(failedCount := Clamp(job.failedCount, p.MaxFailedCount())), hasFailedTasks)
         == Decide(p, job, hasFailedTasks)
  {
    var clamped := job.(failedCount := Clamp(job.failedCount, p.MaxFailedCount()));
    assert clamped.Kind() == job.Kind();
    assert clamped.failedCount < p.confirmChecks <==> job.failedCount < p.confirmChecks;
    assert ShouldRestartConnector(p, clamped) <==> ShouldRestartConnector(p, job);
  }
}
