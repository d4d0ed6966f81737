/** The state a healing step reads and writes: the queue row with its log, the
    Kafka Connect cluster and the memory of the healing process.  Every external
    call is answered from a list of replies, so a failure can strike before or
    after the effect of any call; a call beyond the list succeeds. */
module HealingWorld {
  import opened Basics
  import opened HealingDomain

  datatype Reply = Ok | Fail(applied: bool, timeout: bool)

  function First(replies: seq<Reply>): Reply {
    if replies == [] then Ok else replies[0]
  }

  function Rest(replies: seq<Reply>): seq<Reply> {
    if replies == [] then [] else replies[1..]
  }

  predicate Applied(r: Reply) {
    r.Ok? || r.applied
  }

  /** How a call or an action ends: with a boolean, or by raising. */
  datatype Done = Returned(value: bool) | Raised(timeout: bool)

  function DoneOf(r: Reply): Done {
    if r.Ok? then Returned(true) else Raised(r.timeout)
  }

  // ---- Persistence ---------------------------------------------------------

  datatype Status = Pending | Processing | Waiting | Completed | Escalated

  datatype Db = Db(
    log: seq<Event>,
    status: Status,
    current: Name,
    mode: HealingMode,
    now: int,
    replies: seq<Reply>)
  {
    predicate Open() {
      status in {Pending, Processing, Waiting}
    }
  }

  function ReadJob(db: Db): Job {
    var s := Project(db.log);
    Job(db.current, db.mode, s.observed, s.confirmed > 0,
        s.latest.Some? && s.latest.value.details.failedTasks, db.Open(), s)
  }

  /** The confirmation insert is deduplicated by queue; every other insert
      appends.  Each row is later than the one before. */
  function Record(db: Db, kind: EventKind, connector: Name, attempt: nat, details: Details): (r: (Db, Done))
    ensures r.0 == db.(log := r.0.log, now := r.0.now, replies := Rest(db.replies))
    ensures r.0.now >= db.now
    ensures r.1 == DoneOf(First(db.replies))
    ensures
      var e := Event(kind, connector, db.now, attempt, details);
      if Applied(First(db.replies)) && !(kind == HealthFailedConfirmed && Project(db.log).confirmed > 0)
      then && r.0.log == db.log + [e] && r.0.now == db.now + 1
           && Project(r.0.log) == Add(Project(db.log), e)
           && AuditOf(r.0.log) == AddAudit(AuditOf(db.log), e)
      else r.0.log == db.log && r.0.now == db.now
  {
    var e := Event(kind, connector, db.now, attempt, details);
    var duplicate := kind == HealthFailedConfirmed && Project(db.log).confirmed > 0;
    var after := db.(replies := Rest(db.replies));
    ProjectAppend(db.log, e);
    AuditAppend(db.log, e);
    (if Applied(First(db.replies)) && !duplicate then after.(log := db.log + [e], now := db.now + 1) else after,
     DoneOf(First(db.replies)))
  }

  function SetStatus(db: Db, status: Status): (Db, Done) {
    var after := db.(replies := Rest(db.replies));
    (if Applied(First(db.replies)) then after.(status := status) else after, DoneOf(First(db.replies)))
  }

  function SetCurrent(db: Db, name: Name): (Db, Done) {
    var after := db.(replies := Rest(db.replies));
    (if Applied(First(db.replies)) then after.(current := name) else after, DoneOf(First(db.replies)))
  }

  // ---- Kafka Connect -------------------------------------------------------

  /** `stopped` maps each registered connector to whether it is stopped.  Offsets
      are kept apart: Kafka Connect retains them beyond the connector. */
  datatype Cluster = Cluster(stopped: map<Name, bool>, offsets: map<Name, Offsets>)
  {
    predicate Running(n: Name) {
      n in stopped && !stopped[n]
    }
  }

  datatype Op =
    | RestartFailed | RestartAll | StopOp
    | CreateOp(retry: bool, running: bool)
    | PatchOp | ResumeOp | DeleteOp

  /** One request, whether the caller saw it succeed, and the cluster it left. */
  datatype Call = Call(op: Op, name: Name, ok: bool, after: Cluster)

  datatype Kc = Kc(cluster: Cluster, calls: seq<Call>, replies: seq<Reply>)

  function Issue(kc: Kc, op: Op, name: Name, ok: bool, after: Cluster): (r: Kc)
    ensures r.cluster == after && r.calls == kc.calls + [Call(op, name, ok, after)]
  {
    Kc(after, kc.calls + [Call(op, name, ok, after)], Rest(kc.replies))
  }

  function StopConnector(kc: Kc, name: Name): (r: (Kc, bool))
    ensures r.0 == Issue(kc, StopOp, name, r.1, r.0.cluster)
    ensures r.1 ==> !r.0.cluster.Running(name)
    ensures r.0.cluster.offsets == kc.cluster.offsets
    ensures forall n :: r.0.cluster.Running(n) ==> kc.cluster.Running(n)
    ensures forall n :: n in r.0.cluster.stopped <==> n in kc.cluster.stopped
  {
    var reply := First(kc.replies);
    var c := kc.cluster;
    var after := if Applied(reply) && name in c.stopped then c.(stopped := c.stopped[name := true]) else c;
    (Issue(kc, StopOp, name, reply.Ok?, after), reply.Ok?)
  }

  /** Creating a registered name is a conflict.  The result raises unless the
      connector was created and the reply arrived. */
  function CreateConnector(kc: Kc, name: Name, retry: bool, running: bool): (r: (Kc, Done))
    ensures r.0 == Issue(kc, CreateOp(retry, running), name, r.1.Returned?, r.0.cluster)
    ensures r.0.cluster.offsets == kc.cluster.offsets
    ensures r.0.cluster == kc.cluster || (name !in kc.cluster.stopped
            && r.0.cluster == kc.cluster.(stopped := kc.cluster.stopped[name := !running]))
    ensures r.1.Returned? ==> name in r.0.cluster.stopped && r.0.cluster.stopped[name] == !running
  {
    var reply := First(kc.replies);
    var c := kc.cluster;
    if name in c.stopped then
      (Issue(kc, CreateOp(retry, running), name, false, c), Raised(reply.Fail? && reply.timeout))
    else
      var after := if Applied(reply) then c.(stopped := c.stopped[name := !running]) else c;
      (Issue(kc, CreateOp(retry, running), name, reply.Ok?, after), DoneOf(reply))
  }

  /** Offsets can be altered on a registered, stopped connector only. */
  function PatchOffsets(kc: Kc, name: Name, offsets: Offsets): (r: (Kc, bool))
    ensures r.0 == Issue(kc, PatchOp, name, r.1, r.0.cluster)
    ensures r.0.cluster.stopped == kc.cluster.stopped
    ensures forall n :: n != name && n in kc.cluster.offsets ==>
              n in r.0.cluster.offsets && r.0.cluster.offsets[n] == kc.cluster.offsets[n]
    ensures r.1 ==> name in r.0.cluster.offsets && r.0.cluster.offsets[name] == offsets
    ensures r.1 ==> name in r.0.cluster.stopped && r.0.cluster.stopped[name]
  {
    var reply := First(kc.replies);
    var c := kc.cluster;
    var possible := name in c.stopped && c.stopped[name];
    var after := if Applied(reply) && possible then c.(offsets := c.offsets[name := offsets]) else c;
    (Issue(kc, PatchOp, name, reply.Ok? && possible, after), reply.Ok? && possible)
  }

  function ResumeConnector(kc: Kc, name: Name): (r: (Kc, bool))
    ensures r.0 == Issue(kc, ResumeOp, name, r.1, r.0.cluster)
    ensures r.0.cluster.offsets == kc.cluster.offsets
    ensures forall n :: n != name ==> (r.0.cluster.Running(n) <==> kc.cluster.Running(n))
  {
    var reply := First(kc.replies);
    var c := kc.cluster;
    var after := if Applied(reply) && name in c.stopped then c.(stopped := c.stopped[name := false]) else c;
    var ok := reply.Ok? && name in c.stopped;
    (Issue(kc, ResumeOp, name, ok, after), ok)
  }

  /** Deletion failures are swallowed by every caller. */
  function DeleteConnector(kc: Kc, name: Name): (r: Kc)
    ensures r == Issue(kc, DeleteOp, name, First(kc.replies).Ok?, r.cluster)
    ensures r.cluster.offsets == kc.cluster.offsets
    ensures forall n :: r.cluster.Running(n) ==> kc.cluster.Running(n)
  {
    var c := kc.cluster;
    var after := if Applied(First(kc.replies)) then c.(stopped := c.stopped - {name}) else c;
    Issue(kc, DeleteOp, name, First(kc.replies).Ok?, after)
  }

  /** A restart leaves a connector stopped or not stopped, as it was. */
  function RestartConnector(kc: Kc, name: Name, onlyFailed: bool): (r: (Kc, Done))
    ensures r.0 == Issue(kc, if onlyFailed then RestartFailed else RestartAll, name, r.1.Returned?, kc.cluster)
  {
    var reply := First(kc.replies);
    (Issue(kc, if onlyFailed then RestartFailed else RestartAll, name, reply.Ok?, kc.cluster), DoneOf(reply))
  }

  // ---- The whole state -----------------------------------------------------

  datatype Health = Healthy | Unhealthy(failedTasks: bool) | Unreachable | NotCreated | Stopped

  datatype Observation = Observation(health: Health, at: int)

  /** What one process remembers about the item between steps.  `seen` lists the
      health checks it made. */
  datatype Memory = Memory(uncertain: bool, healthySince: Option<int>, seen: seq<Observation>)

  datatype World = World(db: Db, kc: Kc, mem: Memory)
}
