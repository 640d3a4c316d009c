/** What the agent process holds in memory, and its synchronous stretches: the code between two
    awaits. A stretch is the list of database states it leaves behind, one per statement, plus
    the memory after it. A crash may cut it after any of them. */
module Runtime {
  import opened Prelude
  import opened KeyTable
  import opened Store

  // ---------------------------------------------------------------- memory

  /** The suspended part of one leased mutation. Operations and live jobs are the entries of
      `PersistentOperationManager.active` and `JobManager.controllers`. */
  datatype Stage =
    | Operation
    | JobOpening(attached: Option<Id>, jobKey: Option<KeyId>)
    | JobLive(aborted: bool)
    | JobSettled
    | Guarding(key: KeyId)

  /** `since` is when the lease was last acquired or renewed. */
  datatype Section = Section(project: Project, owner: Owner, ttl: int, since: Time, stage: Stage)

  datatype DeployStage = DeployActing | ServiceChecking | DeployHealth(service: Option<bool>)
  datatype RollStage =
    | RollActing
    | Verifying(clean: bool, head: Option<Commit>)
    | RollHealth(clean: bool, head: Option<Commit>, service: Option<bool>)

  /** Where the `run` callback of a persistent operation is suspended. */
  datatype Engine =
    | Validating
    | Precheck(task: Id)
    | Deploying(deployment: Id, task: Id, setup: Project_, deployStage: DeployStage)
    | Opening(plan: Id)
    | Checking(plan: Id, setup: Project_)
    | RollingBack(plan: Id, setup: Project_, rollStage: RollStage)
    | ToAssess(task: Id)
    | Assessing(task: Id, attempt: nat)
    | Returned(succeeded: bool, target: Target := NoTarget)

  datatype Assessment = Assessment(task: Id, attempt: nat)

  /** A `rollback_plan` call suspended at its Git and migration reads. */
  datatype Draft = Draft(
    task: Id, project: Project, deployment: Id, target: Option<Commit>, deployed: Option<Commit>,
        migration: Migration.Raw)

  datatype Cancelling = Cancelling(task: Id, job: Id)

  datatype Mem = Mem(
    instance: nat,
    sections: map<Id, Section>,
    stopping: Option<set<Id>>,
    engines: map<Id, Engine>,
    direct: map<Id, Assessment>,
    drafts: map<Id, Draft>,
    cancelling: map<Id, Cancelling>)

  function Boot(instance: nat): Mem { Mem(instance, map[], None, map[], map[], map[], map[]) }

  datatype Config = Config(maxAttempts: nat, maxJobs: nat, opTtl: int, jobTtl: int, guardTtl: int)

  /** The constructors insist on these bounds. */
  predicate ValidConfig(c: Config) {
    && c.maxAttempts >= 1
    && 5_000 <= c.opTtl <= 86_400_000
    && ValidTtl(c.jobTtl) && ValidTtl(c.guardTtl)
  }

  /** `renewEvery` of a persistent operation. */
  function RenewEvery(ttl: int): int { if ttl / 3 > 1_000 then ttl / 3 else 1_000 }

  datatype Stretch = Stretch(writes: seq<Durable>, mem: Mem)

  function Last(d: Durable, writes: seq<Durable>): Durable {
    if writes == [] then d else writes[|writes| - 1]
  }

  function Quiet(m: Mem): Stretch { Stretch([], m) }

  function Bump(begun: map<KeyId, nat>, k: KeyId): map<KeyId, nat> {
    begun[k := if k in begun then begun[k] + 1 else 1]
  }

  function SetKeys(d: Durable, t: Table): Durable { d.(keys := t) }

  /** Complete or fail a key, which the callers have seen in progress. */
  function FinishKey(d: Durable, k: KeyId, status: KeyStatus, result: Payload, now: Time): (r: Durable)
    ensures r == d.(keys := r.keys)
  {
    SetKeys(d, OrSame(Finish(d.keys, k, status, result, now), d.keys))
  }

  function ReleaseLease(d: Durable, p: Project, owner: Owner): (r: Durable)
    ensures r == d.(keys := r.keys)
  {
    SetKeys(d, Release(d.keys, p, owner))
  }

  function BeginKey(d: Durable, k: KeyId, fp: Fingerprint, now: Time): (r: Durable)
    ensures r == d.(keys := r.keys)
  {
    SetKeys(d, OrSame(Begin(d.keys, k, fp, now), d.keys))
  }

  /** Acquire as a write; None is the refusal. */
  function TakeLease(d: Durable, p: Project, operation: string, owner: Owner, ttl: int, now: Time): (r: Option<Durable>)
    ensures r.Some? ==> r.value == d.(keys := r.value.keys)
  {
    var t := Acquire(d.keys, p, operation, owner, ttl, now);
    if t.None? then None else Some(SetKeys(d, t.value))
  }

  /** The effect behind a key begins. */
  function BeginEffect(d: Durable, k: KeyId): (r: Durable)
    ensures r == d.(begun := r.begun)
  {
    d.(begun := Bump(d.begun, k))
  }

  /** A guarded effect ends: it returned a result, or threw. */
  function EndEffect(d: Durable, k: KeyId, result: Option<string>): (r: Durable)
    ensures r == d.(outcomes := r.outcomes)
  {
    d.(outcomes := d.outcomes[k := result])
  }

  /** The lease was refused: the key fails. */
  function LeaseRefused(d1: Durable, m: Mem, k: KeyId, now: Time): Stretch {
    Stretch([d1, FinishKey(d1, k, Failed, Value("lease"), now)], m)
  }

  // ---------------------------------------------------------------- persistent operations

  /** The durable writes of `start`: key begun, lease taken, row inserted, key completed, and the
      effect running; or the key failed. `engine` is the callback as `start` received it. */
  function StartOp(c: Config, d: Durable, m: Mem, now: Time, id: Id, kind: OpKind, p: Project, task: Id, key: string,
          engine: Engine): Stretch
  {
    var k, fp := KeyId(OpScope(kind, p), key), OpPrint(kind, p, task);
    if m.stopping.Some? || !RequireReplayable(d.keys, k, fp).Absent? then Quiet(m)
    else
      var owner := SectionOwner(m.instance, id);
      var d1 := BeginKey(d, k, fp, now);
      var leased := TakeLease(d1, p, "persistent-" + KindText(kind), owner, c.opTtl, now);
      if leased.None? then LeaseRefused(d1, m, k, now)
      else if !Referenced(d, p, task) then RowRefused(d1, leased.value, m, k, p, owner, now)
      else OpStarted(d1, leased.value, m, now, k, id, OpRow(task, p, kind, OpRunning, false),
          Section(p, owner, c.opTtl, now, Operation), engine)
  }

  datatype Reply = Returns(id: Id) | Throws

  /** What `start` answers: the recorded operation, or the one it has just started. */
  function StartReply(c: Config, d: Durable, m: Mem, now: Time, id: Id, kind: OpKind, p: Project, task: Id, key: string,
          engine: Engine): Reply
  {
    var replay := RequireReplayable(d.keys, KeyId(OpScope(kind, p), key), OpPrint(kind, p, task));
    if m.stopping.Some? || replay.Refused? then Throws
    else if replay.Replayed? then
      if replay.result.OpRef? && replay.result.op in d.ops then Returns(replay.result.op) else Throws
    else if id in StartOp(c, d, m, now, id, kind, p, task, key, engine).mem.sections then Returns(id) else Throws
  }

  /** The row names no task or no project: the lease goes back and the key fails. */
  function RowRefused(d1: Durable, d2: Durable, m: Mem, k: KeyId, p: Project, owner: Owner, now: Time): Stretch {
    var d3 := ReleaseLease(d2, p, owner);
    Stretch([d1, d2, d3, FinishKey(d3, k, Failed, Value("row"), now)], m)
  }

  /** Row inserted, key completed with its id, effect begun. */
  function OpRowWrites(d: Durable, k: KeyId, id: Id, row: OpRow, now: Time): seq<Durable> {
    var d3 := d.(ops := d.ops[id := row]);
    var d4 := FinishKey(d3, k, Completed, OpRef(id), now);
    [d3, d4, BeginEffect(d4, k)]
  }

  function OpStarted(d1: Durable, d2: Durable, m: Mem, now: Time, k: KeyId, id: Id, row: OpRow, s: Section,
          engine: Engine): Stretch
  {
    Stretch([d1, d2] + OpRowWrites(d2, k, id, row, now),
        m.(sections := m.sections[id := s], engines := m.engines[id := engine]))
  }

  function SetOp(d: Durable, o: Id, status: OpStatus, target: Target): Durable
    requires o in d.ops
  {
    d.(ops := d.ops[o := d.ops[o].(status := status, target := target)])
  }

  function OpOutcome(succeeded: bool): OpStatus { if succeeded then OpSucceeded else OpFailed }

  /** The continuation of `await run()`: the unguarded final UPDATE, the release, the map entry. */
  function FinishOp(d: Durable, m: Mem, o: Id): Stretch
    requires o in m.sections && o in m.engines && m.engines[o].Returned? && o in d.ops
  {
    var d1 := SetOp(d, o, OpOutcome(m.engines[o].succeeded), m.engines[o].target);
    Stretch([d1, ReleaseLease(d1, m.sections[o].project, m.sections[o].owner)],
        m.(sections := m.sections - {o}, engines := m.engines - {o}))
  }

  /** One tick of the renewal timer; a failed renewal is swallowed. */
  function RenewTick(c: Config, d: Durable, m: Mem, now: Time, o: Id): Stretch
    requires o in m.sections
  {
    var s := m.sections[o];
    var t := Renew(d.keys, s.project, s.owner, c.opTtl, now);
    if t.None? then Quiet(m)
    else Stretch([SetKeys(d, t.value)], m.(sections := m.sections[o := s.(since := now, ttl := c.opTtl)]))
  }

  function RequestCancellation(d: Durable, m: Mem, o: Id): Stretch {
    if o in d.ops && d.ops[o].status.OpRunning? && !d.ops[o].cancelRequested
    then Stretch([d.(ops := d.ops[o := d.ops[o].(cancelRequested := true)])], m)
    else Quiet(m)
  }

  function ActiveOps(m: Mem): set<Id> { set o | o in m.sections && m.sections[o].stage.Operation? }

  /** `shutdown` up to its await: no more starts, and the promises it waits for. */
  function Shutdown(m: Mem): Stretch { Quiet(m.(stopping := Some(ActiveOps(m)))) }

  // ---------------------------------------------------------------- jobs

  function FailJobKey(d: Durable, key: Option<KeyId>, now: Time): seq<Durable> {
    if key.None? then [] else [FinishKey(d, key.value, Failed, Value("job"), now)]
  }

  function BeginJobKey(d: Durable, key: Option<KeyId>, fp: Fingerprint, now: Time): (r: Durable)
    ensures r == d.(keys := r.keys)
  {
    if key.None? then d else BeginKey(d, key.value, fp, now)
  }

  /** `start` up to `await mkdir`: key begun, lease taken. */
  function JobBegin(c: Config, d: Durable, m: Mem, now: Time, id: Id, p: Project, command: string, attached: Option<Id>,
          key: Option<string>): Stretch
  {
    var fp := JobPrint(p, command, attached);
    var k := if key.None? then None else Some(KeyId(JobScope(p), key.value));
    if k.Some? && !RequireReplayable(d.keys, k.value, fp).Absent? then Quiet(m)
    else
      var owner := SectionOwner(m.instance, id);
      var d1 := BeginJobKey(d, k, fp, now);
      var leased := TakeLease(d1, p, "command:" + command, owner, c.jobTtl, now);
      if leased.None? then Stretch([d1] + FailJobKey(d1, k, now), m)
      else Opens([d1, leased.value], m, id, Section(p, owner, c.jobTtl, now, JobOpening(attached, k)))
  }

  datatype JobReply = Waits | Recalls(job: Id) | Rejects

  /** What the first stretch of `start` answers: the recorded job, or it waits for its directory. */
  function JobBeginReply(c: Config, d: Durable, m: Mem, now: Time, id: Id, p: Project, command: string,
          attached: Option<Id>, key: Option<string>): JobReply
  {
    var replay := if key.None? then Absent
      else RequireReplayable(d.keys, KeyId(JobScope(p), key.value), JobPrint(p, command, attached));
    if replay.Refused? then Rejects
    else if replay.Replayed? then
      if replay.result.JobRef? && replay.result.job in d.jobs then Recalls(replay.result.job) else Rejects
    else if id in JobBegin(c, d, m, now, id, p, command, attached, key).mem.sections then Waits else Rejects
  }

  /** The writes made, and a section opened or moved on. */
  function Opens(writes: seq<Durable>, m: Mem, id: Id, s: Section): Stretch {
    Stretch(writes, m.(sections := m.sections[id := s]))
  }

  function RunningJobs(jobs: map<Id, JobRow>): set<Id> { set j | j in jobs && jobs[j].status.JobRunning? }

  /** The checks inside `start`'s transaction, and the foreign key on the project. */
  predicate MayAttach(c: Config, d: Durable, p: Project, attached: Option<Id>) {
    && p in d.projects
    && |RunningJobs(d.jobs)| < c.maxJobs
    && (attached.Some? ==>
          && attached.value in d.tasks
          && d.tasks[attached.value].project == p
          && d.tasks[attached.value].status == RUNNING
          && !RunningJob(d.jobs, attached.value))
  }

  /** `start` after `await mkdir`, refused: the release and the failed key. */
  function JobRefused(d: Durable, m: Mem, now: Time, j: Id): Stretch
    requires j in m.sections && m.sections[j].stage.JobOpening?
  {
    var s := m.sections[j];
    var d1 := ReleaseLease(d, s.project, s.owner);
    Stretch([d1] + FailJobKey(d1, s.stage.jobKey, now), m.(sections := m.sections - {j}))
  }

  /** `start` after `await mkdir`, admitted: the row, the running command, the completed key. */
  function JobAdmitted(d: Durable, m: Mem, now: Time, j: Id): Stretch
    requires j in m.sections && m.sections[j].stage.JobOpening?
  {
    var s := m.sections[j];
    var d1 := d.(jobs := d.jobs[j := JobRow(s.stage.attached, s.project, JobRunning)]);
    Opens([d1] + JobKeyWrites(d1, s.stage.jobKey, j, now), m, j, s.(stage := JobLive(false)))
  }

  function JobKeyWrites(d1: Durable, key: Option<KeyId>, j: Id, now: Time): seq<Durable> {
    if key.None? then []
    else
      var d2 := BeginEffect(d1, key.value);
      [d2, FinishKey(d2, key.value, Completed, JobRef(j), now)]
  }

  function JobAttach(c: Config, d: Durable, m: Mem, now: Time, j: Id, filesOpen: bool): Stretch
    requires j in m.sections && m.sections[j].stage.JobOpening?
  {
    if filesOpen && MayAttach(c, d, m.sections[j].project, m.sections[j].stage.attached)
    then JobAdmitted(d, m, now, j) else JobRefused(d, m, now, j)
  }

  function SetJob(d: Durable, j: Id, status: JobStatus): Durable
    requires j in d.jobs
  {
    d.(jobs := d.jobs[j := d.jobs[j].(status := status)])
  }

  function JobOutcome(aborted: bool, exitedCleanly: bool): JobStatus {
    if aborted then JobCancelled else if exitedCleanly then JobCompleted else JobFailed
  }

  /** The `then`/`catch` callback of a job: the unguarded final UPDATE. */
  function JobExit(d: Durable, m: Mem, j: Id, exitedCleanly: bool): Stretch
    requires j in m.sections && m.sections[j].stage.JobLive? && j in d.jobs
  {
    var s := m.sections[j];
    Opens([SetJob(d, j, JobOutcome(s.stage.aborted, exitedCleanly))], m, j, s.(stage := JobSettled))
  }

  /** The `finally` callback: map entry and lease go. */
  function JobCleanup(d: Durable, m: Mem, j: Id): Stretch
    requires j in m.sections
  {
    var s := m.sections[j];
    Stretch([ReleaseLease(d, s.project, s.owner)], m.(sections := m.sections - {j}))
  }

  datatype CancelReply = Aborted | NotRunning | NotAttached

  /** `cancel`: refused unless the row is RUNNING, then unless this process runs it. */
  function CancelReplyFor(d: Durable, m: Mem, j: Id): CancelReply {
    if j !in d.jobs || !d.jobs[j].status.JobRunning? then NotRunning
    else if !(j in m.sections && m.sections[j].stage.JobLive?) then NotAttached
    else Aborted
  }

  function Abort(m: Mem, j: Id): Mem {
    if j in m.sections && m.sections[j].stage.JobLive?
    then m.(sections := m.sections[j := m.sections[j].(stage := JobLive(true))]) else m
  }

  function JobCancel(d: Durable, m: Mem, j: Id): Stretch {
    if CancelReplyFor(d, m, j).Aborted? then Quiet(Abort(m, j)) else Quiet(m)
  }

  // ---------------------------------------------------------------- guarded writes and restarts

  function GuardName(s: Scope): string { if s.WriteScope? then s.operation else "restart" }

  function GuardLease(s: Scope): string { if s.WriteScope? then "database:" + s.operation else "service-restart" }

  /** The scopes the two guarded clients build. */
  predicate GuardScope(s: Scope) { s.RestartScope? || (s.WriteScope? && s.operation in {"query", "transaction"}) }

  /** `guardedWrite` and `restart` up to the await of their effect. */
  function GuardBegin(c: Config, d: Durable, m: Mem, now: Time, id: Id, k: KeyId, fp: Fingerprint): Stretch
    requires GuardScope(k.scope)
  {
    if !RequireReplayable(d.keys, k, fp).Absent? then Quiet(m)
    else
      var owner := GuardOwner(m.instance, GuardName(k.scope), k.key);
      var d1 := BeginKey(d, k, fp, now);
      var leased := TakeLease(d1, k.scope.project, GuardLease(k.scope), owner, c.guardTtl, now);
      if leased.None? then LeaseRefused(d1, m, k, now)
      else Opens([d1, leased.value, BeginEffect(leased.value, k)], m, id,
          Section(k.scope.project, owner, c.guardTtl, now, Guarding(k)))
  }

  /** The rest of them: the effect has ended, the key is completed with its result or failed, then
      the release. */
  function GuardEnd(d: Durable, m: Mem, now: Time, g: Id, result: Option<string>): Stretch
    requires g in m.sections && m.sections[g].stage.Guarding?
  {
    var s := m.sections[g];
    var d1 := EndEffect(d, s.stage.key, result);
    var d2 := if result.Some? then FinishKey(d1, s.stage.key, Completed, Value(result.value), now)
              else FinishKey(d1, s.stage.key, Failed, Value("effect"), now);
    Stretch([d1, d2, ReleaseLease(d2, s.project, s.owner)], m.(sections := m.sections - {g}))
  }

  // ---------------------------------------------------------------- tasks

  function RegisterProject(d: Durable, m: Mem, p: Project): Stretch {
    if p in d.projects then Quiet(m) else Stretch([d.(projects := d.projects + {p})], m)
  }

  /** A task of a project without a row is refused by the foreign key. */
  function CreateTask(d: Durable, m: Mem, id: Id, p: Project): Stretch {
    if p !in d.projects then Quiet(m)
    else Stretch([d.(tasks := d.tasks[id := TaskRow(p, PENDING, true, None, NoState, 0)])], m)
  }

  predicate MayResume(d: Durable, t: Id): (may: bool)
    ensures may ==> t in d.tasks
  {
    && t in d.tasks
    && d.tasks[t].resumable
    && d.tasks[t].status in RESUMABLE
    && !BlockingWork(d, t)
    && (d.tasks[t].status == RECOVERY_REQUIRED ==> ResumeVerified(d.runs, t))
  }

  function Resume(d: Durable, m: Mem, t: Id): Stretch {
    if !MayResume(d, t) then Quiet(m)
    else if d.tasks[t].status == RECOVERY_REQUIRED then
      var d1 := d.(tasks := d.tasks[t := d.tasks[t].(recoveryAttempts := d.tasks[t].recoveryAttempts + 1)]);
      Stretch([d1, WithStatus(d1, t, RUNNING)], m)
    else Stretch([WithStatus(d, t, RUNNING)], m)
  }

  function Pause(d: Durable, m: Mem, t: Id): Stretch {
    if t in d.tasks && d.tasks[t].status == RUNNING && !BlockingWork(d, t)
    then Stretch([WithStatus(d, t, PAUSED)], m) else Quiet(m)
  }

  /** `cancel` of a task with a running job, up to the wait for it: the job is aborted. */
  ghost function CancelBegin(d: Durable, m: Mem, id: Id, t: Id): Stretch {
    if t !in d.tasks || Terminal(d.tasks[t].status) || BlockingOp(d.ops, t) || !RunningJob(d.jobs, t) then Quiet(m)
    else
      var j := AttachedJob(d.jobs, t);
      if !CancelReplyFor(d, m, j).Aborted? then Quiet(m)
      else var m1 := Abort(m, j); Quiet(m1.(cancelling := m1.cancelling[id := Cancelling(t, j)]))
  }

  /** `cancel` of a task without a running job: one stretch from the checks to the status. */
  function CancelNow(d: Durable, m: Mem, t: Id): Stretch {
    if t !in d.tasks || Terminal(d.tasks[t].status) || BlockingOp(d.ops, t) || RunningJob(d.jobs, t)
       || UnknownJob(d.jobs, t)
    then Quiet(m)
    else
      var moved := SetStatus(d, t, CANCELLED);
      if moved.None? then Quiet(m) else Stretch([moved.value], m)
  }

  /** The newest running job of a task; at most one exists, so the order does not matter. */
  ghost function AttachedJob(jobs: map<Id, JobRow>, t: Id): Id
    requires RunningJob(jobs, t)
  {
    var j :| j in jobs && jobs[j].attached == Some(t) && jobs[j].status.JobRunning?;
    j
  }

  function CancelEnd(d: Durable, m: Mem, id: Id): Stretch
    requires id in m.cancelling
  {
    var t := m.cancelling[id].task;
    var m1 := m.(cancelling := m.cancelling - {id});
    var moved := SetStatus(d, t, CANCELLED);
    if UnknownJob(d.jobs, t) || moved.None? then Quiet(m1) else Stretch([moved.value], m1)
  }
}
