/** The whole agent as a transition system: one process at a time over one database, crashes at
    any statement boundary, and the startup sequence that follows. */
module Agent {
  import opened Prelude
  import opened KeyTable
  import opened Store
  import opened Runtime
  import opened Engines

  /** `Starting(n)`: the startup sequence has done its first n parts. */
  datatype Mode = Up(mem: Mem) | Starting(part: nat)
  datatype State = State(d: Durable, now: Time, boots: nat, mode: Mode)

  // Synchronous stretches of a running agent. `drawn` is a random id the stretch draws.

  datatype OpLabel =
    | StartOperation(drawn: Id, kind: OpKind, project: Project, task: Id, key: string, plan: Id)
    | FinishOperation(op: Id)
    | RenewLease(op: Id)
    | RequestCancel(op: Id)
    | ShutDown
    | BeginCancel(call: Id, task: Id)

  datatype JobLabel =
    | BeginJob(drawn: Id, project: Project, command: string, attached: Option<Id>, jobKey: Option<string>)
    | AttachJob(job: Id, filesOpen: bool)
    | ExitJob(job: Id, exitedCleanly: bool)
    | CleanUpJob(job: Id)
    | CancelJob(job: Id)
    | BeginGuarded(drawn: Id, guardKey: KeyId, fp: Fingerprint)
    | EndGuarded(guard: Id, result: Option<string>)

  datatype TaskLabel =
    | NewProject(project: Project)
    | NewTask(drawn: Id, project: Project)
    | ResumeTask(task: Id)
    | PauseTask(task: Id)
    | CancelTask(task: Id)
    | EndCancel(call: Id)
    | Validated(op: Id, succeeded: bool, validation: Id)
    | Throw(op: Id)

  datatype DeployLabel =
    | RecordDeploy(op: Id, drawn: Id, setup: Project_, before: Option<Commit>, migration: Migration.Raw,
        validation: Option<bool>)
    | FailDeploy(op: Id)
    | DeployedTo(op: Id, after: Option<Commit>)
    | DeployServiceIs(op: Id, active: Option<bool>)
    | DeployHealthIs(op: Id, health: Health)

  datatype RollLabel =
    | BeginPlan(call: Id, task: Id, project: Project)
    | CommitPlan(call: Id, drawn: Id, noAdapter: bool, seen: Observed)
    | OpenRollback(op: Id, setup: Project_)
    | RunRollback(op: Id, check: Check)
    | FailRollback(op: Id)
    | RolledTo(op: Id, exitedCleanly: bool, head: Option<Commit>)
    | RollServiceIs(op: Id, active: Option<bool>)
    | RollHealthIs(op: Id, health: Health)

  datatype AssessLabel =
    | BeginAssess(op: Id)
    | EndAssess(op: Id, verdict: Verdict)
    | BeginDirect(call: Id, task: Id, project: Project)
    | EndDirect(call: Id, verdict: Verdict)

  datatype Label =
    | OnOp(o: OpLabel)
    | OnJob(j: JobLabel)
    | OnTask(t: TaskLabel)
    | OnDeploy(e: DeployLabel)
    | OnRoll(r: RollLabel)
    | OnAssess(a: AssessLabel)

  function EngineFor(kind: OpKind, task: Id, plan: Id): Engine {
    match kind
    case Validation => Validating
    case Deployment => Precheck(task)
    case Rollback => Opening(plan)
    case Recovery => ToAssess(task)
  }

  ghost predicate AssessingTask(m: Mem, t: Id) {
    || (exists o | o in m.engines :: m.engines[o].Assessing? && m.engines[o].task == t)
    || (exists a | a in m.direct :: m.direct[a].task == t)
  }

  /** Another assessment of the task is under way, and this one would not be turned away. */
  ghost predicate Overlaps(d: Durable, m: Mem, t: Id, p: Project) {
    t in d.tasks && d.tasks[t].project == p && AssessingTask(m, t)
  }

  /** The operation suspended as engine stage `e`. */
  ghost predicate EngineIs(m: Mem, o: Id) { o in m.sections && m.sections[o].stage.Operation? && o in m.engines }

  /** A random id just drawn: nothing has it. */
  ghost predicate Unused(d: Durable, m: Mem, id: Id) {
    && id !in d.ops && id !in d.jobs && id !in d.tasks && id !in d.deployments && id !in d.plans && id !in m.sections
    && forall r | r in d.runs :: r.task != id
  }

  /** The rollback tool reads its plan and starts with the plan's project and task. */
  predicate ToolPlan(d: Durable, p: Project, t: Id, plan: Id) {
    plan in d.plans && d.plans[plan].project == p && d.plans[plan].task == t
  }

  // When a stretch can run: the suspended call it continues exists, and its random id is new.
  // Two assessments of one task do not overlap.

  ghost predicate OpEnabled(d: Durable, m: Mem, l: OpLabel) {
    match l
    case StartOperation(id, kind, p, t, _, plan) => Unused(d, m, id) && (kind.Rollback? ==> ToolPlan(d, p, t, plan))
    case FinishOperation(o) => EngineIs(m, o) && m.engines[o].Returned? && o in d.ops
    case RenewLease(o) => o in m.sections && m.sections[o].stage.Operation?
    case BeginCancel(id, t) => id !in m.cancelling && RunningJob(d.jobs, t)
    case _ => true
  }

  ghost function PerformOp(c: Config, d: Durable, m: Mem, now: Time, l: OpLabel): Stretch
    requires OpEnabled(d, m, l)
  {
    match l
    case StartOperation(id, kind, p, t, key, plan) =>
      StartOp(c, d, m, now, id, kind, p, t, key, EngineFor(kind, t, plan))
    case FinishOperation(o) => FinishOp(d, m, o)
    case RenewLease(o) => RenewTick(c, d, m, now, o)
    case RequestCancel(o) => RequestCancellation(d, m, o)
    case ShutDown => Shutdown(m)
    case BeginCancel(id, t) => CancelBegin(d, m, id, t)
  }

  ghost predicate JobEnabled(d: Durable, m: Mem, l: JobLabel) {
    match l
    case BeginJob(id, _, _, _, _) => Unused(d, m, id)
    case AttachJob(j, _) => j in m.sections && m.sections[j].stage.JobOpening?
    case ExitJob(j, _) => j in m.sections && m.sections[j].stage.JobLive? && j in d.jobs
    case CleanUpJob(j) => j in m.sections && m.sections[j].stage.JobSettled?
    case CancelJob(_) => true
    case BeginGuarded(id, k, _) => Unused(d, m, id) && GuardScope(k.scope)
    case EndGuarded(g, _) => g in m.sections && m.sections[g].stage.Guarding?
  }

  ghost function PerformJob(c: Config, d: Durable, m: Mem, now: Time, l: JobLabel): Stretch
    requires JobEnabled(d, m, l)
  {
    match l
    case BeginJob(id, p, command, attached, key) => JobBegin(c, d, m, now, id, p, command, attached, key)
    case AttachJob(j, filesOpen) => JobAttach(c, d, m, now, j, filesOpen)
    case ExitJob(j, clean) => JobExit(d, m, j, clean)
    case CleanUpJob(j) => JobCleanup(d, m, j)
    case CancelJob(j) => JobCancel(d, m, j)
    case BeginGuarded(id, k, fp) => GuardBegin(c, d, m, now, id, k, fp)
    case EndGuarded(g, result) => GuardEnd(d, m, now, g, result)
  }

  ghost predicate TaskEnabled(d: Durable, m: Mem, l: TaskLabel) {
    match l
    case NewTask(id, _) => Unused(d, m, id)
    case EndCancel(id) => id in m.cancelling && m.cancelling[id].job !in m.sections
    case CancelTask(t) => !RunningJob(d.jobs, t)
    case Validated(o, _, _) => EngineIs(m, o) && m.engines[o].Validating?
    case Throw(o) => EngineIs(m, o) && MayThrow(m.engines[o])
    case _ => true
  }

  ghost function PerformTask(d: Durable, m: Mem, l: TaskLabel): Stretch
    requires TaskEnabled(d, m, l)
  {
    match l
    case NewProject(p) => RegisterProject(d, m, p)
    case NewTask(id, p) => CreateTask(d, m, id, p)
    case ResumeTask(t) => Resume(d, m, t)
    case PauseTask(t) => Pause(d, m, t)
    case EndCancel(id) => CancelEnd(d, m, id)
    case CancelTask(t) => CancelNow(d, m, t)
    case Validated(o, ok, validation) => Quiet(At(m, o, Returned(ok, RowTarget(validation))))
    case Throw(o) => Quiet(At(m, o, Returned(false)))
  }

  ghost predicate DeployEnabled(d: Durable, m: Mem, l: DeployLabel) {
    && EngineIs(m, l.op)
    && (if l.RecordDeploy? then Unused(d, m, l.drawn) && m.engines[l.op].Precheck? && m.engines[l.op].task in d.tasks
        else DeployAt(d, m, l.op))
    && (l.DeployedTo? ==> m.engines[l.op].deployStage.DeployActing?)
    && (l.DeployServiceIs? ==> m.engines[l.op].deployStage.ServiceChecking?)
    && (l.DeployHealthIs? ==> m.engines[l.op].deployStage.DeployHealth?)
  }

  ghost function PerformDeploy(d: Durable, m: Mem, l: DeployLabel): Stretch
    requires DeployEnabled(d, m, l)
  {
    match l
    case RecordDeploy(o, id, setup, before, migration, validation) =>
      DeployRecord(d, m, o, id, setup, before, migration, validation)
    case FailDeploy(o) => DeployError(d, m, o)
    case DeployedTo(o, after) => DeployActed(d, m, o, after)
    case DeployServiceIs(o, active) => DeployService(d, m, o, active)
    case DeployHealthIs(o, health) => DeployFinish(d, m, o, health)
  }

  ghost predicate RollEnabled(d: Durable, m: Mem, l: RollLabel) {
    match l
    case BeginPlan(id, _, _) => id !in m.drafts
    case CommitPlan(id, plan, _, _) => Unused(d, m, plan) && id in m.drafts && m.drafts[id].task in d.tasks
    case OpenRollback(o, _) => EngineIs(m, o) && m.engines[o].Opening?
    case RunRollback(o, check) =>
      EngineIs(m, o) && m.engines[o].Checking? && m.engines[o].setup == check.setup && PlanAt(d, m.engines[o].plan)
    case FailRollback(o) => EngineIs(m, o) && RollAt(d, m, o)
    case RolledTo(o, _, _) => EngineIs(m, o) && RollAt(d, m, o) && m.engines[o].rollStage.RollActing?
    case RollServiceIs(o, _) => EngineIs(m, o) && RollAt(d, m, o) && m.engines[o].rollStage.Verifying?
    case RollHealthIs(o, _) => EngineIs(m, o) && RollAt(d, m, o) && m.engines[o].rollStage.RollHealth?
  }

  ghost function PerformRoll(d: Durable, m: Mem, l: RollLabel): Stretch
    requires RollEnabled(d, m, l)
  {
    match l
    case BeginPlan(id, t, p) => PlanBegin(d, m, id, t, p)
    case CommitPlan(id, plan, noAdapter, seen) => PlanCommit(d, m, id, plan, noAdapter, seen)
    case OpenRollback(o, setup) => RollOpen(d, m, o, setup)
    case RunRollback(o, check) => RollRun(d, m, o, check)
    case FailRollback(o) => RollError(d, m, o)
    case RolledTo(o, clean, head) => RollActed(d, m, o, clean, head)
    case RollServiceIs(o, active) => RollService(d, m, o, active)
    case RollHealthIs(o, health) => RollFinish(d, m, o, health)
  }

  ghost predicate AssessEnabled(d: Durable, m: Mem, l: AssessLabel) {
    match l
    case BeginAssess(o) =>
      EngineIs(m, o) && m.engines[o].ToAssess? && !Overlaps(d, m, m.engines[o].task, m.sections[o].project)
    case EndAssess(o, _) => EngineIs(m, o) && m.engines[o].Assessing?
    case BeginDirect(id, t, p) => id !in m.direct && !Overlaps(d, m, t, p)
    case EndDirect(id, _) => id in m.direct
  }

  ghost function PerformAssess(c: Config, d: Durable, m: Mem, now: Time, l: AssessLabel): Stretch
    requires AssessEnabled(d, m, l)
  {
    match l
    case BeginAssess(o) => AssessBegin(c, d, m, o)
    case EndAssess(o, verdict) => AssessEnd(d, m, now, o, verdict)
    case BeginDirect(id, t, p) => DirectBegin(c, d, m, id, t, p)
    case EndDirect(id, verdict) => DirectEnd(d, m, now, id, verdict)
  }

  ghost predicate Enabled(d: Durable, m: Mem, l: Label) {
    match l
    case OnOp(o) => OpEnabled(d, m, o)
    case OnJob(j) => JobEnabled(d, m, j)
    case OnTask(t) => TaskEnabled(d, m, t)
    case OnDeploy(e) => DeployEnabled(d, m, e)
    case OnRoll(r) => RollEnabled(d, m, r)
    case OnAssess(a) => AssessEnabled(d, m, a)
  }

  ghost function Perform(c: Config, d: Durable, m: Mem, now: Time, l: Label): Stretch
    requires Enabled(d, m, l)
  {
    match l
    case OnOp(o) => PerformOp(c, d, m, now, o)
    case OnJob(j) => PerformJob(c, d, m, now, j)
    case OnTask(t) => PerformTask(d, m, t)
    case OnDeploy(e) => PerformDeploy(d, m, e)
    case OnRoll(r) => PerformRoll(d, m, r)
    case OnAssess(a) => PerformAssess(c, d, m, now, a)
  }

  // ---------------------------------------------------------------- startup

  function ReconcileOps(ops: map<Id, OpRow>): map<Id, OpRow> {
    map o | o in ops :: if ops[o].status.OpRunning? then ops[o].(status := OpUnknown) else ops[o]
  }

  function ReconcileJobs(jobs: map<Id, JobRow>): map<Id, JobRow> {
    map j | j in jobs :: if jobs[j].status.JobRunning? then jobs[j].(status := JobUnknown) else jobs[j]
  }

  function MarkInterrupted(tasks: map<Id, TaskRow>): map<Id, TaskRow> {
    map t | t in tasks :: if Interrupted(tasks[t].status) then tasks[t].(status := RECOVERY_REQUIRED) else tasks[t]
  }

  function MarkUnknown(d: Durable): map<Id, TaskRow> {
    map t | t in d.tasks ::
      if !Terminal(d.tasks[t].status) && UnknownWork(d, t) then d.tasks[t].(status := RECOVERY_REQUIRED) else d.tasks[t]
  }

  predicate PrunableRun(runs: map<RunId, RunRow>, tasks: map<Id, TaskRow>, r: RunId, cutoff: Time)
    requires r in runs
  {
    && runs[r].finished.Some? && runs[r].finished.value < cutoff
    && r.task in tasks && Terminal(tasks[r.task].status)
    && exists q | q in runs :: q.task == r.task && r.attempt < q.attempt
  }

  function PruneRuns(d: Durable, cutoff: Time): map<RunId, RunRow> {
    map r | r in d.runs && !PrunableRun(d.runs, d.tasks, r, cutoff) :: d.runs[r]
  }

  /** A pruned key takes its history with it. */
  function PruneKeys(d: Durable, cutoff: Time): Durable {
    var keys := Prune(d.keys, cutoff);
    d.(keys := keys, begun := map k | k in d.begun && k in keys :: d.begun[k],
       outcomes := map k | k in d.outcomes && k in keys :: d.outcomes[k])
  }

  /** Parts of the startup sequence, in their order; `BootReclaim` is one row of the reclaim
      loop. Maintenance may stop early, and the agent still serves. */
  datatype Part =
    | BootReclaim(project: Project)
    | BootOps
    | BootJobs
    | BootInterrupted
    | BootUnknown
    | BootRuns(cutoff: Time)
    | BootKeys(cutoff: Time)
    | BootServe

  predicate PartFires(d: Durable, now: Time, n: nat, p: Part) {
    match p
    case BootReclaim(project) => n == 0 && LeaseKey(project) in d.keys && Reclaimable(d.keys[LeaseKey(project)], now)
    case BootOps => n == 0
    case BootJobs => n == 1
    case BootInterrupted => n == 2
    case BootUnknown => n == 3
    case BootRuns(_) => n == 4
    case BootKeys(_) => n == 5
    case BootServe => n >= 4
  }

  function AfterPart(d: Durable, p: Part): Durable {
    match p
    case BootReclaim(project) => SetKeys(d, d.keys - {LeaseKey(project)})
    case BootOps => d.(ops := ReconcileOps(d.ops))
    case BootJobs => d.(jobs := ReconcileJobs(d.jobs))
    case BootInterrupted => d.(tasks := MarkInterrupted(d.tasks))
    case BootUnknown => d.(tasks := MarkUnknown(d))
    case BootRuns(cutoff) => d.(runs := PruneRuns(d, cutoff))
    case BootKeys(cutoff) => PruneKeys(d, cutoff)
    case BootServe => d
  }

  // ---------------------------------------------------------------- events and runs

  datatype Event =
    | Act(step: Label)
    | CutShort(step: Label, at: nat)
    | Crash
    | Pass(dt: nat)
    | Start(part: Part)

  /** Clock assumptions on leased sections: a renewed one misses at most one whole renewal
      period, an unrenewed one ends within its TTL. */
  ghost predicate InTime(m: Mem, now: Time) {
    forall a | a in m.sections ::
      if m.sections[a].stage.Operation? then now <= m.sections[a].since + 2 * RenewEvery(m.sections[a].ttl)
      else now < m.sections[a].since + m.sections[a].ttl
  }

  ghost predicate Fires(c: Config, s: State, e: Event) {
    match e
    case Act(l) => s.mode.Up? && Enabled(s.d, s.mode.mem, l)
    case CutShort(l, i) =>
      s.mode.Up? && Enabled(s.d, s.mode.mem, l) && i < |Perform(c, s.d, s.mode.mem, s.now, l).writes|
    case Crash => true
    case Pass(dt) => s.mode.Up? ==> InTime(s.mode.mem, s.now + dt)
    case Start(p) => s.mode.Starting? && PartFires(s.d, s.now, s.mode.part, p)
  }

  ghost function After(c: Config, s: State, e: Event): State
    requires Fires(c, s, e)
  {
    match e
    case Act(l) =>
      var stretch := Perform(c, s.d, s.mode.mem, s.now, l);
      s.(d := Last(s.d, stretch.writes), mode := Up(stretch.mem))
    case CutShort(l, i) => s.(d := Perform(c, s.d, s.mode.mem, s.now, l).writes[i], mode := Starting(0))
    case Crash => s.(mode := Starting(0))
    case Pass(dt) => s.(now := s.now + dt)
    case Start(p) =>
      if p.BootServe? then s.(boots := s.boots + 1, mode := Up(Boot(s.boots + 1)))
      else s.(d := AfterPart(s.d, p), mode := if p.BootReclaim? then s.mode else Starting(s.mode.part + 1))
  }

  const EMPTY_STORE := Durable({}, map[], map[], map[], map[], map[], map[], map[], map[], map[], map[])

  /** A fresh installation, about to start for the first time. */
  function Fresh(now: Time): State { State(EMPTY_STORE, now, 0, Starting(0)) }

  ghost predicate Runs(c: Config, s: State, es: seq<Event>)
    decreases |es|
  {
    es == [] || (Fires(c, s, es[0]) && Runs(c, After(c, s, es[0]), es[1..]))
  }

  ghost function Reached(c: Config, s: State, es: seq<Event>): State
    requires Runs(c, s, es)
    decreases |es|
  {
    if es == [] then s else Reached(c, After(c, s, es[0]), es[1..])
  }

  /** The database states one event writes. */
  ghost function WritesOf(c: Config, s: State, e: Event): seq<Durable>
    requires Fires(c, s, e)
  {
    match e
    case Act(l) => Perform(c, s.d, s.mode.mem, s.now, l).writes
    case CutShort(l, i) => Perform(c, s.d, s.mode.mem, s.now, l).writes[..i + 1]
    case Start(p) => [AfterPart(s.d, p)]
    case _ => []
  }

  /** All states the database goes through during a run, in order. */
  ghost function Trail(c: Config, s: State, es: seq<Event>): seq<Durable>
    requires Runs(c, s, es)
    decreases |es|
  {
    if es == [] then [] else WritesOf(c, s, es[0]) + Trail(c, After(c, s, es[0]), es[1..])
  }
}
