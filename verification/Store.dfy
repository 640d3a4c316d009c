/** The durable tables of the agent's SQLite database and the task state machine. */
module Store {
  import opened Prelude
  import opened KeyTable
  import Migration

  type Commit = string

  // ---------------------------------------------------------------- rows

  datatype OpStatus = OpRunning | OpSucceeded | OpFailed | OpUnknown
  /** `target_id`: the row an operation worked on, once its engine has returned one. */
  datatype Target = NoTarget | RowTarget(id: Id) | RunTarget(run: RunId)

  datatype OpRow = OpRow(
    task: Id, project: Project, kind: OpKind, status: OpStatus, cancelRequested: bool, target: Target := NoTarget)

  datatype JobStatus = JobRunning | JobCompleted | JobFailed | JobCancelled | JobUnknown
  datatype JobRow = JobRow(attached: Option<Id>, project: Project, status: JobStatus)

  datatype TaskStatus =
    | PENDING | RUNNING | PAUSED | FAILED | WAITING_FOR_USER | RECOVERY_REQUIRED | DEPLOYING | HEALTH_CHECKING
    | RECOVERING | ROLLBACK_REQUIRED | ROLLING_BACK | COMPLETED | ROLLED_BACK | CANCELLED

  /** The two shapes the engines write into `rollback_state_json`. */
  datatype RollbackState = NoState | FromDeploy(migration: Migration.Raw) | FromPlan(plan: Id)

  datatype TaskRow = TaskRow(
    project: Project,
    status: TaskStatus,
    resumable: bool,
    deployment: Option<Id>,
    rollback: RollbackState,
    recoveryAttempts: nat)

  datatype Decision = ResumeRecommended | RollbackRequired | WaitingForUser
  datatype RunId = RunId(task: Id, attempt: nat)
  datatype RunRow = RunRow(decision: Option<Decision>, finished: Option<Time>)

  datatype Health = Healthy | Degraded | Unhealthy | HealthUnknown

  /** The parts of a project record the deployment and rollback engines act on. */
  datatype Project_ = Project_(
    validationRequired: bool,
    service: bool,
    health: bool,
    healthRequired: bool,
    noAdapter: bool)

  datatype DeployStatus = Preparing | DeployRunning | DeployChecking | DeploySucceeded | DeployFailed

  /** `setup`, `validation`, `service` and `health` stand for the precheck and result columns. */
  datatype DeployRow = DeployRow(
    task: Id,
    status: DeployStatus,
    before: Option<Commit>,
    after: Option<Commit>,
    migration: Migration.Raw,
    setup: Project_,
    validation: Option<bool>,
    service: Option<bool>,
    health: Option<Health>)

  datatype PlanStatus = PlanReady | PlanBlocked | PlanRollingBack | PlanChecking | PlanSucceeded | PlanFailed

  /** What a finished execution recorded; `clean` is the command's exit code 0. */
  datatype PlanResult = PlanResult(
    clean: bool, setup: Project_, head: Option<Commit>, service: Option<bool>, health: Option<Health>)

  datatype PlanRow = PlanRow(
    task: Id,
    project: Project,
    deployment: Id,
    target: Option<Commit>,
    observed: Option<Commit>,
    before: Migration.Raw,
    status: PlanStatus,
    result: Option<PlanResult>)

  /** What revalidation read just before a rollback command ran. */
  datatype Check = Check(setup: Project_, clean: bool, head: Option<Commit>, migration: Migration.Raw)

  /** One state of the database. Of the projects only the ids are kept, which the foreign keys of
      the other tables name; an archived project keeps its row. The last three fields are history,
      not columns: how often the effect behind a key has begun since the key was inserted, what a
      guarded effect that ended returned (None: it threw), and the checks before each run of a
      plan's command. */
  datatype Durable = Durable(
    projects: set<Project>,
    keys: Table,
    ops: map<Id, OpRow>,
    jobs: map<Id, JobRow>,
    tasks: map<Id, TaskRow>,
    runs: map<RunId, RunRow>,
    deployments: map<Id, DeployRow>,
    plans: map<Id, PlanRow>,
    begun: map<KeyId, nat>,
    outcomes: map<KeyId, Option<string>>,
    commands: map<Id, seq<Check>>)

  // ---------------------------------------------------------------- task state machine

  function Allowed(from: TaskStatus): set<TaskStatus> {
    match from
    case PENDING =>
      {RUNNING, DEPLOYING, FAILED, RECOVERING, RECOVERY_REQUIRED, ROLLBACK_REQUIRED, WAITING_FOR_USER, CANCELLED}
    case RUNNING => {PAUSED, FAILED, WAITING_FOR_USER, RECOVERY_REQUIRED, DEPLOYING, HEALTH_CHECKING, RECOVERING,
                     ROLLBACK_REQUIRED, ROLLING_BACK, COMPLETED, ROLLED_BACK, CANCELLED}
    case PAUSED => {RUNNING, FAILED, RECOVERING, RECOVERY_REQUIRED, ROLLBACK_REQUIRED, WAITING_FOR_USER, CANCELLED}
    case FAILED => {RUNNING, RECOVERING, RECOVERY_REQUIRED, ROLLBACK_REQUIRED, WAITING_FOR_USER, CANCELLED}
    case WAITING_FOR_USER => {RUNNING, RECOVERING, RECOVERY_REQUIRED, ROLLBACK_REQUIRED, FAILED, CANCELLED}
    case RECOVERY_REQUIRED => {RUNNING, RECOVERING, ROLLBACK_REQUIRED, WAITING_FOR_USER, FAILED, CANCELLED}
    case DEPLOYING => {HEALTH_CHECKING, FAILED, RECOVERY_REQUIRED, ROLLBACK_REQUIRED, CANCELLED}
    case HEALTH_CHECKING => {COMPLETED, ROLLED_BACK, FAILED, RECOVERY_REQUIRED, ROLLBACK_REQUIRED, CANCELLED}
    case RECOVERING => {RUNNING, RECOVERY_REQUIRED, FAILED, ROLLBACK_REQUIRED, WAITING_FOR_USER, COMPLETED, CANCELLED}
    case ROLLBACK_REQUIRED => {ROLLING_BACK, WAITING_FOR_USER, FAILED, CANCELLED}
    case ROLLING_BACK => {HEALTH_CHECKING, ROLLED_BACK, FAILED, WAITING_FOR_USER, CANCELLED}
    case COMPLETED => {}
    case ROLLED_BACK => {}
    case CANCELLED => {}
  }

  predicate Terminal(s: TaskStatus) { s in {COMPLETED, ROLLED_BACK, CANCELLED} }

  /** Statuses a restart cannot leave standing. */
  predicate Interrupted(s: TaskStatus) { s in {RUNNING, DEPLOYING, HEALTH_CHECKING, RECOVERING, ROLLING_BACK} }

  /** The foreign keys of an operation row: its task and its project have rows. */
  predicate Referenced(d: Durable, p: Project, t: Id) { t in d.tasks && p in d.projects }

  function WithStatus(d: Durable, t: Id, s: TaskStatus): Durable
    requires t in d.tasks
  {
    d.(tasks := d.tasks[t := d.tasks[t].(status := s)])
  }

  /** None is the ConflictError (or the missing task); the same status is accepted as it is. */
  function SetStatus(d: Durable, t: Id, s: TaskStatus): (r: Option<Durable>)
    ensures r.Some? ==> r.value == d.(tasks := r.value.tasks)
    ensures r.Some? ==> t in d.tasks && r.value.tasks == d.tasks[t := d.tasks[t].(status := s)]
  {
    if t !in d.tasks then None
    else if d.tasks[t].status == s then Some(d)
    else if s in Allowed(d.tasks[t].status) then Some(WithStatus(d, t, s))
    else None
  }

  /** The task fails, unless it is terminal. */
  function RecordError(d: Durable, t: Id): (r: Option<Durable>)
    ensures r.Some? ==> r.value == d.(tasks := r.value.tasks)
    ensures r.Some? ==> t in d.tasks && r.value.tasks == d.tasks[t := d.tasks[t].(status := FAILED)]
  {
    SetStatus(d, t, FAILED)
  }

  // ---------------------------------------------------------------- queries over the tables

  predicate UnknownOp(ops: map<Id, OpRow>, t: Id) {
    exists o | o in ops :: ops[o].task == t && ops[o].status.OpUnknown?
  }
  predicate UnknownJob(jobs: map<Id, JobRow>, t: Id) {
    exists j | j in jobs :: jobs[j].attached == Some(t) && jobs[j].status.JobUnknown?
  }
  predicate RunningJob(jobs: map<Id, JobRow>, t: Id) {
    exists j | j in jobs :: jobs[j].attached == Some(t) && jobs[j].status.JobRunning?
  }

  predicate BlockingOp(ops: map<Id, OpRow>, t: Id) {
    exists o | o in ops :: ops[o].task == t && (ops[o].status.OpRunning? || ops[o].status.OpUnknown?)
  }

  predicate UnknownWork(d: Durable, t: Id) { UnknownOp(d.ops, t) || UnknownJob(d.jobs, t) }

  predicate BlockingWork(d: Durable, t: Id) {
    RunningJob(d.jobs, t) || UnknownJob(d.jobs, t) || BlockingOp(d.ops, t)
  }

  /** SELECT COUNT(*) for one task. */
  function CountRuns(runs: map<RunId, RunRow>, t: Id): nat { |set r | r in runs && r.task == t| }

  /** `hasVerifiedResumeDecision`: the decided run of the highest attempt recommends resume. */
  predicate ResumeVerified(runs: map<RunId, RunRow>, t: Id) {
    exists r | r in runs ::
      && r.task == t
      && runs[r].decision == Some(ResumeRecommended)
      && forall q | q in runs && q.task == t && runs[q].decision.Some? :: q.attempt <= r.attempt
  }

  // ---------------------------------------------------------------- one durable write

  /** The statuses `resume` starts from; nothing else starts a task. */
  const RESUMABLE := {PENDING, PAUSED, FAILED, RECOVERY_REQUIRED, WAITING_FOR_USER}

  /** A task may move along its table, or be sent to recovery by a restart: out of an
      interrupted status, or because work of it is UNKNOWN. */
  ghost predicate TaskEdge(d: Durable, t: Id, s: TaskStatus, s': TaskStatus) {
    || s == s'
    || (s' in Allowed(s)
         && (s' == RUNNING ==> s in RESUMABLE && !BlockingWork(d, t)
                               && (s == RECOVERY_REQUIRED ==> ResumeVerified(d.runs, t))))
    || (s' == RECOVERY_REQUIRED && Interrupted(s))
    || (s' == RECOVERY_REQUIRED && !Terminal(s) && UnknownWork(d, t))
  }

  /** What every single durable write keeps, restarts and retention included: tasks move along
      edges, work rows leave RUNNING once and for good, evidence columns never change. */
  ghost predicate Evolves(d: Durable, d': Durable) {
    && (forall t | t in d.tasks :: t in d'.tasks && d'.tasks[t].project == d.tasks[t].project
                                   && TaskEdge(d, t, d.tasks[t].status, d'.tasks[t].status))
    && (forall t | t in d'.tasks && t !in d.tasks :: d'.tasks[t].status == PENDING)
    && OpsEvolve(d, d')
    && JobsEvolve(d, d')
    && (forall r | r in d.deployments :: r in d'.deployments && SameDeployment(d.deployments[r], d'.deployments[r]))
    && (forall p | p in d.plans :: p in d'.plans && SamePlan(d.plans[p], d'.plans[p]))
  }

  ghost predicate OpsEvolve(d: Durable, d': Durable) {
    && (forall o | o in d.ops :: o in d'.ops && SameOperation(d.ops[o], d'.ops[o]))
    && (forall o | o in d.ops :: d'.ops[o] == d.ops[o] || d.ops[o].status.OpRunning?)
    && (forall o | o in d'.ops && o !in d.ops :: d'.ops[o].status.OpRunning? && d'.ops[o].task in d.tasks)
  }

  predicate SameOperation(row: OpRow, row': OpRow) {
    row' == row.(status := row'.status, cancelRequested := row'.cancelRequested, target := row'.target)
  }

  ghost predicate JobsEvolve(d: Durable, d': Durable) {
    && (forall j | j in d.jobs :: j in d'.jobs && d'.jobs[j] == d.jobs[j].(status := d'.jobs[j].status))
    && (forall j | j in d.jobs :: d'.jobs[j].status == d.jobs[j].status || d.jobs[j].status.JobRunning?)
    && (forall j | j in d'.jobs && j !in d.jobs :: d'.jobs[j].status.JobRunning?
          && (d'.jobs[j].attached.Some? ==>
               d'.jobs[j].attached.value in d.tasks && d.tasks[d'.jobs[j].attached.value].status == RUNNING))
  }

  ghost predicate SameDeployment(r: DeployRow, r': DeployRow) {
    r.task == r'.task && r.before == r'.before && r.migration == r'.migration && r.setup == r'.setup
      && r.validation == r'.validation
  }

  ghost predicate SamePlan(p: PlanRow, p': PlanRow) {
    p' == p.(status := p'.status, result := p'.result)
  }
}
