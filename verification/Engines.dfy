/** The deployment, rollback and recovery engines as stretches over the store. What the outside
    world answers (commands, Git, services, health, migrations) comes in as parameters. */
module Engines {
  import opened Prelude
  import opened KeyTable
  import opened Store
  import opened Runtime

  function At(m: Mem, o: Id, e: Engine): Mem { m.(engines := m.engines[o := e]) }

  /** An exception outside every handler of an engine: the callback rejects. */
  predicate MayThrow(e: Engine) { e.Validating? || e.Precheck? || e.Opening? || e.Checking? || e.ToAssess? }

  // ---------------------------------------------------------------- deployment

  function SetDeploy(d: Durable, dep: Id, row: DeployRow): Durable { d.(deployments := d.deployments[dep := row]) }

  /** The catch block of `deploy`: the row fails, then the task does, unless it is terminal. */
  function DeployFail(d: Durable, dep: Id, task: Id): seq<Durable>
    requires dep in d.deployments
  {
    var d1 := SetDeploy(d, dep, d.deployments[dep].(status := DeployFailed));
    var failed := RecordError(d1, task);
    if failed.None? then [d1] else [d1, failed.value]
  }

  /** What the operation sees of a caught failure: the row, unless the catch block throws too. */
  function GivesUp(d: Durable, task: Id, row: Id): Engine {
    Returned(false, if RecordError(d, task).Some? then RowTarget(row) else NoTarget)
  }

  /** The row is in, the task points at it and keeps the migration state of its precheck. */
  function Recorded(d: Durable, dep: Id, row: DeployRow): Durable
    requires row.task in d.tasks
  {
    d.(deployments := d.deployments[dep := row],
       tasks := d.tasks[row.task := d.tasks[row.task].(deployment := Some(dep), rollback := FromDeploy(row.migration))])
  }

  /** The three statements that get there: the INSERT, `setDeployment`, `setRollbackState`. */
  function RecordWrites(d: Durable, dep: Id, row: DeployRow): seq<Durable>
    requires row.task in d.tasks
  {
    var d1 := SetDeploy(d, dep, row);
    [d1, d1.(tasks := d.tasks[row.task := d.tasks[row.task].(deployment := Some(dep))]), Recorded(d, dep, row)]
  }

  lemma RecordedLast(d: Durable, dep: Id, row: DeployRow)
    requires row.task in d.tasks
    ensures Last(d, RecordWrites(d, dep, row)) == Recorded(d, dep, row)
    ensures dep in Recorded(d, dep, row).deployments && Recorded(d, dep, row).deployments[dep] == row
  {}

  /** The task is DEPLOYING already, and now the row is: deploying begins. */
  function DeployBegins(d: Durable, dep: Id): seq<Durable>
    requires dep in d.deployments
  {
    [d, SetDeploy(d, dep, d.deployments[dep].(status := DeployRunning))]
  }

  /** Everything from the end of the precheck to the deploy command. */
  function DeployRecord(d: Durable, m: Mem, o: Id, dep: Id, setup: Project_, before: Option<Commit>,
          migration: Migration.Raw, validation: Option<bool>): Stretch
    requires o in m.engines && m.engines[o].Precheck? && m.engines[o].task in d.tasks
  {
    var task := m.engines[o].task;
    if setup.validationRequired && validation != Some(true) then Quiet(At(m, o, Returned(false)))
    else
      var row := DeployRow(task, Preparing, before, None, migration, setup, validation, None, None);
      var first, d1 := RecordWrites(d, dep, row), Recorded(d, dep, row);
      var moved := SetStatus(d1, task, DEPLOYING);
      if moved.None? then Stretch(first + DeployFail(d1, dep, task), At(m, o, GivesUp(d1, task, dep)))
      else Stretch(first + DeployBegins(moved.value, dep), At(m, o, Deploying(dep, task, setup, DeployActing)))
  }

  ghost predicate DeployAt(d: Durable, m: Mem, o: Id) {
    o in m.engines && m.engines[o].Deploying? && m.engines[o].deployment in d.deployments
  }

  /** Any await of `deploy` may reject into its catch block. */
  function DeployError(d: Durable, m: Mem, o: Id): Stretch
    requires DeployAt(d, m, o)
  {
    var e := m.engines[o];
    Stretch(DeployFail(d, e.deployment, e.task), At(m, o, GivesUp(d, e.task, e.deployment)))
  }

  /** Command and restart done, HEAD read. */
  function DeployActed(d: Durable, m: Mem, o: Id, after: Option<Commit>): Stretch
    requires DeployAt(d, m, o) && m.engines[o].deployStage.DeployActing?
  {
    var e := m.engines[o];
    Stretch([SetDeploy(d, e.deployment, d.deployments[e.deployment].(after := after))],
            At(m, o, e.(deployStage := ServiceChecking)))
  }

  /** Service state read (None when the project has no service): on to the health check. */
  function DeployService(d: Durable, m: Mem, o: Id, active: Option<bool>): Stretch
    requires DeployAt(d, m, o) && m.engines[o].deployStage.ServiceChecking?
  {
    var e := m.engines[o];
    var moved := SetStatus(d, e.task, HEALTH_CHECKING);
    if (e.setup.service && active != Some(true)) || moved.None? then DeployError(d, m, o)
    else
      var d1 := moved.value;
      Stretch([d1, SetDeploy(d1, e.deployment, d1.deployments[e.deployment].(status := DeployChecking))],
              At(m, o, e.(deployStage := DeployHealth(active))))
  }

  /** Health read: success needs the task to accept COMPLETED. */
  function DeployFinish(d: Durable, m: Mem, o: Id, health: Health): Stretch
    requires DeployAt(d, m, o) && m.engines[o].deployStage.DeployHealth?
  {
    var e := m.engines[o];
    var d1 := SetDeploy(d, e.deployment, d.deployments[e.deployment].(health := Some(health)));
    if e.setup.healthRequired && health != Healthy then
      Stretch([d1] + DeployFail(d1, e.deployment, e.task), At(m, o, GivesUp(d1, e.task, e.deployment)))
    else
      var d2 := SetDeploy(d1, e.deployment,
          d1.deployments[e.deployment].(status := DeploySucceeded, service := e.deployStage.service));
      var moved := SetStatus(d2, e.task, COMPLETED);
      if moved.None? then
        Stretch([d1, d2] + DeployFail(d2, e.deployment, e.task), At(m, o, GivesUp(d2, e.task, e.deployment)))
      else Stretch([d1, d2, moved.value], At(m, o, Returned(true, RowTarget(e.deployment))))
  }

  // ---------------------------------------------------------------- rollback planning

  function MigrationOf(r: RollbackState): Migration.Raw { if r.FromDeploy? then r.migration else Migration.NotAnObject }

  /** `plan` up to its first await: one read of the task and of its deployment. */
  function PlanBegin(d: Durable, m: Mem, id: Id, task: Id, p: Project): Stretch {
    if task !in d.tasks || d.tasks[task].project != p || d.tasks[task].deployment.None? then Quiet(m)
    else
      var dep := d.tasks[task].deployment.value;
      if dep !in d.deployments then Quiet(m)
      else
        var row := d.deployments[dep];
        Quiet(m.(drafts := m.drafts[id := Draft(task, p, dep, row.before, row.after,
            MigrationOf(d.tasks[task].rollback))]))
  }

  datatype Observed = Observed(
    clean: bool, head: Option<Commit>, migration: Migration.Raw, targetExists: bool, configured: bool)

  /** No reason to block: `configured` stands for the command, placeholder and permission checks. */
  predicate PlanIsReady(draft: Draft, noAdapter: bool, seen: Observed) {
    && draft.target.Some? && seen.targetExists
    && seen.clean
    && (draft.deployed.Some? ==> seen.head == draft.deployed)
    && Migration.Assess(noAdapter, draft.migration, seen.migration) == Migration.Safe
    && seen.configured
  }

  function PlannedRow(draft: Draft, noAdapter: bool, seen: Observed): PlanRow {
    PlanRow(draft.task, draft.project, draft.deployment, draft.target, seen.head,
        Migration.Recorded(noAdapter, draft.migration),
            if PlanIsReady(draft, noAdapter, seen) then PlanReady else PlanBlocked, None)
  }

  function PlannedStatus(row: PlanRow): TaskStatus {
    if row.status.PlanReady? then ROLLBACK_REQUIRED else WAITING_FOR_USER
  }

  /** The rest of `plan`. The row stays even when the task refuses its new status. */
  function PlanCommit(d: Durable, m: Mem, id: Id, plan: Id, noAdapter: bool, seen: Observed): Stretch
    requires id in m.drafts && m.drafts[id].task in d.tasks
  {
    var draft := m.drafts[id];
    var row := PlannedRow(draft, noAdapter, seen);
    var d1 := d.(plans := d.plans[plan := row]);
    var d2 := SetRollback(d1, draft.task, plan);
    var moved := SetStatus(d2, draft.task, PlannedStatus(row));
    Stretch([d1, d2] + IfMoved(moved), m.(drafts := m.drafts - {id}))
  }

  /** What a status change writes: nothing when the table refuses it. */
  function IfMoved(moved: Option<Durable>): seq<Durable> { if moved.None? then [] else [moved.value] }

  function SetRollback(d: Durable, task: Id, plan: Id): Durable
    requires task in d.tasks
  {
    d.(tasks := d.tasks[task := d.tasks[task].(rollback := FromPlan(plan))])
  }

  // ---------------------------------------------------------------- rollback execution

  function SetPlan(d: Durable, plan: Id, status: PlanStatus): Durable
    requires plan in d.plans
  {
    d.(plans := d.plans[plan := d.plans[plan].(status := status)])
  }

  /** `execute` up to its first await: only a READY plan of the project goes on. */
  function RollOpen(d: Durable, m: Mem, o: Id, setup: Project_): Stretch
    requires o in m.engines && m.engines[o].Opening? && o in m.sections
  {
    var plan := m.engines[o].plan;
    if plan in d.plans && d.plans[plan].project == m.sections[o].project && d.plans[plan].status.PlanReady?
    then Quiet(At(m, o, Checking(plan, setup))) else Quiet(At(m, o, Returned(false)))
  }

  ghost predicate PlanAt(d: Durable, plan: Id) { plan in d.plans && d.plans[plan].task in d.tasks }

  /** The catch block of `execute`. */
  function RollFail(d: Durable, plan: Id): seq<Durable>
    requires PlanAt(d, plan)
  {
    var task := d.plans[plan].task;
    var d1 := SetPlan(d, plan, PlanFailed);
    var d2 := SetRollback(d1, task, plan);
    var failed := RecordError(d2, task);
    if failed.None? then [d1, d2]
    else
      var waiting := SetStatus(failed.value, task, WAITING_FOR_USER);
      if waiting.None? then [d1, d2, failed.value] else [d1, d2, failed.value, waiting.value]
  }

  /** After the catch block: the plan, unless recording the error throws. */
  function RollGivesUp(d: Durable, plan: Id): Engine
    requires PlanAt(d, plan)
  {
    GivesUp(d, d.plans[plan].task, plan)
  }

  predicate CheckPasses(row: PlanRow, seen: Check) {
    && seen.clean
    && seen.head == row.observed
    && Migration.Assess(seen.setup.noAdapter, row.before, seen.migration) == Migration.Safe
  }

  /** `revalidate` has read the world: the plan is blocked, or marked and its command run. */
  function RollRun(d: Durable, m: Mem, o: Id, seen: Check): Stretch
    requires o in m.engines && m.engines[o].Checking? && m.engines[o].setup == seen.setup
             && PlanAt(d, m.engines[o].plan)
  {
    var plan := m.engines[o].plan;
    if !CheckPasses(d.plans[plan], seen) then Stretch([SetPlan(d, plan, PlanBlocked)], At(m, o, Returned(false)))
    else
      var d1 := SetPlan(d, plan, PlanRollingBack);
      var moved := SetStatus(d1, d.plans[plan].task, ROLLING_BACK);
      if moved.None? then Stretch([d1], At(m, o, Returned(false)))
      else
        var d2 := moved.value;
        if d.plans[plan].target.None? then Stretch([d1, d2] + RollFail(d2, plan), At(m, o, RollGivesUp(d2, plan)))
        else
          var ran := (if plan in d.commands then d.commands[plan] else []) + [seen];
          Stretch([d1, d2, d2.(commands := d.commands[plan := ran])],
              At(m, o, RollingBack(plan, seen.setup, RollActing)))
  }

  ghost predicate RollAt(d: Durable, m: Mem, o: Id) {
    o in m.engines && m.engines[o].RollingBack? && PlanAt(d, m.engines[o].plan)
  }

  function RollError(d: Durable, m: Mem, o: Id): Stretch
    requires RollAt(d, m, o)
  {
    Stretch(RollFail(d, m.engines[o].plan), At(m, o, RollGivesUp(d, m.engines[o].plan)))
  }

  /** The command has exited and HEAD been read. */
  function RollActed(d: Durable, m: Mem, o: Id, exitedCleanly: bool, head: Option<Commit>): Stretch
    requires RollAt(d, m, o) && m.engines[o].rollStage.RollActing?
  {
    var e := m.engines[o];
    if !exitedCleanly || head != d.plans[e.plan].target then RollError(d, m, o)
    else Quiet(At(m, o, e.(rollStage := Verifying(exitedCleanly, head))))
  }

  function SetPlanDone(d: Durable, plan: Id, result: PlanResult): Durable
    requires plan in d.plans
  {
    d.(plans := d.plans[plan := d.plans[plan].(status := PlanSucceeded, result := Some(result))])
  }

  function RollDone(d: Durable, m: Mem, o: Id, result: PlanResult): Stretch
    requires RollAt(d, m, o)
  {
    var plan := m.engines[o].plan;
    var d1 := SetPlanDone(d, plan, result);
    var d2 := SetRollback(d1, d.plans[plan].task, plan);
    var moved := SetStatus(d2, d.plans[plan].task, ROLLED_BACK);
    if moved.None? then Stretch([d1, d2] + RollFail(d2, plan), At(m, o, RollGivesUp(d2, plan)))
    else Stretch([d1, d2, moved.value], At(m, o, Returned(true, RowTarget(plan))))
  }

  /** Service state read (None when there is no service). */
  function RollService(d: Durable, m: Mem, o: Id, active: Option<bool>): Stretch
    requires RollAt(d, m, o) && m.engines[o].rollStage.Verifying?
  {
    var e := m.engines[o];
    if e.setup.service && active != Some(true) then RollError(d, m, o)
    else if !e.setup.health then
              RollDone(d, m, o, PlanResult(e.rollStage.clean, e.setup, e.rollStage.head, active, None))
    else
      var d1 := SetPlan(d, e.plan, PlanChecking);
      var moved := SetStatus(d1, d.plans[e.plan].task, HEALTH_CHECKING);
      if moved.None? then Stretch([d1] + RollFail(d1, e.plan), At(m, o, RollGivesUp(d1, e.plan)))
      else Stretch([d1, moved.value],
          At(m, o, e.(rollStage := RollHealth(e.rollStage.clean, e.rollStage.head, active))))
  }

  function RollFinish(d: Durable, m: Mem, o: Id, health: Health): Stretch
    requires RollAt(d, m, o) && m.engines[o].rollStage.RollHealth?
  {
    var e := m.engines[o];
    if e.setup.healthRequired && health != Healthy then RollError(d, m, o)
    else RollDone(d, m, o, PlanResult(e.rollStage.clean, e.setup, e.rollStage.head, e.rollStage.service, Some(health)))
  }

  // ---------------------------------------------------------------- recovery

  datatype Opened = Declined(writes: seq<Durable>) | Admitted(write: Durable, attempt: nat)

  /** `assess` up to the evidence collection: the attempt number and the RECOVERING mark, or the
      limit branch, which moves the task and throws. */
  function AssessOpen(d: Durable, maxAttempts: nat, task: Id, p: Project): Opened {
    if task !in d.tasks || d.tasks[task].project != p || Terminal(d.tasks[task].status) then Declined([])
    else
      var attempt := CountRuns(d.runs, task) + 1;
      if attempt > maxAttempts then
        var moved := SetStatus(d, task, if d.tasks[task].deployment.Some? then ROLLBACK_REQUIRED else WAITING_FOR_USER);
        Declined(if moved.None? then [] else [moved.value])
      else
        var moved := SetStatus(d, task, RECOVERING);
        if moved.None? then Declined([]) else Admitted(moved.value, attempt)
  }

  function StatusAfter(decision: Decision): TaskStatus {
    match decision
    case ResumeRecommended => RECOVERY_REQUIRED
    case RollbackRequired => ROLLBACK_REQUIRED
    case WaitingForUser => WAITING_FOR_USER
  }

  function PutRun(d: Durable, r: RunId, row: RunRow): Durable { d.(runs := d.runs[r := row]) }

  /** What the evidence led to: no evidence at all, a `decide` that threw, or its answer. */
  datatype Verdict = NotCollected | Undecided | Decided(decision: Decision)

  datatype Closed = Closed(writes: seq<Durable>, succeeded: bool, target: Target := NoTarget)

  /** The rest of `assess`. A second row with the same (task, attempt) would trip the UNIQUE
      constraint before anything is written; a `decide` that throws leaves the row as inserted. */
  function AssessClose(d: Durable, now: Time, task: Id, attempt: nat, verdict: Verdict): Closed {
    var r := RunId(task, attempt);
    if r in d.runs then Closed([], false)
    else if verdict.NotCollected? then
      var d1 := PutRun(d, r, RunRow(None, Some(now)));
      var moved := SetStatus(d1, task, WAITING_FOR_USER);
      if moved.None? then Closed([d1], false) else Closed([d1, moved.value], false, RunTarget(r))
    else
      var d1 := PutRun(d, r, RunRow(None, None));
      if verdict.Undecided? then Closed([d1], false)
      else
        var d2 := PutRun(d1, r, RunRow(Some(verdict.decision), Some(now)));
        var moved := SetStatus(d2, task, StatusAfter(verdict.decision));
        if moved.None? then Closed([d1, d2], false) else Closed([d1, d2, moved.value], true, RunTarget(r))
  }

  function AssessBegin(c: Config, d: Durable, m: Mem, o: Id): Stretch
    requires o in m.engines && m.engines[o].ToAssess? && o in m.sections
  {
    match AssessOpen(d, c.maxAttempts, m.engines[o].task, m.sections[o].project)
    case Declined(writes) => Stretch(writes, At(m, o, Returned(false)))
    case Admitted(d1, attempt) => Stretch([d1], At(m, o, Assessing(m.engines[o].task, attempt)))
  }

  function AssessEnd(d: Durable, m: Mem, now: Time, o: Id, verdict: Verdict): Stretch
    requires o in m.engines && m.engines[o].Assessing?
  {
    var closed := AssessClose(d, now, m.engines[o].task, m.engines[o].attempt, verdict);
    Stretch(closed.writes, At(m, o, Returned(closed.succeeded, closed.target)))
  }

  /** `assess` called by other code than the tool, outside any persistent operation. */
  function DirectBegin(c: Config, d: Durable, m: Mem, id: Id, task: Id, p: Project): Stretch {
    match AssessOpen(d, c.maxAttempts, task, p)
    case Declined(writes) => Stretch(writes, m)
    case Admitted(d1, attempt) => Stretch([d1], m.(direct := m.direct[id := Assessment(task, attempt)]))
  }

  function DirectEnd(d: Durable, m: Mem, now: Time, id: Id, verdict: Verdict): Stretch
    requires id in m.direct
  {
    var closed := AssessClose(d, now, m.direct[id].task, m.direct[id].attempt, verdict);
    Stretch(closed.writes, m.(direct := m.direct - {id}))
  }
}
