/** What every durable write keeps about tasks, deployments and rollback plans, and the chain of
    lawful writes each workflow stretch makes. */
module Evidence {
  import opened Prelude
  import opened KeyTable
  import opened Store
  import opened Runtime
  import opened Engines
  import opened Frame

  // ---------------------------------------------------------------- row invariants

  /** What a SUCCEEDED deployment has on record. */
  predicate DeployProven(row: DeployRow) {
    && (row.setup.validationRequired ==> row.validation == Some(true))
    && (row.setup.healthRequired ==> row.health == Some(Healthy))
    && (row.setup.service ==> row.service == Some(true))
  }

  /** What a SUCCEEDED rollback has on record. */
  predicate RollProven(row: PlanRow) {
    && row.target.Some? && row.result.Some?
    && row.result.value.clean && row.result.value.head == row.target
    && (row.result.value.setup.service ==> row.result.value.service == Some(true))
    && (row.result.value.setup.health && row.result.value.setup.healthRequired ==>
         row.result.value.health == Some(Healthy))
  }

  /** `deploy` got through its record-keeping: it was not cut short between the statements of it. */
  predicate Began(row: DeployRow) { !row.status.Preparing? }

  ghost predicate TaskOk(row: TaskRow, deployments: map<Id, DeployRow>) {
    && (row.deployment.Some? ==> row.deployment.value in deployments)
    && (row.rollback.FromDeploy? ==>
         && row.deployment.Some?
         && (Began(deployments[row.deployment.value]) ==>
               deployments[row.deployment.value].migration == row.rollback.migration))
  }

  ghost predicate DeployOk(row: DeployRow, tasks: map<Id, TaskRow>) {
    && row.task in tasks
    && (row.setup.validationRequired ==> row.validation == Some(true))
    && (row.status.DeploySucceeded? ==> DeployProven(row))
  }

  function Ran(commands: map<Id, seq<Check>>, plan: Id): seq<Check> { if plan in commands then commands[plan] else [] }

  /** The plan points at the commit and, once deploying began, at the migration version its
      deployment recorded; its command ran at most once, after a passing check. */
  ghost predicate PlanOk(row: PlanRow, ran: seq<Check>, tasks: map<Id, TaskRow>, deployments: map<Id, DeployRow>) {
    && row.task in tasks
    && row.deployment in deployments
    && row.target == deployments[row.deployment].before
    && (Began(deployments[row.deployment]) ==> Migration.SameIfKnown(row.before, deployments[row.deployment].migration))
    && |ran| <= 1
    && (row.status.PlanReady? || row.status.PlanBlocked? ==> ran == [])
    && (forall check | check in ran :: CheckPasses(row, check))
    && (row.status.PlanSucceeded? ==> RollProven(row) && ran != [])
  }

  ghost predicate TasksOk(tasks: map<Id, TaskRow>, deployments: map<Id, DeployRow>) {
    forall t | t in tasks :: TaskOk(tasks[t], deployments)
  }

  ghost predicate DeploysOk(deployments: map<Id, DeployRow>, tasks: map<Id, TaskRow>) {
    forall r | r in deployments :: DeployOk(deployments[r], tasks)
  }

  ghost predicate PlansOk(plans: map<Id, PlanRow>, commands: map<Id, seq<Check>>, tasks: map<Id, TaskRow>,
          deployments: map<Id, DeployRow>)
  {
    && (forall p | p in plans :: PlanOk(plans[p], Ran(commands, p), tasks, deployments))
    && (forall p | p in commands :: p in plans)
  }

  ghost predicate RowsOk(d: Durable) {
    TasksOk(d.tasks, d.deployments) && DeploysOk(d.deployments, d.tasks)
      && PlansOk(d.plans, d.commands, d.tasks, d.deployments)
  }

  // ---------------------------------------------------------------- one write

  ghost predicate SameProjects(tasks: map<Id, TaskRow>, tasks': map<Id, TaskRow>) {
    forall t | t in tasks :: t in tasks' && tasks'[t].project == tasks[t].project
  }

  /** What a stretch may settle or move: the tasks it may complete or cancel, the plans and
      deployments whose status it may change, the tasks it may add a recovery run to. */
  datatype Reach = Reach(done: set<Id>, plans: set<Id>, deployments: set<Id>, assessed: set<Id> := {})

  const NOTHING := Reach({}, {}, {})

  ghost predicate SameDeployments(deployments: map<Id, DeployRow>, deployments': map<Id, DeployRow>) {
    forall r | r in deployments :: r in deployments' && SameDeployment(deployments[r], deployments'[r])
  }

  ghost predicate SameDeployStatus(deployments: map<Id, DeployRow>, deployments': map<Id, DeployRow>, reach: Reach) {
    forall r | r in deployments && r in deployments' && r !in reach.deployments ::
        deployments'[r].status == deployments[r].status
  }

  /** Plans keep what they were planned with. */
  ghost predicate SamePlans(plans: map<Id, PlanRow>, plans': map<Id, PlanRow>, reach: Reach) {
    && (forall p | p in plans :: p in plans' && SamePlan(plans[p], plans'[p]))
    && (forall p | p in plans && p !in reach.plans :: plans'[p].status == plans[p].status)
  }

  /** Commands that ran stay on record. */
  ghost predicate SameCommands(commands: map<Id, seq<Check>>, commands': map<Id, seq<Check>>) {
    forall p | p in commands :: p in commands' && commands[p] <= commands'[p]
  }

  /** Recovery runs stay, and new ones are of the tasks in reach. */
  ghost predicate SameRuns(runs: map<RunId, RunRow>, runs': map<RunId, RunRow>, reach: Reach) {
    && (forall r | r in runs :: r in runs')
    && (forall r | r in runs' && r !in runs :: r.task in reach.assessed)
  }

  ghost predicate Kept(d: Durable, w: Durable, reach: Reach) {
    && SameProjects(d.tasks, w.tasks) && SameDeployments(d.deployments, w.deployments)
       && SameDeployStatus(d.deployments, w.deployments, reach)
    && SamePlans(d.plans, w.plans, reach) && SameCommands(d.commands, w.commands) && SameRuns(d.runs, w.runs, reach)
    && SameWork(d, w)
  }

  ghost predicate Settled(s: TaskStatus) { s in {COMPLETED, CANCELLED} }

  /** Tasks move along edges; only those in reach become COMPLETED or CANCELLED. */
  ghost predicate TasksMove(d: Durable, tasks: map<Id, TaskRow>, reach: Reach) {
    && (forall t | t in d.tasks :: t in tasks && TaskEdge(d, t, d.tasks[t].status, tasks[t].status))
    && (forall t | t in d.tasks && t in tasks && Settled(tasks[t].status) ::
         tasks[t].status == d.tasks[t].status || t in reach.done)
    && (forall t | t in tasks && t !in d.tasks :: tasks[t].status == PENDING)
  }

  ghost predicate Step(d: Durable, w: Durable, reach: Reach) {
    RowsOk(w) && Kept(d, w, reach) && TasksMove(d, w.tasks, reach)
  }

  ghost predicate Chain(d: Durable, ws: seq<Durable>, reach: Reach) {
    forall i | 0 <= i < |ws| :: StepAt(d, ws, i, reach)
  }

  ghost predicate StepAt(d: Durable, ws: seq<Durable>, i: nat, reach: Reach)
    requires i < |ws|
  {
    Step(Before(d, ws, i), ws[i], reach)
  }

  function Before(d: Durable, ws: seq<Durable>, i: nat): Durable
    requires i < |ws|
  {
    if i == 0 then d else ws[i - 1]
  }

  lemma Chain1(d: Durable, w: Durable, reach: Reach)
    requires Step(d, w, reach)
    ensures Chain(d, [w], reach)
  {
    hide Step;
  }

  lemma Chain2(d: Durable, d1: Durable, d2: Durable, reach: Reach)
    requires Step(d, d1, reach) && Step(d1, d2, reach)
    ensures Chain(d, [d1, d2], reach)
  {
    hide Step;
  }

  lemma Chain3(d: Durable, d1: Durable, d2: Durable, d3: Durable, reach: Reach)
    requires Step(d, d1, reach) && Step(d1, d2, reach) && Step(d2, d3, reach)
    ensures Chain(d, [d1, d2, d3], reach)
  {
    hide Step;
  }

  lemma ChainJoin(d: Durable, first: seq<Durable>, rest: seq<Durable>, reach: Reach)
    requires Chain(d, first, reach) && Chain(Last(d, first), rest, reach)
    ensures Chain(d, first + rest, reach)
  {
    hide Step;
    var all := first + rest;
    forall i | 0 <= i < |all| ensures StepAt(d, all, i, reach) {
      if i < |first| {
        assert StepAt(d, first, i, reach) && Before(d, all, i) == Before(d, first, i);
      } else {
        assert StepAt(Last(d, first), rest, i - |first|, reach);
        assert Before(d, all, i) == Before(Last(d, first), rest, i - |first|);
      }
    }
  }

  lemma StepRows(d: Durable, w: Durable, reach: Reach)
    requires Step(d, w, reach)
    ensures RowsOk(w) && Kept(d, w, reach)
  {
    hide RowsOk, Kept;
  }

  lemma KeptJoins(a: Durable, b: Durable, e: Durable, reach: Reach)
    requires Kept(a, b, reach) && Kept(b, e, reach)
    ensures Kept(a, e, reach)
  {}

  lemma ChainAt(d: Durable, ws: seq<Durable>, n: nat, reach: Reach)
    requires Chain(d, ws, reach) && n < |ws|
    ensures Step(Before(d, ws, n), ws[n], reach)
  {
    hide Step, Before;
    assert StepAt(d, ws, n, reach);
  }

  /** Every state of a chain is sound and keeps what its start holds fixed. */
  lemma {:induction false} ChainKeeps(d: Durable, ws: seq<Durable>, n: nat, reach: Reach)
    requires RowsOk(d) && Chain(d, ws, reach) && n < |ws|
    ensures RowsOk(ws[n]) && Kept(d, ws[n], reach)
    decreases n
  {
    hide RowsOk, Kept, Step, Chain;
    ChainAt(d, ws, n, reach);
    StepRows(Before(d, ws, n), ws[n], reach);
    if n > 0 {
      ChainKeeps(d, ws, n - 1, reach);
      KeptJoins(d, ws[n - 1], ws[n], reach);
    }
  }

  lemma ChainSameWork(d: Durable, ws: seq<Durable>, reach: Reach)
    requires RowsOk(d) && Chain(d, ws, reach)
    ensures SameWorkAll(d, ws)
  {
    hide RowsOk, Chain, SameWork;
    forall w | w in ws ensures SameWork(d, w) {
      var n :| 0 <= n < |ws| && ws[n] == w;
      ChainKeeps(d, ws, n, reach);
    }
  }

  // ---------------------------------------------------------------- kinds of single writes

  lemma MoveStep(d: Durable, t: Id, s: TaskStatus, reach: Reach)
    requires RowsOk(d) && SetStatus(d, t, s).Some? && s != RUNNING && (Settled(s) ==> t in reach.done)
    ensures Step(d, SetStatus(d, t, s).value, reach)
  {
    hide PlanOk, DeployOk;
    var w := SetStatus(d, t, s).value;
    TaskRowChanges(d, t, w.tasks[t]);
    assert w == d.(tasks := d.tasks[t := w.tasks[t]]);
  }

  /** Changing columns of one task other than its project and its deployment. */
  lemma TaskRowChanges(d: Durable, t: Id, row: TaskRow)
    requires RowsOk(d) && t in d.tasks && row.project == d.tasks[t].project && row.deployment == d.tasks[t].deployment
    requires row.rollback == d.tasks[t].rollback || row.rollback.FromPlan?
    ensures RowsOk(d.(tasks := d.tasks[t := row])) && Kept(d, d.(tasks := d.tasks[t := row]), NOTHING)
  {
    var tasks' := d.tasks[t := row];
    MoreTasks(d, tasks');
  }

  lemma MoreTasks(d: Durable, tasks': map<Id, TaskRow>)
    requires RowsOk(d) && d.tasks.Keys <= tasks'.Keys
    ensures DeploysOk(d.deployments, tasks') && PlansOk(d.plans, d.commands, tasks', d.deployments)
  {
    forall p | p in d.plans ensures PlanOk(d.plans[p], Ran(d.commands, p), tasks', d.deployments) {
      assert PlanOk(d.plans[p], Ran(d.commands, p), d.tasks, d.deployments);
    }
    forall r | r in d.deployments ensures DeployOk(d.deployments[r], tasks') {
      assert DeployOk(d.deployments[r], d.tasks);
    }
  }

  lemma RollbackStep(d: Durable, t: Id, plan: Id, reach: Reach)
    requires RowsOk(d) && t in d.tasks
    ensures Step(d, SetRollback(d, t, plan), reach)
  {
    hide RowsOk, PlanOk, DeployOk;
    TaskRowChanges(d, t, d.tasks[t].(rollback := FromPlan(plan)));
  }

  lemma NewTaskStep(d: Durable, t: Id, p: Project, reach: Reach)
    requires RowsOk(d) && t !in d.tasks
    ensures Step(d, d.(tasks := d.tasks[t := TaskRow(p, PENDING, true, None, NoState, 0)]), reach)
  {
    hide PlanOk, DeployOk;
    MoreTasks(d, d.tasks[t := TaskRow(p, PENDING, true, None, NoState, 0)]);
  }

  /** Whatever points at this deployment has its migration state, begun or not. */
  ghost predicate Aligned(d: Durable, dep: Id)
    requires dep in d.deployments
  {
    && (forall t | t in d.tasks && d.tasks[t].deployment == Some(dep) && d.tasks[t].rollback.FromDeploy? ::
          d.tasks[t].rollback.migration == d.deployments[dep].migration)
    && (forall p | p in d.plans && d.plans[p].deployment == dep ::
         Migration.SameIfKnown(d.plans[p].before, d.deployments[dep].migration))
  }

  lemma BeganIsAligned(d: Durable, dep: Id)
    requires RowsOk(d) && dep in d.deployments && Began(d.deployments[dep])
    ensures Aligned(d, dep)
  {
    forall p | p in d.plans && d.plans[p].deployment == dep
      ensures Migration.SameIfKnown(d.plans[p].before, d.deployments[dep].migration)
    {
      assert PlanOk(d.plans[p], Ran(d.commands, p), d.tasks, d.deployments);
    }
    forall t | t in d.tasks && d.tasks[t].deployment == Some(dep) && d.tasks[t].rollback.FromDeploy?
      ensures d.tasks[t].rollback.migration == d.deployments[dep].migration
    {
      assert TaskOk(d.tasks[t], d.deployments);
    }
  }

  lemma DeployStep(d: Durable, dep: Id, row: DeployRow, reach: Reach)
    requires RowsOk(d) && dep in d.deployments && dep in reach.deployments && SameDeployment(d.deployments[dep], row)
    requires Aligned(d, dep)
    requires row.status.DeploySucceeded? ==> DeployProven(row)
    ensures Step(d, SetDeploy(d, dep, row), reach)
  {
    var deployments' := d.deployments[dep := row];
    assert DeployOk(d.deployments[dep], d.tasks);
    DeploymentsAside(d, deployments');
    hide PlansOk, TasksOk, DeployProven, Aligned;
  }

  lemma DeploymentsAside(d: Durable, deployments': map<Id, DeployRow>)
    requires RowsOk(d) && SameDeployments(d.deployments, deployments')
    requires forall r | r in d.deployments && Began(deployments'[r]) && !Began(d.deployments[r]) :: Aligned(d, r)
    ensures TasksOk(d.tasks, deployments') && PlansOk(d.plans, d.commands, d.tasks, deployments')
  {
    forall p | p in d.plans ensures PlanOk(d.plans[p], Ran(d.commands, p), d.tasks, deployments') {
      assert PlanOk(d.plans[p], Ran(d.commands, p), d.tasks, d.deployments);
    }
    forall t | t in d.tasks ensures TaskOk(d.tasks[t], deployments') { assert TaskOk(d.tasks[t], d.deployments); }
  }

  // ---------------------------------------------------------------- the record-keeping of `deploy`

  lemma InsertDeployStep(d: Durable, dep: Id, row: DeployRow, reach: Reach)
    requires RowsOk(d) && dep !in d.deployments && DeployOk(row, d.tasks) && !Began(row)
    ensures Step(d, SetDeploy(d, dep, row), reach)
  {
    DeploymentsAside(d, d.deployments[dep := row]);
    hide PlanOk, TaskOk;
  }

  /** The task points at a row that has not begun: its rollback state may be of an older one. */
  lemma PointStep(d: Durable, t: Id, dep: Id, reach: Reach)
    requires RowsOk(d) && t in d.tasks && dep in d.deployments && !Began(d.deployments[dep])
    ensures Step(d, d.(tasks := d.tasks[t := d.tasks[t].(deployment := Some(dep))]), reach)
  {
    var tasks' := d.tasks[t := d.tasks[t].(deployment := Some(dep))];
    MoreTasks(d, tasks');
    hide PlanOk, DeployOk;
  }

  lemma NoteStep(d: Durable, t: Id, dep: Id, tasks': map<Id, TaskRow>, reach: Reach)
    requires RowsOk(d) && t in d.tasks && dep in d.deployments && d.tasks[t].deployment == Some(dep)
    requires tasks' == d.tasks[t := d.tasks[t].(rollback := FromDeploy(d.deployments[dep].migration))]
    ensures Step(d, d.(tasks := tasks'), reach)
  {
    MoreTasks(d, tasks');
    hide PlanOk, DeployOk;
  }

  /** Behind the three statements everything that points at the new row has its migration state. */
  lemma RecordChain(d: Durable, dep: Id, row: DeployRow, reach: Reach)
    requires RowsOk(d) && dep !in d.deployments && row.task in d.tasks && DeployOk(row, d.tasks) && !Began(row)
    ensures Chain(d, RecordWrites(d, dep, row), reach)
    ensures RowsOk(Recorded(d, dep, row)) && Aligned(Recorded(d, dep, row), dep)
  {
    var d1, d3 := SetDeploy(d, dep, row), Recorded(d, dep, row);
    var d2 := d1.(tasks := d.tasks[row.task := d.tasks[row.task].(deployment := Some(dep))]);
    assert RecordWrites(d, dep, row) == [d1, d2, d3];
    hide RowsOk, Step, DeployOk, Aligned, Chain, RecordWrites;
    NewIsAligned(d, dep, row);
    InsertDeployStep(d, dep, row, reach);
    StepRows(d, d1, reach);
    PointStep(d1, row.task, dep, reach);
    StepRows(d1, d2, reach);
    assert d3.tasks == d2.tasks[row.task := d2.tasks[row.task].(rollback := FromDeploy(row.migration))];
    NoteStep(d2, row.task, dep, d3.tasks, reach);
    assert d3 == d2.(tasks := d3.tasks);
    hide Recorded, Kept;
    StepRows(d2, d3, reach);
    Chain3(d, d1, d2, d3, reach);
  }

  lemma NewIsAligned(d: Durable, dep: Id, row: DeployRow)
    requires RowsOk(d) && dep !in d.deployments && row.task in d.tasks
    ensures Aligned(Recorded(d, dep, row), dep)
  {
    forall t | t in d.tasks ensures d.tasks[t].deployment != Some(dep) {
      assert TaskOk(d.tasks[t], d.deployments);
    }
    forall p | p in d.plans ensures d.plans[p].deployment != dep {
      assert PlanOk(d.plans[p], Ran(d.commands, p), d.tasks, d.deployments);
    }
  }

  lemma PlanStep(d: Durable, plan: Id, row: PlanRow, reach: Reach)
    requires RowsOk(d) && plan in d.plans && plan in reach.plans && SamePlan(d.plans[plan], row)
    requires !row.status.PlanReady? && (row.status.PlanBlocked? ==> Ran(d.commands, plan) == [])
    requires row.status.PlanSucceeded? ==> RollProven(row) && Ran(d.commands, plan) != []
    ensures Step(d, d.(plans := d.plans[plan := row]), reach)
  {
    hide TaskOk, DeployOk;
    var plans' := d.plans[plan := row];
    assert PlanOk(d.plans[plan], Ran(d.commands, plan), d.tasks, d.deployments);
    assert PlanOk(row, Ran(d.commands, plan), d.tasks, d.deployments);
    hide PlanOk;
  }

  lemma NewPlanStep(d: Durable, plan: Id, row: PlanRow, reach: Reach)
    requires RowsOk(d) && plan !in d.plans && PlanOk(row, [], d.tasks, d.deployments)
    ensures Step(d, d.(plans := d.plans[plan := row]), reach)
  {
    hide PlanOk, TaskOk, DeployOk;
  }

  lemma CommandStep(d: Durable, plan: Id, check: Check, reach: Reach)
    requires RowsOk(d) && plan in d.plans && Ran(d.commands, plan) == [] && d.plans[plan].status.PlanRollingBack?
    requires CheckPasses(d.plans[plan], check)
    ensures Step(d, d.(commands := d.commands[plan := [check]]), reach)
  {
    hide TaskOk, DeployOk, CheckPasses;
    var commands' := d.commands[plan := [check]];
    assert PlanOk(d.plans[plan], [], d.tasks, d.deployments);
    assert PlanOk(d.plans[plan], [check], d.tasks, d.deployments);
    hide PlanOk;
  }

  /** Only the recovery runs change, or nothing a step looks at. */
  lemma SideStep(d: Durable, w: Durable, reach: Reach)
    requires RowsOk(d) && w.tasks == d.tasks && w.deployments == d.deployments && w.plans == d.plans
             && w.commands == d.commands
    requires SameRuns(d.runs, w.runs, reach) && SameWork(d, w)
    ensures Step(d, w, reach)
  {
    hide PlanOk, TaskOk, DeployOk;
  }
}
