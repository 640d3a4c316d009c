/** The chain of lawful writes of every task and workflow stretch. */
module Workflow {
  import opened Prelude
  import opened KeyTable
  import opened Store
  import opened Runtime
  import opened Engines
  import opened Evidence

  // ---------------------------------------------------------------- what a suspended call relies on

  ghost predicate EngineOk(d: Durable, p: Project, e: Engine) {
    match e
    case Precheck(t) => t in d.tasks
    case Deploying(dep, t, setup, stage) => DeployingOk(d, dep, t, setup, stage)
    case Checking(plan, _) => plan in d.plans && d.plans[plan].project == p && d.plans[plan].status.PlanReady?
    case RollingBack(plan, setup, stage) => RollingOk(d, plan, setup, stage)
    case ToAssess(t) => t in d.tasks
    case Assessing(t, _) => t in d.tasks && d.tasks[t].project == p
    case _ => true
  }

  ghost predicate DeployingOk(d: Durable, dep: Id, t: Id, setup: Project_, stage: DeployStage) {
    && t in d.tasks
    && dep in d.deployments && d.deployments[dep].task == t && d.deployments[dep].setup == setup
    && Began(d.deployments[dep]) && !d.deployments[dep].status.DeploySucceeded?
    && (stage.DeployHealth? && setup.service ==> stage.service == Some(true))
  }

  /** From the moment the command may run on: the plan has a target and a recorded check, and
      what has been verified so far is what success requires. */
  ghost predicate RollingOk(d: Durable, plan: Id, setup: Project_, stage: RollStage) {
    && plan in d.plans && d.plans[plan].target.Some? && Ran(d.commands, plan) != []
    && (stage.Verifying? ==> stage.clean && stage.head == d.plans[plan].target)
    && (stage.RollHealth? ==>
         stage.clean && stage.head == d.plans[plan].target && (setup.service ==> stage.service == Some(true)))
  }

  ghost predicate DraftOk(d: Durable, draft: Draft) {
    && draft.task in d.tasks
    && draft.deployment in d.deployments && draft.target == d.deployments[draft.deployment].before
    && (Began(d.deployments[draft.deployment]) && Migration.Known(draft.migration) ==>
          draft.migration == d.deployments[draft.deployment].migration)
  }

  // ---------------------------------------------------------------- deployment

  lemma DeployFailChain(d: Durable, dep: Id, task: Id, reach: Reach)
    requires RowsOk(d) && dep in d.deployments && dep in reach.deployments && Aligned(d, dep)
    ensures Chain(d, DeployFail(d, dep, task), reach)
  {
    hide RowsOk, SetStatus, Step;
    var d1 := SetDeploy(d, dep, d.deployments[dep].(status := DeployFailed));
    DeployStep(d, dep, d.deployments[dep].(status := DeployFailed), reach);
    StepRows(d, d1, reach);
    var failed := RecordError(d1, task);
    if failed.Some? {
      MoveStep(d1, task, FAILED, reach);
      Chain2(d, d1, failed.value, reach);
    }
  }

  lemma DeployRecordChain(d: Durable, m: Mem, o: Id, dep: Id, setup: Project_, before: Option<Commit>,
          migration: Migration.Raw, validation: Option<bool>)
    requires RowsOk(d) && dep !in d.deployments && o in m.engines && m.engines[o].Precheck?
             && m.engines[o].task in d.tasks
    ensures Chain(d, DeployRecord(d, m, o, dep, setup, before, migration, validation).writes, Reach({}, {}, {dep}))
  {
    hide RowsOk, SetStatus, Step, DeployFail, Chain, Recorded, RecordWrites;
    var task, reach := m.engines[o].task, Reach({}, {}, {dep});
    var s := DeployRecord(d, m, o, dep, setup, before, migration, validation);
    if setup.validationRequired && validation != Some(true) {
      NoChain(d, reach);
      return;
    }
    var row := DeployRow(task, Preparing, before, None, migration, setup, validation, None, None);
    var first, d1 := RecordWrites(d, dep, row), Recorded(d, dep, row);
    RecordChain(d, dep, row, reach);
    RecordedLast(d, dep, row);
    var moved := SetStatus(d1, task, DEPLOYING);
    if moved.None? {
      assert s.writes == first + DeployFail(d1, dep, task);
      DeployFailChain(d1, dep, task, reach);
      ChainJoin(d, first, DeployFail(d1, dep, task), reach);
      return;
    }
    BeginsChain(d1, dep, task, reach);
    assert s.writes == first + DeployBegins(moved.value, dep);
    ChainJoin(d, first, DeployBegins(moved.value, dep), reach);
  }

  lemma NoChain(d: Durable, reach: Reach)
    ensures Chain(d, [], reach)
  {}

  /** The task is DEPLOYING, then the row: deploying has begun. */
  lemma BeginsChain(d: Durable, dep: Id, task: Id, reach: Reach)
    requires RowsOk(d) && dep in d.deployments && dep in reach.deployments && Aligned(d, dep)
    requires SetStatus(d, task, DEPLOYING).Some?
    ensures var d' := SetStatus(d, task, DEPLOYING).value;
            Chain(d, DeployBegins(d', dep), reach)
  {
    var d' := SetStatus(d, task, DEPLOYING).value;
    var row := d'.deployments[dep].(status := DeployRunning);
    assert Aligned(d', dep);
    hide RowsOk, SetStatus, Step, Aligned;
    MoveStep(d, task, DEPLOYING, reach);
    StepRows(d, d', reach);
    DeployStep(d', dep, row, reach);
    Chain2(d, d', SetDeploy(d', dep, row), reach);
  }

  lemma DeployServiceChain(d: Durable, m: Mem, o: Id, active: Option<bool>)
    requires RowsOk(d) && DeployAt(d, m, o) && m.engines[o].deployStage.ServiceChecking?
    requires Began(d.deployments[m.engines[o].deployment])
    ensures Chain(d, DeployService(d, m, o, active).writes, Reach({}, {}, {m.engines[o].deployment}))
  {
    hide RowsOk, SetStatus, Step, DeployFail;
    var e := m.engines[o];
    var moved := SetStatus(d, e.task, HEALTH_CHECKING);
    BeganIsAligned(d, e.deployment);
    DeployFailChain(d, e.deployment, e.task, Reach({}, {}, {e.deployment}));
    if !(e.setup.service && active != Some(true)) && moved.Some? {
      var d1 := moved.value;
      MoveStep(d, e.task, HEALTH_CHECKING, Reach({}, {}, {e.deployment}));
      StepRows(d, d1, Reach({}, {}, {e.deployment}));
      assert d1.deployments == d.deployments;
      BeganIsAligned(d1, e.deployment);
      var row := d1.deployments[e.deployment].(status := DeployChecking);
      DeployStep(d1, e.deployment, row, Reach({}, {}, {e.deployment}));
      Chain2(d, d1, SetDeploy(d1, e.deployment, row), Reach({}, {}, {e.deployment}));
    }
  }

  /** The health result is on record; success only over what the row already proves. */
  lemma DeployFinishChain(d: Durable, m: Mem, o: Id, health: Health)
    requires RowsOk(d) && DeployAt(d, m, o) && m.engines[o].deployStage.DeployHealth?
    requires DeployingOk(d, m.engines[o].deployment, m.engines[o].task, m.engines[o].setup, m.engines[o].deployStage)
    ensures Chain(d, DeployFinish(d, m, o, health).writes, Reach({m.engines[o].task}, {}, {m.engines[o].deployment}))
  {
    var e := m.engines[o];
    var dep, reach := e.deployment, Reach({e.task}, {}, {e.deployment});
    assert DeployOk(d.deployments[dep], d.tasks);
    var row1 := d.deployments[dep].(health := Some(health));
    var d1, row2 := SetDeploy(d, dep, row1), row1.(status := DeploySucceeded, service := e.deployStage.service);
    var unhealthy := e.setup.healthRequired && health != Healthy;
    assert unhealthy || DeployProven(row2);
    var rest := FinishSplits(d, m, o, health);
    hide RowsOk, Step, DeployFinish, DeployFail, CompletedWrites, Aligned, DeployOk, DeployProven, Chain;
    BeganIsAligned(d, dep);
    DeployStep(d, dep, row1, reach);
    StepRows(d, d1, reach);
    BeganIsAligned(d1, dep);
    Chain1(d, d1, reach);
    if unhealthy {
      DeployFailChain(d1, dep, e.task, reach);
    } else {
      SuccessChain(d1, dep, e.task, row2, reach);
    }
    ChainJoin(d, [d1], rest, reach);
  }

  lemma FinishSplits(d: Durable, m: Mem, o: Id, health: Health) returns (rest: seq<Durable>)
    requires DeployAt(d, m, o) && m.engines[o].deployStage.DeployHealth?
    ensures var e := m.engines[o];
            var row1 := d.deployments[e.deployment].(health := Some(health));
            var d1 := SetDeploy(d, e.deployment, row1);
            var d2 := SetDeploy(d1, e.deployment,
                row1.(status := DeploySucceeded, service := e.deployStage.service));
            && DeployFinish(d, m, o, health).writes == [d1] + rest
            && rest == if e.setup.healthRequired && health != Healthy then DeployFail(d1, e.deployment, e.task)
                       else [d2] + CompletedWrites(d2, e.deployment, e.task)
  {
    hide DeployFail, SetStatus;
    rest := DeployFinish(d, m, o, health).writes[1..];
  }

  lemma SuccessChain(d: Durable, dep: Id, task: Id, row: DeployRow, reach: Reach)
    requires RowsOk(d) && dep in d.deployments && SameDeployment(d.deployments[dep], row) && Aligned(d, dep)
    requires DeployProven(row) && Began(row) && dep in reach.deployments && task in reach.done
    ensures Chain(d, [SetDeploy(d, dep, row)] + CompletedWrites(SetDeploy(d, dep, row), dep, task), reach)
  {
    hide RowsOk, Step, CompletedWrites, Aligned, DeployProven, Chain;
    var d' := SetDeploy(d, dep, row);
    DeployStep(d, dep, row, reach);
    StepRows(d, d', reach);
    BeganIsAligned(d', dep);
    CompletedChain(d', dep, task, reach);
    Chain1(d, d', reach);
    ChainJoin(d, [d'], CompletedWrites(d', dep, task), reach);
  }

  /** Success is on record: the task is COMPLETED, or the catch block runs. */
  function CompletedWrites(d: Durable, dep: Id, task: Id): seq<Durable>
    requires dep in d.deployments
  {
    var moved := SetStatus(d, task, COMPLETED);
    if moved.None? then DeployFail(d, dep, task) else [moved.value]
  }

  lemma CompletedChain(d: Durable, dep: Id, task: Id, reach: Reach)
    requires RowsOk(d) && dep in d.deployments && dep in reach.deployments && task in reach.done && Aligned(d, dep)
    ensures Chain(d, CompletedWrites(d, dep, task), reach)
  {
    hide RowsOk, SetStatus, Step, DeployFail, Aligned;
    if SetStatus(d, task, COMPLETED).None? {
      DeployFailChain(d, dep, task, reach);
    } else {
      MoveStep(d, task, COMPLETED, reach);
      Chain1(d, SetStatus(d, task, COMPLETED).value, reach);
    }
  }

  // ---------------------------------------------------------------- rollback

  /** A plan row just computed from a sound draft is sound. */
  lemma PlannedRowOk(d: Durable, draft: Draft, noAdapter: bool, seen: Observed)
    requires DraftOk(d, draft)
    ensures PlanOk(PlannedRow(draft, noAdapter, seen), [], d.tasks, d.deployments)
  {}

  lemma PlanCommitChain(d: Durable, m: Mem, id: Id, plan: Id, noAdapter: bool, seen: Observed)
    requires RowsOk(d) && plan !in d.plans && id in m.drafts && DraftOk(d, m.drafts[id])
    ensures Chain(d, PlanCommit(d, m, id, plan, noAdapter, seen).writes, NOTHING)
  {
    var draft := m.drafts[id];
    assert draft.task in d.tasks;
    hide RowsOk, SetStatus, Step, PlanOk, DraftOk, PlannedRow, PlannedStatus;
    var row := PlannedRow(draft, noAdapter, seen);
    PlannedRowOk(d, draft, noAdapter, seen);
    var d1 := d.(plans := d.plans[plan := row]);
    NewPlanStep(d, plan, row, NOTHING);
    StepRows(d, d1, NOTHING);
    var d2 := SetRollback(d1, draft.task, plan);
    RollbackStep(d1, draft.task, plan, NOTHING);
    PlannedStatusIsTame(row);
    TwoThenMove(d, d1, d2, draft.task, PlannedStatus(row), NOTHING);
  }

  lemma PlannedStatusIsTame(row: PlanRow)
    ensures PlannedStatus(row) != RUNNING && !Settled(PlannedStatus(row))
  {}

  lemma TwoThenMove(d: Durable, d1: Durable, d2: Durable, t: Id, s: TaskStatus, reach: Reach)
    requires Step(d, d1, reach) && Step(d1, d2, reach) && s != RUNNING && !Settled(s)
    ensures Chain(d, [d1, d2] + IfMoved(SetStatus(d2, t, s)), reach)
  {
    hide RowsOk, Step, SetStatus;
    var moved := SetStatus(d2, t, s);
    Chain2(d, d1, d2, reach);
    StepRows(d1, d2, reach);
    if moved.Some? {
      MoveStep(d2, t, s, reach);
      Chain3(d, d1, d2, moved.value, reach);
      assert [d1, d2] + IfMoved(moved) == [d1, d2, moved.value];
    } else {
      assert [d1, d2] + IfMoved(moved) == [d1, d2];
    }
  }

  lemma RollFailChain(d: Durable, plan: Id, reach: Reach)
    requires RowsOk(d) && PlanAt(d, plan) && plan in reach.plans
    ensures Chain(d, RollFail(d, plan), reach)
  {
    hide RowsOk, SetStatus, Step;
    var task := d.plans[plan].task;
    var d1 := SetPlan(d, plan, PlanFailed);
    PlanStep(d, plan, d.plans[plan].(status := PlanFailed), reach);
    StepRows(d, d1, reach);
    var d2 := SetRollback(d1, task, plan);
    RollbackStep(d1, task, plan, reach);
    StepRows(d1, d2, reach);
    Chain2(d, d1, d2, reach);
    var failed := RecordError(d2, task);
    if failed.Some? {
      var d3 := failed.value;
      MoveStep(d2, task, FAILED, reach);
      StepRows(d2, d3, reach);
      Chain3(d, d1, d2, d3, reach);
      var waiting := SetStatus(d3, task, WAITING_FOR_USER);
      if waiting.Some? {
        MoveStep(d3, task, WAITING_FOR_USER, reach);
        ChainJoin(d, [d1, d2, d3], [waiting.value], reach);
        assert RollFail(d, plan) == [d1, d2, d3] + [waiting.value];
      }
    }
  }

  lemma ReadyHasNotRun(d: Durable, plan: Id)
    requires RowsOk(d) && plan in d.plans && d.plans[plan].status.PlanReady?
    ensures Ran(d.commands, plan) == []
  {
    assert PlanOk(d.plans[plan], Ran(d.commands, plan), d.tasks, d.deployments);
  }

  lemma RollRunChain(d: Durable, m: Mem, o: Id, seen: Check)
    requires RowsOk(d) && o in m.engines && m.engines[o].Checking? && m.engines[o].setup == seen.setup
             && PlanAt(d, m.engines[o].plan)
    requires d.plans[m.engines[o].plan].status.PlanReady?
    ensures Chain(d, RollRun(d, m, o, seen).writes, Reach({}, {m.engines[o].plan}, {}))
  {
    var plan := m.engines[o].plan;
    var reach, row := Reach({}, {plan}, {}), d.plans[plan];
    ReadyHasNotRun(d, plan);
    hide RowsOk, SetStatus, Step, RollFail, CheckPasses;
    if !CheckPasses(row, seen) {
      PlanStep(d, plan, row.(status := PlanBlocked), reach);
    } else {
      var d1 := SetPlan(d, plan, PlanRollingBack);
      PlanStep(d, plan, row.(status := PlanRollingBack), reach);
      StepRows(d, d1, reach);
      if SetStatus(d1, row.task, ROLLING_BACK).Some? { CommandChain(d, d1, plan, seen, reach); }
      CommandRuns(d, plan, seen);
    }
  }

  lemma CommandRuns(d: Durable, plan: Id, seen: Check)
    requires Ran(d.commands, plan) == []
    ensures (if plan in d.commands then d.commands[plan] else []) + [seen] == [seen]
  {}

  /** The check has passed and the plan is marked: the command runs, once. */
  lemma CommandChain(d: Durable, d1: Durable, plan: Id, seen: Check, reach: Reach)
    requires RowsOk(d1) && Step(d, d1, reach) && plan in reach.plans && PlanAt(d1, plan) && Ran(d1.commands, plan) == []
    requires d1.plans[plan].status.PlanRollingBack? && CheckPasses(d1.plans[plan], seen)
    requires SetStatus(d1, d1.plans[plan].task, ROLLING_BACK).Some?
    ensures var d2 := SetStatus(d1, d1.plans[plan].task, ROLLING_BACK).value;
            Chain(d, [d1, d2] + RollFail(d2, plan), reach)
              && Chain(d, [d1, d2, d2.(commands := d2.commands[plan := [seen]])], reach)
  {
    hide RowsOk, SetStatus, Step, RollFail, CheckPasses;
    var d2 := SetStatus(d1, d1.plans[plan].task, ROLLING_BACK).value;
    MoveStep(d1, d1.plans[plan].task, ROLLING_BACK, reach);
    StepRows(d1, d2, reach);
    Chain2(d, d1, d2, reach);
    RollFailChain(d2, plan, reach);
    ChainJoin(d, [d1, d2], RollFail(d2, plan), reach);
    CommandStep(d2, plan, seen, reach);
    Chain3(d, d1, d2, d2.(commands := d2.commands[plan := [seen]]), reach);
  }

  lemma RollDoneChain(d: Durable, m: Mem, o: Id, result: PlanResult)
    requires RowsOk(d) && RollAt(d, m, o) && Ran(d.commands, m.engines[o].plan) != []
    requires RollProven(d.plans[m.engines[o].plan].(result := Some(result)))
    ensures Chain(d, RollDone(d, m, o, result).writes, Reach({}, {m.engines[o].plan}, {}))
  {
    var plan, task := m.engines[o].plan, d.plans[m.engines[o].plan].task;
    var reach, d1 := Reach({}, {plan}, {}), SetPlanDone(d, plan, result);
    PlanStep(d, plan, d1.plans[plan], reach);
    assert d1 == d.(plans := d.plans[plan := d1.plans[plan]]) && d1.plans[plan].task == task && d1.tasks == d.tasks;
    hide RowsOk, SetStatus, Step, RollFail, RollProven, Ran, SetPlanDone;
    StepRows(d, d1, reach);
    var d2 := SetRollback(d1, task, plan);
    RollbackStep(d1, task, plan, reach);
    assert PlanAt(d2, plan);
    hide SetRollback;
    DoneThen(d, d1, d2, plan, task, reach);
  }

  lemma DoneThen(d: Durable, d1: Durable, d2: Durable, plan: Id, task: Id, reach: Reach)
    requires Step(d, d1, reach) && Step(d1, d2, reach) && PlanAt(d2, plan) && plan in reach.plans
    ensures Chain(d, [d1, d2] + RollFail(d2, plan), reach)
    ensures var moved := SetStatus(d2, task, ROLLED_BACK); moved.Some? ==> Chain(d, [d1, d2, moved.value], reach)
  {
    hide SetStatus, Step, RollFail, RowsOk;
    StepRows(d1, d2, reach);
    Chain2(d, d1, d2, reach);
    RollFailChain(d2, plan, reach);
    ChainJoin(d, [d1, d2], RollFail(d2, plan), reach);
    if SetStatus(d2, task, ROLLED_BACK).Some? {
      MoveStep(d2, task, ROLLED_BACK, reach);
      Chain3(d, d1, d2, SetStatus(d2, task, ROLLED_BACK).value, reach);
    }
  }

  lemma RollServiceChain(d: Durable, m: Mem, o: Id, active: Option<bool>)
    requires RowsOk(d) && RollAt(d, m, o) && m.engines[o].rollStage.Verifying?
    requires RollingOk(d, m.engines[o].plan, m.engines[o].setup, m.engines[o].rollStage)
    ensures Chain(d, RollService(d, m, o, active).writes, Reach({}, {m.engines[o].plan}, {}))
  {
    hide RowsOk, SetStatus, Step, RollFail, RollDone, Chain;
    var e, s := m.engines[o], RollService(d, m, o, active);
    var reach := Reach({}, {e.plan}, {});
    if e.setup.service && active != Some(true) {
      assert s.writes == RollFail(d, e.plan);
      RollFailChain(d, e.plan, reach);
      return;
    }
    if !e.setup.health {
      RollDoneChain(d, m, o, PlanResult(e.rollStage.clean, e.setup, e.rollStage.head, active, None));
      return;
    }
    RollCheckChain(d, m, o, active);
  }

  /** The health check begins: the plan is marked, then the task moves. */
  lemma RollCheckChain(d: Durable, m: Mem, o: Id, active: Option<bool>)
    requires RowsOk(d) && RollAt(d, m, o) && m.engines[o].rollStage.Verifying?
    requires RollingOk(d, m.engines[o].plan, m.engines[o].setup, m.engines[o].rollStage)
    requires m.engines[o].setup.health && (m.engines[o].setup.service ==> active == Some(true))
    ensures Chain(d, RollService(d, m, o, active).writes, Reach({}, {m.engines[o].plan}, {}))
  {
    hide RowsOk, SetStatus, Step, RollFail, RollDone, Chain;
    var e, s := m.engines[o], RollService(d, m, o, active);
    var reach := Reach({}, {e.plan}, {});
    var d1 := SetPlan(d, e.plan, PlanChecking);
    var moved := SetStatus(d1, d.plans[e.plan].task, HEALTH_CHECKING);
    assert s.writes == if moved.None? then [d1] + RollFail(d1, e.plan) else [d1, moved.value];
    hide RollService;
    PlanStep(d, e.plan, d.plans[e.plan].(status := PlanChecking), reach);
    StepRows(d, d1, reach);
    if moved.None? {
      RollFailChain(d1, e.plan, reach);
      Chain1(d, d1, reach);
      ChainJoin(d, [d1], RollFail(d1, e.plan), reach);
      return;
    }
    MoveStep(d1, d.plans[e.plan].task, HEALTH_CHECKING, reach);
    Chain2(d, d1, moved.value, reach);
  }

  // ---------------------------------------------------------------- recovery

  lemma AssessOpenChain(d: Durable, maxAttempts: nat, task: Id, p: Project)
    requires RowsOk(d)
    ensures var r := AssessOpen(d, maxAttempts, task, p);
            Chain(d, if r.Declined? then r.writes else [r.write], NOTHING)
  {
    hide RowsOk, Step, CountRuns;
    if task in d.tasks {
      var limit := if d.tasks[task].deployment.Some? then ROLLBACK_REQUIRED else WAITING_FOR_USER;
      if SetStatus(d, task, limit).Some? { MoveStep(d, task, limit, NOTHING); }
      if SetStatus(d, task, RECOVERING).Some? { MoveStep(d, task, RECOVERING, NOTHING); }
    }
    hide SetStatus;
  }

  lemma AssessCloseChain(d: Durable, now: Time, task: Id, attempt: nat, verdict: Verdict)
    requires RowsOk(d)
    ensures Chain(d, AssessClose(d, now, task, attempt, verdict).writes, Reach({}, {}, {}, {task}))
  {
    hide RowsOk, SetStatus, Step;
    var reach := Reach({}, {}, {}, {task});
    var r, s := RunId(task, attempt), AssessClose(d, now, task, attempt, verdict);
    if r !in d.runs {
      var d1 := PutRun(d, r, RunRow(None, if verdict.NotCollected? then Some(now) else None));
      SideStep(d, d1, reach);
      StepRows(d, d1, reach);
      match verdict {
        case NotCollected =>
          ThenMove(d, d1, task, WAITING_FOR_USER, reach);
          assert s.writes == [d1] + IfMoved(SetStatus(d1, task, WAITING_FOR_USER));
        case Undecided =>
          Chain1(d, d1, reach);
        case Decided(decision) =>
          var d2 := PutRun(d1, r, RunRow(Some(decision), Some(now)));
          SideStep(d1, d2, reach);
          StepRows(d1, d2, reach);
          TwoThenMove(d, d1, d2, task, StatusAfter(decision), reach);
          assert s.writes == [d1, d2] + IfMoved(SetStatus(d2, task, StatusAfter(decision)));
      }
    }
  }

  /** One write and the status change after it, if the table accepts it. */
  lemma ThenMove(d: Durable, d1: Durable, t: Id, s: TaskStatus, reach: Reach)
    requires Step(d, d1, reach) && RowsOk(d1) && s != RUNNING && (Settled(s) ==> t in reach.done)
    ensures Chain(d, [d1] + IfMoved(SetStatus(d1, t, s)), reach)
  {
    hide Step, RowsOk, SetStatus;
    if SetStatus(d1, t, s).Some? {
      MoveStep(d1, t, s, reach);
      Chain2(d, d1, SetStatus(d1, t, s).value, reach);
    } else {
      Chain1(d, d1, reach);
    }
  }

  // ---------------------------------------------------------------- tasks

  lemma RunningStep(d: Durable, t: Id)
    requires RowsOk(d) && MayResume(d, t)
    ensures Step(d, WithStatus(d, t, RUNNING), NOTHING)
  {
    hide RowsOk, Kept;
    TaskRowChanges(d, t, d.tasks[t].(status := RUNNING));
  }

  lemma ResumeChain(d: Durable, m: Mem, t: Id)
    requires RowsOk(d)
    ensures Chain(d, Resume(d, m, t).writes, NOTHING)
  {
    hide RowsOk, Step, BlockingWork, ResumeVerified;
    if MayResume(d, t) {
      if d.tasks[t].status == RECOVERY_REQUIRED {
        var row := d.tasks[t].(recoveryAttempts := d.tasks[t].recoveryAttempts + 1);
        var d1 := d.(tasks := d.tasks[t := row]);
        CounterStep(d, t, row);
        StepRows(d, d1, NOTHING);
        assert MayResume(d1, t) by { SameBlockingWork(d, d1, t); }
        RunningStep(d1, t);
        Chain2(d, d1, WithStatus(d1, t, RUNNING), NOTHING);
        assert Resume(d, m, t).writes == [d1, WithStatus(d1, t, RUNNING)];
      } else {
        RunningStep(d, t);
        assert Resume(d, m, t).writes == [WithStatus(d, t, RUNNING)];
      }
    }
  }

  lemma SameBlockingWork(d: Durable, w: Durable, t: Id)
    requires w.ops == d.ops && w.jobs == d.jobs
    ensures BlockingWork(w, t) == BlockingWork(d, t)
  {}

  lemma CounterStep(d: Durable, t: Id, row: TaskRow)
    requires RowsOk(d) && t in d.tasks && row == d.tasks[t].(recoveryAttempts := row.recoveryAttempts)
    ensures Step(d, d.(tasks := d.tasks[t := row]), NOTHING)
  {
    hide RowsOk, Kept;
    TaskRowChanges(d, t, row);
  }

  lemma PauseChain(d: Durable, m: Mem, t: Id)
    requires RowsOk(d)
    ensures Chain(d, Pause(d, m, t).writes, NOTHING)
  {
    hide RowsOk, Step, BlockingWork;
    if t in d.tasks && d.tasks[t].status == RUNNING { MoveStep(d, t, PAUSED, NOTHING); }
  }

  lemma CancelNowChain(d: Durable, m: Mem, t: Id)
    requires RowsOk(d)
    ensures Chain(d, CancelNow(d, m, t).writes, Reach({t}, {}, {}))
  {
    hide RowsOk, Step, UnknownJob, RunningJob, BlockingOp;
    if SetStatus(d, t, CANCELLED).Some? { MoveStep(d, t, CANCELLED, Reach({t}, {}, {})); }
  }

  lemma CancelEndChain(d: Durable, m: Mem, id: Id)
    requires RowsOk(d) && id in m.cancelling
    ensures Chain(d, CancelEnd(d, m, id).writes, Reach({m.cancelling[id].task}, {}, {}))
  {
    hide RowsOk, Step, UnknownJob;
    var t := m.cancelling[id].task;
    if SetStatus(d, t, CANCELLED).Some? { MoveStep(d, t, CANCELLED, Reach({t}, {}, {})); }
  }
}
