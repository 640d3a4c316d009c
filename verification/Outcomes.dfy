/** What SUCCEEDED means for an operation: the effect it ran did succeed, on record, and stays so. */
module Outcomes {
  import opened Prelude
  import opened KeyTable
  import opened Store
  import opened Runtime
  import opened Engines
  import opened Agent
  import opened Frame
  import opened Evidence
  import opened Workflow
  import opened LeaseInvariant
  import opened EngineInvariant
  import opened WorkHistory

  /** The plan is the one the operation was started for. */
  predicate PlanOf(d: Durable, row: OpRow, plan: Id) {
    plan in d.plans && d.plans[plan].project == row.project && d.plans[plan].task == row.task
  }

  /** The very row an operation returns as its target: a SUCCEEDED deployment of its task, a
      SUCCEEDED plan of its task and project, a recovery run of its task. */
  ghost predicate Backed(d: Durable, row: OpRow, target: Target) {
    match row.kind
    case Deployment =>
      && target.RowTarget? && target.id in d.deployments
      && d.deployments[target.id].task == row.task && d.deployments[target.id].status.DeploySucceeded?
    case Rollback => target.RowTarget? && PlanOf(d, row, target.id) && d.plans[target.id].status.PlanSucceeded?
    case Recovery => target.RunTarget? && target.run.task == row.task
    case Validation => target.RowTarget?
  }

  ghost predicate SuccessesBacked(d: Durable) {
    forall o | o in d.ops && d.ops[o].status.OpSucceeded? :: Backed(d, d.ops[o], d.ops[o].target)
  }

  /** The engine an operation awaits is of its kind and at work on its behalf. */
  ghost predicate Fits(d: Durable, row: OpRow, e: Engine) {
    match e
    case Validating => row.kind.Validation?
    case Precheck(t) => row.kind.Deployment? && row.task == t
    case Deploying(_, t, _, _) => row.kind.Deployment? && row.task == t
    case Opening(plan) => row.kind.Rollback? && PlanOf(d, row, plan)
    case Checking(plan, _) => row.kind.Rollback? && PlanOf(d, row, plan)
    case RollingBack(plan, _, _) => row.kind.Rollback? && PlanOf(d, row, plan) && Underway(d.plans[plan].status)
    case ToAssess(t) => row.kind.Recovery? && row.task == t
    case Assessing(t, _) => row.kind.Recovery? && row.task == t
    case Returned(succeeded, target) => succeeded ==> Backed(d, row, target)
  }

  predicate Underway(s: PlanStatus) { s.PlanRollingBack? || s.PlanChecking? }

  ghost predicate EngineFits(d: Durable, m: Mem, o: Id)
    requires o in m.engines
  {
    o in d.ops && o in m.sections && m.sections[o].project == d.ops[o].project && Fits(d, d.ops[o], m.engines[o])
  }

  ghost predicate EnginesFit(d: Durable, m: Mem) { forall o | o in m.engines :: EngineFits(d, m, o) }

  // ---------------------------------------------------------------- what a write keeps

  /** Nothing a stretch may settle has succeeded already. */
  ghost predicate Unsettled(d: Durable, reach: Reach) {
    && (forall r | r in reach.deployments && r in d.deployments :: !d.deployments[r].status.DeploySucceeded?)
    && (forall p | p in reach.plans && p in d.plans :: !d.plans[p].status.PlanSucceeded?)
  }

  lemma BackedStays(d: Durable, w: Durable, row: OpRow, target: Target, reach: Reach)
    requires Backed(d, row, target) && Kept(d, w, reach) && Unsettled(d, reach)
    ensures Backed(w, row, target)
  {}

  lemma FitsStays(d: Durable, w: Durable, row: OpRow, e: Engine, reach: Reach)
    requires Fits(d, row, e) && Kept(d, w, reach) && Unsettled(d, reach) && (e.RollingBack? ==> e.plan !in reach.plans)
    ensures Fits(w, row, e)
  {
    hide Backed;
    if e.Returned? && e.succeeded { BackedStays(d, w, row, e.target, reach); }
  }

  lemma ReachIsUnsettled(d: Durable, m: Mem, l: Label)
    requires EnginesOk(d, m) && EnginesFit(d, m) && Enabled(d, m, l)
    ensures Unsettled(d, ReachOf(m, l))
  {
    if l.OnDeploy? {
      if l.e.op in m.engines { assert EngineOk(d, m.sections[l.e.op].project, m.engines[l.e.op]); }
    } else if l.OnRoll? && (l.r.RunRollback? || l.r.FailRollback? || l.r.RolledTo? || l.r.RollServiceIs?
      || l.r.RollHealthIs?) {
      var o := l.r.op;
      if o in m.engines { assert EngineOk(d, m.sections[o].project, m.engines[o]) && EngineFits(d, m, o); }
    }
  }

  // ---------------------------------------------------------------- where an engine stretch leaves its engine

  /** The engine a rollback stretch acts on. */
  predicate RollActs(l: RollLabel) { !l.BeginPlan? && !l.CommitPlan? }

  /** What a stretch leaves of the operation and its engine. */
  ghost predicate LeavesFit(d: Durable, m: Mem, o: Id, s: Stretch)
    requires o in d.ops
  {
    o in s.mem.engines && s.mem == At(m, o, s.mem.engines[o]) && Fits(Last(d, s.writes), d.ops[o], s.mem.engines[o])
  }

  /** Giving up always fits. */
  lemma FailureFits(d: Durable, m: Mem, o: Id, writes: seq<Durable>, e: Engine)
    requires o in d.ops && e.Returned? && !e.succeeded
    ensures LeavesFit(d, m, o, Stretch(writes, At(m, o, e)))
  {}

  lemma FinishFits(d: Durable, m: Mem, o: Id, health: Health)
    requires DeployAt(d, m, o) && m.engines[o].deployStage.DeployHealth? && o in d.ops
             && Fits(d, d.ops[o], m.engines[o])
    requires d.deployments[m.engines[o].deployment].task == m.engines[o].task
    ensures LeavesFit(d, m, o, DeployFinish(d, m, o, health))
  {
    var e := m.engines[o];
    var row1 := d.deployments[e.deployment].(health := Some(health));
    var d1 := SetDeploy(d, e.deployment, row1);
    if e.setup.healthRequired && health != Healthy {
      FailureFits(d, m, o, [d1] + DeployFail(d1, e.deployment, e.task), GivesUp(d1, e.task, e.deployment));
      hide LeavesFit, DeployFail, SetStatus;
      return;
    }
    var row2 := row1.(status := DeploySucceeded, service := e.deployStage.service);
    var d2 := SetDeploy(d1, e.deployment, row2);
    var moved := SetStatus(d2, e.task, COMPLETED);
    if moved.None? {
      FailureFits(d, m, o, [d1, d2] + DeployFail(d2, e.deployment, e.task), GivesUp(d2, e.task, e.deployment));
      hide LeavesFit, DeployFail, SetStatus;
      return;
    }
    var w := moved.value;
    assert DeployFinish(d, m, o, health) == Stretch([d1, d2, w], At(m, o, Returned(true, RowTarget(e.deployment))));
    hide DeployFinish, DeployFail, SetStatus;
    assert w.deployments == d2.deployments && w.deployments[e.deployment] == row2;
  }

  lemma RecordFits(d: Durable, m: Mem, o: Id, dep: Id, setup: Project_, before: Option<Commit>,
          migration: Migration.Raw, validation: Option<bool>)
    requires o in m.engines && m.engines[o].Precheck? && m.engines[o].task in d.tasks && o in d.ops
             && Fits(d, d.ops[o], m.engines[o])
    ensures LeavesFit(d, m, o, DeployRecord(d, m, o, dep, setup, before, migration, validation))
  {
    var t, s := m.engines[o].task, DeployRecord(d, m, o, dep, setup, before, migration, validation);
    hide SetStatus, DeployFail, RecordWrites, Recorded, GivesUp, LeavesFit, Fits, DeployBegins;
    if setup.validationRequired && validation != Some(true) {
      FailureFits(d, m, o, [], Returned(false));
      return;
    }
    var row := DeployRow(t, Preparing, before, None, migration, setup, validation, None, None);
    var d1 := Recorded(d, dep, row);
    if SetStatus(d1, t, DEPLOYING).None? {
      GivenUp(d1, t, dep);
      FailureFits(d, m, o, RecordWrites(d, dep, row) + DeployFail(d1, dep, t), GivesUp(d1, t, dep));
      return;
    }
    BegunFits(d, m, o, s.writes, dep, setup);
  }

  lemma GivenUp(d: Durable, t: Id, row: Id)
    ensures GivesUp(d, t, row).Returned? && !GivesUp(d, t, row).succeeded
  {}

  lemma BegunFits(d: Durable, m: Mem, o: Id, writes: seq<Durable>, dep: Id, setup: Project_)
    requires o in m.engines && m.engines[o].Precheck? && o in d.ops && Fits(d, d.ops[o], m.engines[o])
    ensures LeavesFit(d, m, o, Stretch(writes, At(m, o, Deploying(dep, m.engines[o].task, setup, DeployActing))))
  {}

  lemma ServiceFits(d: Durable, m: Mem, o: Id, active: Option<bool>)
    requires DeployAt(d, m, o) && m.engines[o].deployStage.ServiceChecking? && o in d.ops
             && Fits(d, d.ops[o], m.engines[o])
    ensures LeavesFit(d, m, o, DeployService(d, m, o, active))
  {
    hide DeployFail, SetStatus, Backed;
    var s, e := DeployService(d, m, o, active), m.engines[o];
    assert (Ends(m, s.mem, o) && !s.mem.engines[o].succeeded)
           || s.mem == At(m, o, e.(deployStage := DeployHealth(active)));
    hide DeployService;
  }

  lemma DeployFits(d: Durable, m: Mem, l: DeployLabel)
    requires DeployEnabled(d, m, l) && EngineFits(d, m, l.op) && EngineOk(d, m.sections[l.op].project, m.engines[l.op])
    ensures LeavesFit(d, m, l.op, PerformDeploy(d, m, l))
  {
    match l
    case DeployHealthIs(o, health) => FinishFits(d, m, o, health); hide DeployFinish, LeavesFit;
    case DeployServiceIs(o, active) => ServiceFits(d, m, o, active); hide DeployService, LeavesFit;
    case FailDeploy(o) =>
      var e := m.engines[o];
      FailureFits(d, m, o, DeployFail(d, e.deployment, e.task), GivesUp(d, e.task, e.deployment));
      hide DeployFail, GivesUp, LeavesFit;
    case DeployedTo(_, _) => hide Backed;
    case RecordDeploy(o, dep, setup, before, migration, validation) =>
      RecordFits(d, m, o, dep, setup, before, migration, validation); hide DeployRecord, LeavesFit;
  }

  lemma RollDoneFits(d: Durable, m: Mem, o: Id, result: PlanResult)
    requires RollAt(d, m, o) && o in d.ops && Fits(d, d.ops[o], m.engines[o])
    ensures LeavesFit(d, m, o, RollDone(d, m, o, result))
  {
    hide RollFail, SetStatus;
    var s, plan := RollDone(d, m, o, result), m.engines[o].plan;
    assert Ends(m, s.mem, o);
    if s.mem.engines[o].succeeded {
      var w := Last(d, s.writes);
      assert s.mem.engines[o].target == RowTarget(plan);
      assert PlanOf(w, d.ops[o], plan) && w.plans[plan].status.PlanSucceeded?;
    }
  }

  lemma RollServiceFits(d: Durable, m: Mem, o: Id, active: Option<bool>)
    requires RollAt(d, m, o) && m.engines[o].rollStage.Verifying? && o in d.ops && Fits(d, d.ops[o], m.engines[o])
    ensures LeavesFit(d, m, o, RollService(d, m, o, active))
  {
    var e, s := m.engines[o], RollService(d, m, o, active);
    hide LeavesFit, RollFail, RollDone, SetStatus, Fits;
    if e.setup.service && active != Some(true) {
      assert s == RollError(d, m, o);
      FailureFits(d, m, o, RollFail(d, e.plan), RollGivesUp(d, e.plan));
      return;
    }
    if !e.setup.health {
      RollDoneFits(d, m, o, PlanResult(e.rollStage.clean, e.setup, e.rollStage.head, active, None));
      return;
    }
    RollCheckFits(d, m, o, active);
  }

  lemma RollCheckFits(d: Durable, m: Mem, o: Id, active: Option<bool>)
    requires RollAt(d, m, o) && m.engines[o].rollStage.Verifying? && o in d.ops && Fits(d, d.ops[o], m.engines[o])
    requires m.engines[o].setup.health && (m.engines[o].setup.service ==> active == Some(true))
    ensures LeavesFit(d, m, o, RollService(d, m, o, active))
  {
    var e, s := m.engines[o], RollService(d, m, o, active);
    var d1 := SetPlan(d, e.plan, PlanChecking);
    var moved := SetStatus(d1, d.plans[e.plan].task, HEALTH_CHECKING);
    if moved.None? {
      assert s == Stretch([d1] + RollFail(d1, e.plan), At(m, o, RollGivesUp(d1, e.plan)));
      hide RollService, RollFail, SetStatus, LeavesFit;
      FailureFits(d, m, o, [d1] + RollFail(d1, e.plan), RollGivesUp(d1, e.plan));
      return;
    }
    assert s == Stretch([d1, moved.value],
             At(m, o, e.(rollStage := RollHealth(e.rollStage.clean, e.rollStage.head, active))));
    hide RollService, RollFail, SetStatus, Backed;
    assert moved.value.plans == d1.plans && d1.plans[e.plan].status == PlanChecking;
  }

  lemma RollRunFits(d: Durable, m: Mem, o: Id, seen: Check)
    requires o in m.engines && m.engines[o].Checking? && m.engines[o].setup == seen.setup
             && PlanAt(d, m.engines[o].plan)
    requires o in d.ops && Fits(d, d.ops[o], m.engines[o])
    ensures LeavesFit(d, m, o, RollRun(d, m, o, seen))
  {
    var plan, s := m.engines[o].plan, RollRun(d, m, o, seen);
    var d1 := SetPlan(d, plan, PlanRollingBack);
    var moved := SetStatus(d1, d.plans[plan].task, ROLLING_BACK);
    if !CheckPasses(d.plans[plan], seen) || moved.None? {
      assert s.mem == At(m, o, Returned(false));
      FailureFits(d, m, o, s.writes, Returned(false));
      hide RollRun, LeavesFit, CheckPasses, SetStatus;
      return;
    }
    if d.plans[plan].target.None? {
      assert s == Stretch([d1, moved.value] + RollFail(moved.value, plan), At(m, o, RollGivesUp(moved.value, plan)));
      hide RollRun, LeavesFit, CheckPasses, SetStatus, RollFail;
      FailureFits(d, m, o, s.writes, RollGivesUp(moved.value, plan));
      return;
    }
    var w :=
      moved.value.(commands := d.commands[plan := (if plan in d.commands then d.commands[plan] else []) + [seen]]);
    assert s == Stretch([d1, moved.value, w], At(m, o, RollingBack(plan, seen.setup, RollActing)));
    assert w.plans == d1.plans;
    hide RollRun, CheckPasses, SetStatus;
    CommandFits(d, m, o, plan, seen.setup, [d1, moved.value, w]);
    hide LeavesFit;
  }

  lemma CommandFits(d: Durable, m: Mem, o: Id, plan: Id, setup: Project_, writes: seq<Durable>)
    requires plan in d.plans && o in d.ops && o in m.engines && m.engines[o] == Checking(plan, setup)
    requires Fits(d, d.ops[o], m.engines[o]) && Last(d, writes).plans == SetPlan(d, plan, PlanRollingBack).plans
    ensures LeavesFit(d, m, o, Stretch(writes, At(m, o, RollingBack(plan, setup, RollActing))))
  {
    hide Backed;
  }

  lemma RollErrorFits(d: Durable, m: Mem, o: Id)
    requires RollAt(d, m, o) && o in d.ops
    ensures LeavesFit(d, m, o, RollError(d, m, o))
  {
    var plan := m.engines[o].plan;
    hide LeavesFit, RollFail, RollGivesUp;
    FailureFits(d, m, o, RollFail(d, plan), RollGivesUp(d, plan));
  }

  lemma RolledFits(d: Durable, m: Mem, o: Id, clean: bool, head: Option<Commit>)
    requires RollAt(d, m, o) && m.engines[o].rollStage.RollActing? && o in d.ops && Fits(d, d.ops[o], m.engines[o])
    ensures LeavesFit(d, m, o, RollActed(d, m, o, clean, head))
  {
    hide RollError, PlanOf;
    RollErrorFits(d, m, o);
  }

  lemma RollHealthFits(d: Durable, m: Mem, o: Id, health: Health)
    requires RollAt(d, m, o) && m.engines[o].rollStage.RollHealth? && o in d.ops && Fits(d, d.ops[o], m.engines[o])
    ensures LeavesFit(d, m, o, RollFinish(d, m, o, health))
  {
    var e := m.engines[o];
    hide RollError, RollDone, LeavesFit, Fits;
    RollErrorFits(d, m, o);
    RollDoneFits(d, m, o, PlanResult(e.rollStage.clean, e.setup, e.rollStage.head, e.rollStage.service, Some(health)));
  }

  lemma RollFits(d: Durable, m: Mem, l: RollLabel)
    requires RollEnabled(d, m, l) && RollActs(l) && l.op in m.engines && EngineFits(d, m, l.op)
    ensures LeavesFit(d, m, l.op, PerformRoll(d, m, l))
  {
    hide RollRun, RollService, RollActed, RollFinish, RollError;
    match l
    case RunRollback(o, seen) => RollRunFits(d, m, o, seen); hide LeavesFit;
    case RollServiceIs(o, active) => RollServiceFits(d, m, o, active); hide LeavesFit;
    case RolledTo(o, clean, head) => RolledFits(d, m, o, clean, head); hide LeavesFit;
    case FailRollback(o) => RollErrorFits(d, m, o); hide LeavesFit;
    case RollHealthIs(o, health) => RollHealthFits(d, m, o, health); hide LeavesFit;
    case OpenRollback(_, _) => hide Backed;
  }

  // ---------------------------------------------------------------- one stretch

  /** The engine a label moves, if it moves one. */
  function Actor(l: Label): Option<Id> {
    match l
    case OnTask(Validated(o, _, _)) => Some(o)
    case OnTask(Throw(o)) => Some(o)
    case OnDeploy(e) => Some(e.op)
    case OnRoll(r) => if RollActs(r) then Some(r.op) else None
    case OnAssess(BeginAssess(o)) => Some(o)
    case OnAssess(EndAssess(o, _)) => Some(o)
    case _ => None
  }

  lemma AssessFits(c: Config, d: Durable, m: Mem, now: Time, l: AssessLabel)
    requires AssessEnabled(d, m, l) && (l.BeginAssess? || l.EndAssess?) && EngineFits(d, m, l.op)
    ensures LeavesFit(d, m, l.op, PerformAssess(c, d, m, now, l))
  {
    hide EngineFits, LeavesFit, AssessBegin, AssessEnd;
    match l
    case BeginAssess(o) => AssessBeginFits(c, d, m, o);
    case EndAssess(o, verdict) => AssessEndFits(d, m, now, o, verdict);
  }

  lemma AssessBeginFits(c: Config, d: Durable, m: Mem, o: Id)
    requires o in m.engines && m.engines[o].ToAssess? && EngineFits(d, m, o)
    ensures LeavesFit(d, m, o, AssessBegin(c, d, m, o))
  {
    hide AssessOpen, Backed, PlanOf;
  }

  lemma AssessEndFits(d: Durable, m: Mem, now: Time, o: Id, verdict: Verdict)
    requires o in m.engines && m.engines[o].Assessing? && EngineFits(d, m, o)
    ensures LeavesFit(d, m, o, AssessEnd(d, m, now, o, verdict))
  {
    ClosedTarget(d, now, m.engines[o].task, m.engines[o].attempt, verdict);
    hide AssessClose, PlanOf;
  }

  lemma ClosedTarget(d: Durable, now: Time, task: Id, attempt: nat, verdict: Verdict)
    ensures AssessClose(d, now, task, attempt, verdict).succeeded ==>
              AssessClose(d, now, task, attempt, verdict).target == RunTarget(RunId(task, attempt))
  {
    hide SetStatus;
  }

  /** Anyone else's engine is left alone. */
  lemma OthersStay(c: Config, d: Durable, m: Mem, now: Time, l: Label)
    requires EngineLabel(l) && Enabled(d, m, l) && Actor(l).None?
    ensures Perform(c, d, m, now, l).mem.engines == m.engines
  {
    hide AssessOpen, AssessClose, SetStatus, MayResume, PlannedRow;
  }

  lemma ActorFits(c: Config, d: Durable, m: Mem, now: Time, l: Label)
    requires EngineLabel(l) && Enabled(d, m, l) && Actor(l).Some? && EnginesOk(d, m) && EnginesFit(d, m)
    ensures Actor(l).value in m.engines && Actor(l).value in d.ops
    ensures LeavesFit(d, m, Actor(l).value, Perform(c, d, m, now, l))
  {
    hide EnginesFit, EnginesOk, EngineOk, LeavesFit, PerformDeploy, PerformRoll, PerformAssess, EngineFits,
         DeployEnabled, RollEnabled, AssessEnabled;
    var o := Actor(l).value;
    ActorIs(d, m, l);
    EngineFacts(d, m, o);
    match l
    case OnTask(t) => TaskFits(d, m, t);
    case OnDeploy(e) => DeployFits(d, m, e);
    case OnRoll(r) => RollFits(d, m, r);
    case OnAssess(a) => AssessFits(c, d, m, now, a);
  }

  lemma TaskFits(d: Durable, m: Mem, l: TaskLabel)
    requires TaskEnabled(d, m, l) && (l.Validated? || l.Throw?) && EngineFits(d, m, l.op)
    ensures LeavesFit(d, m, l.op, PerformTask(d, m, l))
  {
    hide PlanOf, MayThrow;
  }

  lemma EngineFacts(d: Durable, m: Mem, o: Id)
    requires EnginesOk(d, m) && EnginesFit(d, m) && o in m.engines
    ensures o in m.sections && EngineFits(d, m, o) && EngineOk(d, m.sections[o].project, m.engines[o])
  {
    hide EngineOk, EngineFits;
  }

  lemma ActorIs(d: Durable, m: Mem, l: Label)
    requires Enabled(d, m, l) && Actor(l).Some? && EnginesFit(d, m)
    ensures EngineIs(m, Actor(l).value) && Actor(l).value in d.ops
  {
    hide Unused, Fits;
    assert EngineIs(m, Actor(l).value);
    assert EngineFits(d, m, Actor(l).value);
  }

  /** Two operations never have one plan in hand. */
  lemma PlanInHandIsApart(d: Durable, m: Mem, l: Label, q: Id)
    requires EnginesOk(d, m) && EnginesFit(d, m) && Exclusive(m.sections) && Enabled(d, m, l)
    requires q in m.engines && m.engines[q].RollingBack? && Actor(l) != Some(q)
    ensures m.engines[q].plan !in ReachOf(m, l).plans
  {
    hide EnginesOk;
    if l.OnRoll? && RollActs(l.r) && l.r.op in m.engines {
      assert EngineFits(d, m, q) && EngineFits(d, m, l.r.op);
    }
  }

  lemma OtherFits(d: Durable, w: Durable, m: Mem, l: Label, q: Id)
    requires EnginesOk(d, m) && EnginesFit(d, m) && Exclusive(m.sections) && Enabled(d, m, l)
    requires Kept(d, w, ReachOf(m, l)) && q in m.engines && Actor(l) != Some(q)
    ensures q in w.ops && w.ops[q] == d.ops[q] && Fits(w, w.ops[q], m.engines[q])
  {
    ReachIsUnsettled(d, m, l);
    assert EngineFits(d, m, q);
    if m.engines[q].RollingBack? { PlanInHandIsApart(d, m, l, q); }
    assert w.ops == d.ops;
    hide EnginesOk, EnginesFit, Exclusive, Enabled, ReachOf, Kept, Unsettled, Fits;
    FitsStays(d, w, d.ops[q], m.engines[q], ReachOf(m, l));
  }

  /** Along an engine stretch every success stays backed. */
  lemma EngineWritesBacked(d: Durable, m: Mem, l: Label, writes: seq<Durable>, w: Durable)
    requires RowsOk(d) && EnginesOk(d, m) && EnginesFit(d, m) && Enabled(d, m, l) && SuccessesBacked(d)
    requires Chain(d, writes, ReachOf(m, l)) && w in writes
    ensures SuccessesBacked(w) && Kept(d, w, ReachOf(m, l))
  {
    ReachIsUnsettled(d, m, l);
    hide RowsOk, EnginesOk, EnginesFit, Enabled, ReachOf, Chain, Backed, Unsettled;
    var n :| 0 <= n < |writes| && writes[n] == w;
    ChainKeeps(d, writes, n, ReachOf(m, l));
    forall o | o in w.ops && w.ops[o].status.OpSucceeded? ensures Backed(w, w.ops[o], w.ops[o].target) {
      BackedStays(d, w, d.ops[o], d.ops[o].target, ReachOf(m, l));
    }
  }

  /** What every stretch keeps. */
  ghost predicate Outcome(d: Durable, m: Mem) { SuccessesBacked(d) && EnginesFit(d, m) }

  ghost predicate OutcomeAfter(d: Durable, s: Stretch) {
    (forall w | w in s.writes :: SuccessesBacked(w)) && Outcome(Last(d, s.writes), s.mem)
  }

  lemma EngineOutcome(c: Config, d: Durable, m: Mem, now: Time, l: Label)
    requires EvidenceInv(d, m) && Exclusive(m.sections) && Enabled(d, m, l) && EngineLabel(l) && Outcome(d, m)
    requires Lawful(d, m, Perform(c, d, m, now, l), ReachOf(m, l))
    ensures OutcomeAfter(d, Perform(c, d, m, now, l))
  {
    InvRows(d, m);
    if Actor(l).Some? { ActorFits(c, d, m, now, l); } else { OthersStay(c, d, m, now, l); }
    hide *;
    OutcomeTogether(d, m, l, Perform(c, d, m, now, l));
  }

  lemma OutcomeTogether(d: Durable, m: Mem, l: Label, s: Stretch)
    requires RowsOk(d) && EnginesOk(d, m) && Outcome(d, m) && Exclusive(m.sections) && Enabled(d, m, l)
    requires Lawful(d, m, s, ReachOf(m, l))
    requires if Actor(l).Some? then
               Actor(l).value in m.engines && Actor(l).value in d.ops && LeavesFit(d, m, Actor(l).value, s)
             else s.mem.engines == m.engines
    ensures OutcomeAfter(d, s)
  {
    hide EvidenceInv, RowsOk, EnginesOk, Exclusive, Enabled, ReachOf, Chain, SuccessesBacked, Actor, EngineFits,
         LeavesFit, Last, SameSections;
    forall w | w in s.writes ensures SuccessesBacked(w) { EngineWritesBacked(d, m, l, s.writes, w); }
    forall q | q in s.mem.engines ensures EngineFits(Last(d, s.writes), s.mem, q) { EngineStillFits(d, m, l, s, q); }
    LastBacked(d, s.writes);
  }

  lemma LastBacked(d: Durable, writes: seq<Durable>)
    requires SuccessesBacked(d) && forall w | w in writes :: SuccessesBacked(w)
    ensures SuccessesBacked(Last(d, writes))
  {
    hide SuccessesBacked;
  }

  /** After a stretch whose actor fits, so does every engine. */
  lemma EngineStillFits(d: Durable, m: Mem, l: Label, s: Stretch, q: Id)
    requires RowsOk(d) && EnginesOk(d, m) && EnginesFit(d, m) && SuccessesBacked(d) && Exclusive(m.sections)
             && Enabled(d, m, l)
    requires Chain(d, s.writes, ReachOf(m, l)) && SameSections(m, s.mem) && q in s.mem.engines
    requires if Actor(l).Some? then
               Actor(l).value in m.engines && Actor(l).value in d.ops && LeavesFit(d, m, Actor(l).value, s)
             else s.mem.engines == m.engines
    ensures EngineFits(Last(d, s.writes), s.mem, q)
  {
    var w := Last(d, s.writes);
    assert q in m.engines && EngineFits(d, m, q);
    hide RowsOk, EnginesOk, EnginesFit, Exclusive, Enabled, ReachOf, Chain, SuccessesBacked, Kept, Actor, Fits;
    if s.writes != [] {
      assert w in s.writes;
      EngineWritesBacked(d, m, l, s.writes, w);
      KeptOps(d, w, ReachOf(m, l));
      if Actor(l) != Some(q) { OtherFits(d, w, m, l, q); }
    }
  }

  lemma KeptOps(d: Durable, w: Durable, reach: Reach)
    requires Kept(d, w, reach)
    ensures w.ops == d.ops
  {}

  // ---------------------------------------------------------------- work stretches

  /** Whatever succeeded in `w` had succeeded before, or its engine has just returned success. */
  ghost predicate Credited(d: Durable, m: Mem, w: Durable) {
    forall o | o in w.ops && w.ops[o].status.OpSucceeded? ::
      && o in d.ops && SameOperation(d.ops[o], w.ops[o])
      && (|| (d.ops[o].status.OpSucceeded? && w.ops[o].target == d.ops[o].target)
          || (o in m.engines && m.engines[o] == Returned(true, w.ops[o].target)))
  }

  lemma CreditedIsBacked(d: Durable, m: Mem, w: Durable)
    requires Outcome(d, m) && SameEvidence(d, w) && Credited(d, m, w)
    ensures SuccessesBacked(w)
  {
    forall o | o in w.ops && w.ops[o].status.OpSucceeded? ensures Backed(w, w.ops[o], w.ops[o].target) {
      if o in m.engines { assert EngineFits(d, m, o); }
      assert Backed(d, d.ops[o], w.ops[o].target);
      SameBacked(d, w, d.ops[o], w.ops[o], w.ops[o].target);
    }
  }

  lemma SameBacked(d: Durable, w: Durable, row: OpRow, row': OpRow, target: Target)
    requires Backed(d, row, target) && SameEvidence(d, w) && SameOperation(row, row')
    ensures Backed(w, row', target)
  {}

  /** Operation rows as they were. */
  ghost predicate SameOps(d: Durable, writes: seq<Durable>) { forall w | w in writes :: w.ops == d.ops }

  lemma JobBeginLeavesOps(c: Config, d: Durable, m: Mem, now: Time, id: Id, p: Project, command: string,
          attached: Option<Id>, key: Option<string>)
    ensures SameOps(d, JobBegin(c, d, m, now, id, p, command, attached, key).writes)
  {
    hide RequireReplayable, TakeLease, BeginJobKey, FinishKey;
    var k := if key.None? then None else Some(KeyId(JobScope(p), key.value));
    var d1 := BeginJobKey(d, k, JobPrint(p, command, attached), now);
    var leased := TakeLease(d1, p, "command:" + command, SectionOwner(m.instance, id), c.jobTtl, now);
    var writes := JobBegin(c, d, m, now, id, p, command, attached, key).writes;
    assert writes == [] || writes == [d1] + FailJobKey(d1, k, now) || (leased.Some? && writes == [d1, leased.value]);
    hide JobBegin;
  }

  lemma JobAttachLeavesOps(d: Durable, m: Mem, now: Time, j: Id)
    requires j in m.sections && m.sections[j].stage.JobOpening?
    ensures SameOps(d, JobAdmitted(d, m, now, j).writes) && SameOps(d, JobRefused(d, m, now, j).writes)
  {
    hide ReleaseLease, BeginEffect, FinishKey;
  }

  lemma GuardLeavesOps(c: Config, d: Durable, m: Mem, now: Time, id: Id, k: KeyId, fp: Fingerprint)
    requires GuardScope(k.scope)
    ensures SameOps(d, GuardBegin(c, d, m, now, id, k, fp).writes)
  {
    hide RequireReplayable, TakeLease, BeginKey, BeginEffect, FinishKey;
    var d1 := BeginKey(d, k, fp, now);
    var leased := TakeLease(d1, k.scope.project, GuardLease(k.scope), GuardOwner(m.instance, GuardName(k.scope), k.key),
        c.guardTtl, now);
    var writes := GuardBegin(c, d, m, now, id, k, fp).writes;
    assert writes == [] || writes == [d1, FinishKey(d1, k, Failed, Value("lease"), now)]
           || (leased.Some? && writes == [d1, leased.value, BeginEffect(leased.value, k)]);
    hide GuardBegin, GuardLease, GuardName;
  }

  lemma JobEndLeavesOps(d: Durable, m: Mem, j: Id, exitedCleanly: bool)
    requires j in m.sections
    ensures SameOps(d, JobCleanup(d, m, j).writes) && SameOps(d, JobCancel(d, m, j).writes)
    ensures m.sections[j].stage.JobLive? && j in d.jobs ==> SameOps(d, JobExit(d, m, j, exitedCleanly).writes)
  {
    hide ReleaseLease, CancelReplyFor;
  }

  lemma GuardEndLeavesOps(d: Durable, m: Mem, now: Time, g: Id, result: Option<string>)
    requires g in m.sections && m.sections[g].stage.Guarding?
    ensures SameOps(d, GuardEnd(d, m, now, g, result).writes)
  {
    hide ReleaseLease, FinishKey;
  }

  lemma JobsLeaveOps(c: Config, d: Durable, m: Mem, now: Time, l: JobLabel)
    requires JobEnabled(d, m, l)
    ensures SameOps(d, PerformJob(c, d, m, now, l).writes)
  {
    match l
    case BeginJob(id, p, command, attached, key) =>
      JobBeginLeavesOps(c, d, m, now, id, p, command, attached, key); hide JobBegin, SameOps;
    case AttachJob(j, _) => JobAttachLeavesOps(d, m, now, j); hide JobAdmitted, JobRefused, SameOps, MayAttach;
    case ExitJob(j, clean) => JobEndLeavesOps(d, m, j, clean); hide JobExit, SameOps;
    case CleanUpJob(j) => JobEndLeavesOps(d, m, j, true); hide JobCleanup, SameOps;
    case CancelJob(_) => hide CancelReplyFor;
    case BeginGuarded(id, k, fp) => GuardLeavesOps(c, d, m, now, id, k, fp); hide GuardBegin, SameOps;
    case EndGuarded(g, result) => GuardEndLeavesOps(d, m, now, g, result); hide GuardEnd, SameOps;
  }

  /** Writes that leave the operation rows alone keep every success backed. */
  lemma SameOpsBacked(d: Durable, m: Mem, writes: seq<Durable>, w: Durable)
    requires Outcome(d, m) && WorkChain(d, writes) && SameOps(d, writes) && w in writes
    ensures SuccessesBacked(w) && SameEvidence(d, w)
  {
    hide WorkChain, EnginesFit, Backed;
    var n :| 0 <= n < |writes| && writes[n] == w;
    ChainSameEvidence(d, writes, n);
    CreditedIsBacked(d, m, w);
  }

  lemma JobOutcomeStep(c: Config, d: Durable, m: Mem, now: Time, l: JobLabel)
    requires EvidenceInv(d, m) && JobEnabled(d, m, l) && Outcome(d, m)
    requires WorkChain(d, PerformJob(c, d, m, now, l).writes)
    ensures OutcomeAfter(d, PerformJob(c, d, m, now, l))
  {
    var s := PerformJob(c, d, m, now, l);
    JobsLeaveOps(c, d, m, now, l);
    JobSections(c, d, m, now, l);
    InvRows(d, m);
    hide EvidenceInv, RowsOk, EnginesOk, CallsOk, JobEnabled, PerformJob, EnginesFit, WorkChain, SuccessesBacked,
         SameEvidence, SameOperations;
    forall w | w in s.writes ensures SuccessesBacked(w) && SameEvidence(d, w) { SameOpsBacked(d, m, s.writes, w); }
    SameEvidenceSelf(d);
    EnginesStayFit(d, Last(d, s.writes), m, s.mem);
  }

  lemma SameEvidenceSelf(d: Durable)
    ensures SameEvidence(d, d)
  {}

  lemma EnginesStayFit(d: Durable, w: Durable, m: Mem, m': Mem)
    requires EnginesOk(d, m) && EnginesFit(d, m) && SameEvidence(d, w) && SameOperations(m, m')
    requires forall o | o in d.ops :: o in w.ops && SameOperation(d.ops[o], w.ops[o])
    ensures EnginesFit(w, m')
  {
    hide Backed, EngineOk;
    forall o | o in m'.engines ensures EngineFits(w, m', o) {
      assert EngineFits(d, m, o);
      if m.engines[o].Returned? && m.engines[o].succeeded { SameBacked(d, w, d.ops[o], w.ops[o], m.engines[o].target); }
    }
  }

  /** Only the end of an operation adds a success, and only the one its engine returned. */
  lemma StartCredits(c: Config, d: Durable, m: Mem, now: Time, id: Id, kind: OpKind, p: Project, task: Id, key: string,
          engine: Engine, w: Durable)
    requires id !in d.ops && w in StartOp(c, d, m, now, id, kind, p, task, key, engine).writes
    ensures Credited(d, m, w) && forall o | o in d.ops :: o in w.ops && w.ops[o] == d.ops[o]
  {
    StartAddsOne(c, d, m, now, id, kind, p, task, key, engine, w);
    hide StartOp;
  }

  lemma StartedAddsOne(d1: Durable, d2: Durable, m: Mem, now: Time, k: KeyId, id: Id, row: OpRow, s: Section,
          engine: Engine, w: Durable)
    requires d2.ops == d1.ops && w in OpStarted(d1, d2, m, now, k, id, row, s, engine).writes
    ensures w.ops == d1.ops || w.ops == d1.ops[id := row]
  {
    hide FinishKey, BeginEffect;
    var d3 := d2.(ops := d2.ops[id := row]);
    var d4 := FinishKey(d3, k, Completed, OpRef(id), now);
    assert w in {d1, d2, d3, d4, BeginEffect(d4, k)};
  }

  lemma RefusedAddsNone(d1: Durable, d2: Durable, m: Mem, k: KeyId, p: Project, owner: Owner, now: Time, w: Durable)
    requires d2.ops == d1.ops
             && (w in RowRefused(d1, d2, m, k, p, owner, now).writes || w in LeaseRefused(d1, m, k, now).writes)
    ensures w.ops == d1.ops
  {
    hide FinishKey, ReleaseLease;
  }

  lemma StartAddsOne(c: Config, d: Durable, m: Mem, now: Time, id: Id, kind: OpKind, p: Project, task: Id, key: string,
          engine: Engine, w: Durable)
    requires w in StartOp(c, d, m, now, id, kind, p, task, key, engine).writes
    ensures w.ops == d.ops || w.ops == d.ops[id := OpRow(task, p, kind, OpRunning, false)]
  {
    hide RequireReplayable, TakeLease, BeginKey, OpStarted, RowRefused, LeaseRefused;
    var k, owner := KeyId(OpScope(kind, p), key), SectionOwner(m.instance, id);
    var d1 := BeginKey(d, k, OpPrint(kind, p, task), now);
    var leased := TakeLease(d1, p, "persistent-" + KindText(kind), owner, c.opTtl, now);
    if leased.None? {
      RefusedAddsNone(d1, d1, m, k, p, owner, now, w);
    } else if !Referenced(d, p, task) {
      RefusedAddsNone(d1, leased.value, m, k, p, owner, now, w);
    } else {
      StartedAddsOne(d1, leased.value, m, now, k, id, OpRow(task, p, kind, OpRunning, false),
          Section(p, owner, c.opTtl, now, Operation), engine, w);
    }
  }

  lemma FinishCredits(d: Durable, m: Mem, o: Id, w: Durable)
    requires o in m.sections && o in m.engines && m.engines[o].Returned? && o in d.ops && w in FinishOp(d, m, o).writes
    ensures Credited(d, m, w) && w.ops.Keys == d.ops.Keys && forall q | q in d.ops && q != o :: w.ops[q] == d.ops[q]
  {
    hide ReleaseLease;
  }

  lemma OtherCredits(c: Config, d: Durable, m: Mem, now: Time, l: OpLabel, w: Durable)
    requires OpEnabled(d, m, l) && !l.StartOperation? && !l.FinishOperation? && w in PerformOp(c, d, m, now, l).writes
    ensures Credited(d, m, w)
    ensures forall o | o in d.ops :: o in w.ops && w.ops[o] == d.ops[o].(cancelRequested := w.ops[o].cancelRequested)
  {
    hide KeyTable.Renew, CancelReplyFor;
  }

  /** A start whose row is in adds an engine that fits it. */
  lemma StartFits(c: Config, d: Durable, m: Mem, now: Time, id: Id, kind: OpKind, p: Project, task: Id, key: string,
          plan: Id)
    requires id !in d.ops && (kind.Rollback? ==> ToolPlan(d, p, task, plan))
    ensures var s := StartOp(c, d, m, now, id, kind, p, task, key, EngineFor(kind, task, plan));
            || s.mem == m
            || (&& s.mem == m.(sections := s.mem.sections, engines := m.engines[id := EngineFor(kind, task, plan)])
                && id in s.mem.sections && s.mem.sections == m.sections[id := s.mem.sections[id]]
                && EngineFits(Last(d, s.writes), s.mem, id))
  {
    hide RequireReplayable, TakeLease, BeginKey, FinishKey, ReleaseLease, EngineFor, Fits, ToolPlan;
    var s := StartOp(c, d, m, now, id, kind, p, task, key, EngineFor(kind, task, plan));
    if s.mem != m {
      assert Last(d, s.writes).plans == d.plans && id in Last(d, s.writes).ops;
      assert Last(d, s.writes).ops[id] == OpRow(task, p, kind, OpRunning, false);
      NewEngineFits(d, Last(d, s.writes), kind, p, task, plan);
    }
  }

  lemma NewEngineFits(d: Durable, w: Durable, kind: OpKind, p: Project, task: Id, plan: Id)
    requires (kind.Rollback? ==> ToolPlan(d, p, task, plan)) && w.plans == d.plans
    ensures Fits(w, OpRow(task, p, kind, OpRunning, false), EngineFor(kind, task, plan))
  {}

  lemma StartWritesBacked(c: Config, d: Durable, m: Mem, now: Time, id: Id, kind: OpKind, p: Project, task: Id,
          key: string, engine: Engine, w: Durable)
    requires id !in d.ops && Outcome(d, m) && WorkChain(d, StartOp(c, d, m, now, id, kind, p, task, key, engine).writes)
    requires w in StartOp(c, d, m, now, id, kind, p, task, key, engine).writes
    ensures SuccessesBacked(w) && SameEvidence(d, w) && forall o | o in d.ops :: o in w.ops && w.ops[o] == d.ops[o]
  {
    StartCredits(c, d, m, now, id, kind, p, task, key, engine, w);
    hide WorkChain, StartOp, Outcome, SuccessesBacked, Credited;
    var writes := StartOp(c, d, m, now, id, kind, p, task, key, engine).writes;
    var n :| 0 <= n < |writes| && writes[n] == w;
    ChainSameEvidence(d, writes, n);
    CreditedIsBacked(d, m, w);
  }

  lemma StartKeepsOutcome(c: Config, d: Durable, m: Mem, now: Time, id: Id, kind: OpKind, p: Project, task: Id,
          key: string, plan: Id)
    requires EnginesOk(d, m) && id !in d.ops && Outcome(d, m) && (kind.Rollback? ==> ToolPlan(d, p, task, plan))
    requires WorkChain(d, StartOp(c, d, m, now, id, kind, p, task, key, EngineFor(kind, task, plan)).writes)
    ensures OutcomeAfter(d, StartOp(c, d, m, now, id, kind, p, task, key, EngineFor(kind, task, plan)))
  {
    var e := EngineFor(kind, task, plan);
    var s := StartOp(c, d, m, now, id, kind, p, task, key, e);
    StartFits(c, d, m, now, id, kind, p, task, key, plan);
    SameMem(m);
    hide StartOp, EngineFor, WorkChain, Fits, SameEvidence, SuccessesBacked, EnginesOk, SameOperations;
    forall w | w in s.writes ensures SuccessesBacked(w) {
      StartWritesBacked(c, d, m, now, id, kind, p, task, key, e, w);
    }
    var w := Last(d, s.writes);
    if s.writes != [] {
      StartWritesBacked(c, d, m, now, id, kind, p, task, key, e, w);
      EnginesStayFit(d, w, m, m);
    }
    if s.mem != m { OneMoreFits(w, m, s.mem, id, e); }
  }

  lemma OneMoreFits(w: Durable, m: Mem, m': Mem, id: Id, e: Engine)
    requires EnginesFit(w, m) && m'.engines == m.engines[id := e] && EngineFits(w, m', id)
    requires id in m'.sections && m'.sections == m.sections[id := m'.sections[id]]
    ensures EnginesFit(w, m')
  {
    hide Fits;
    forall o | o in m'.engines ensures EngineFits(w, m', o) {
      if o != id { assert EngineFits(w, m, o); }
    }
  }

  lemma OthersFit(d: Durable, w: Durable, m: Mem, m': Mem, o: Id)
    requires EnginesFit(d, m) && SameEvidence(d, w)
    requires m'.engines == m.engines - {o} && m'.sections == m.sections - {o}
    requires forall q | q in d.ops && q != o :: q in w.ops && w.ops[q] == d.ops[q]
    ensures EnginesFit(w, m')
  {
    hide Backed;
    forall q | q in m'.engines ensures EngineFits(w, m', q) {
      assert EngineFits(d, m, q);
      if m.engines[q].Returned? && m.engines[q].succeeded { SameBacked(d, w, d.ops[q], w.ops[q], m.engines[q].target); }
    }
  }

  lemma FinishKeepsOutcome(d: Durable, m: Mem, o: Id)
    requires EnginesOk(d, m) && o in m.sections && o in m.engines && m.engines[o].Returned? && o in d.ops
             && Outcome(d, m)
    requires WorkChain(d, FinishOp(d, m, o).writes)
    ensures OutcomeAfter(d, FinishOp(d, m, o))
  {
    var s := FinishOp(d, m, o);
    var w := Last(d, s.writes);
    forall w | w in s.writes ensures SuccessesBacked(w) && SameEvidence(d, w) {
      var n :| 0 <= n < |s.writes| && s.writes[n] == w;
      ChainSameEvidence(d, s.writes, n);
      FinishCredits(d, m, o, w);
      CreditedIsBacked(d, m, w);
    }
    FinishCredits(d, m, o, w);
    assert s.mem.engines == m.engines - {o} && s.mem.sections == m.sections - {o};
    assert s.writes != [] && w in s.writes;
    hide FinishOp, WorkChain, SuccessesBacked, EnginesOk;
    OthersFit(d, w, m, s.mem, o);
  }

  lemma OpOutcomeStep(c: Config, d: Durable, m: Mem, now: Time, l: OpLabel)
    requires EnginesOk(d, m) && OpEnabled(d, m, l) && Outcome(d, m) && WorkChain(d, PerformOp(c, d, m, now, l).writes)
    ensures OutcomeAfter(d, PerformOp(c, d, m, now, l))
  {
    match l
    case StartOperation(id, kind, p, t, key, plan) =>
      StartKeepsOutcome(c, d, m, now, id, kind, p, t, key, plan);
      hide StartOp, OutcomeAfter, WorkChain, Outcome, EnginesOk;
    case FinishOperation(o) =>
      FinishKeepsOutcome(d, m, o);
      hide FinishOp, OutcomeAfter, WorkChain, Outcome, EnginesOk;
    case _ =>
      hide PerformOp, OpEnabled, OutcomeAfter, WorkChain, Outcome, EnginesOk;
      OtherKeepsOutcome(c, d, m, now, l);
  }

  lemma OtherKeepsOutcome(c: Config, d: Durable, m: Mem, now: Time, l: OpLabel)
    requires EnginesOk(d, m) && OpEnabled(d, m, l) && Outcome(d, m) && WorkChain(d, PerformOp(c, d, m, now, l).writes)
    requires !l.StartOperation? && !l.FinishOperation?
    ensures OutcomeAfter(d, PerformOp(c, d, m, now, l))
  {
    hide PerformOp, OpEnabled, WorkChain, SuccessesBacked, EnginesOk, SameOperations, EngineFits, Credited;
    var s := PerformOp(c, d, m, now, l);
    OpSections(c, d, m, now, l);
    forall w | w in s.writes ensures SuccessesBacked(w) && SameEvidence(d, w) {
      var n :| 0 <= n < |s.writes| && s.writes[n] == w;
      ChainSameEvidence(d, s.writes, n);
      OtherCredits(c, d, m, now, l, w);
      CreditedIsBacked(d, m, w);
    }
    hide SameEvidence;
    var w := Last(d, s.writes);
    if s.writes == [] {
      SameStore(d);
    } else {
      OtherCredits(c, d, m, now, l, w);
    }
    EnginesStayFit(d, w, m, s.mem);
  }

  lemma SameStore(d: Durable)
    ensures SameEvidence(d, d)
  {}
}
