/** UNKNOWN work is never resolved: a task whose work the restart found UNKNOWN never runs,
    deploys, pauses, completes or cancels again. */
module UnknownInvariant {
  import opened Prelude
  import opened KeyTable
  import opened Store
  import opened Runtime
  import opened Engines
  import opened Agent
  import opened Frame
  import opened Evidence
  import opened Workflow
  import opened EngineInvariant
  import opened WorkHistory

  /** Where a task with UNKNOWN work can still be. */
  predicate Confined(s: TaskStatus) {
    s in {RECOVERY_REQUIRED, RECOVERING, WAITING_FOR_USER, ROLLBACK_REQUIRED, ROLLING_BACK, HEALTH_CHECKING, FAILED,
        ROLLED_BACK}
  }

  ghost predicate Found(d: Durable, t: Id) { t in d.tasks && UnknownWork(d, t) && Confined(d.tasks[t].status) }

  ghost predicate AllFound(d: Durable) {
    forall t | t in d.tasks && UnknownWork(d, t) && !Terminal(d.tasks[t].status) :: Confined(d.tasks[t].status)
  }

  /** The foreign keys of work rows. */
  ghost predicate WorkRefs(d: Durable) {
    && (forall o | o in d.ops :: d.ops[o].task in d.tasks)
    && (forall j | j in d.jobs && d.jobs[j].attached.Some? :: d.jobs[j].attached.value in d.tasks)
  }

  ghost predicate NoneDeploying(d: Durable, engines: map<Id, Engine>) {
    forall o | o in engines && engines[o].Deploying? :: !UnknownWork(d, engines[o].task)
  }

  ghost predicate NoneCancelling(d: Durable, cancelling: map<Id, Cancelling>) {
    forall a | a in cancelling :: !UnknownOp(d.ops, cancelling[a].task)
  }

  ghost predicate UnknownInv(d: Durable, m: Mem) {
    WorkRefs(d) && AllFound(d) && NoneDeploying(d, m.engines) && NoneCancelling(d, m.cancelling)
  }

  // ---------------------------------------------------------------- engine stretches

  /** Along a chain of writes that may not settle it, a task found stays where it may be. */
  lemma {:induction false} ChainConfines(d: Durable, ws: seq<Durable>, n: nat, reach: Reach, t: Id)
    requires RowsOk(d) && Chain(d, ws, reach) && SameWorkAll(d, ws) && n < |ws| && Found(d, t) && t !in reach.done
    ensures Found(ws[n], t)
    decreases n
  {
    hide RowsOk, Kept, UnknownWork, BlockingWork, TaskEdge, Chain;
    var w := Before(d, ws, n);
    ChainAt(d, ws, n, reach);
    assert ws[n] in ws && (n > 0 ==> w in ws);
    assert UnknownWork(w, t) && UnknownWork(ws[n], t) && BlockingWork(w, t) by {
      UnknownBlocks(d, w, t);
      UnknownBlocks(d, ws[n], t);
    }
    if n > 0 { ChainConfines(d, ws, n - 1, reach, t); }
    EdgeConfines(w, t, ws[n].tasks[t].status);
  }

  lemma UnknownBlocks(d: Durable, w: Durable, t: Id)
    requires UnknownWork(d, t) && w.ops == d.ops && w.jobs == d.jobs
    ensures UnknownWork(w, t) && BlockingWork(w, t)
  {}

  lemma EdgeConfines(d: Durable, t: Id, s: TaskStatus)
    requires Found(d, t) && BlockingWork(d, t) && TaskEdge(d, t, d.tasks[t].status, s)
             && (Settled(s) ==> s == d.tasks[t].status)
    ensures Confined(s)
  {
    hide UnknownWork, BlockingWork, ResumeVerified;
  }

  lemma {:induction false} ChainKeepsTerminal(d: Durable, ws: seq<Durable>, n: nat, reach: Reach, t: Id)
    requires Chain(d, ws, reach) && n < |ws| && t in d.tasks && Terminal(d.tasks[t].status)
    ensures t in ws[n].tasks && ws[n].tasks[t].status == d.tasks[t].status
    decreases n
  {
    hide RowsOk, Kept, UnknownWork, BlockingWork, ResumeVerified, Chain;
    ChainAt(d, ws, n, reach);
    if n > 0 { ChainKeepsTerminal(d, ws, n - 1, reach, t); }
  }

  lemma {:induction false} ChainKeepsTasks(d: Durable, ws: seq<Durable>, n: nat, reach: Reach, t: Id)
    requires Chain(d, ws, reach) && n < |ws| && t in d.tasks
    ensures t in ws[n].tasks
    decreases n
  {
    hide RowsOk, TasksMove, SameDeployments, SamePlans, SameCommands, SameDeployStatus, Chain;
    ChainAt(d, ws, n, reach);
    if n > 0 { ChainKeepsTasks(d, ws, n - 1, reach, t); }
  }

  /** What a stretch may settle never has UNKNOWN work, or the stretch writes nothing. */
  lemma SettlesNoUnknown(c: Config, d: Durable, m: Mem, now: Time, l: Label, t: Id)
    requires UnknownInv(d, m) && Enabled(d, m, l) && EngineLabel(l) && t in ReachOf(m, l).done
    ensures UnknownWork(d, t) ==> Perform(c, d, m, now, l).writes == []
  {
    if UnknownOp(d.ops, t) { UnknownOpBlocks(d.ops, t); }
    hide WorkRefs, AllFound, SetStatus, UnknownOp, UnknownJob, BlockingOp;
  }

  lemma EngineConfines(c: Config, d: Durable, m: Mem, now: Time, l: Label, n: nat, t: Id)
    requires RowsOk(d) && UnknownInv(d, m) && Enabled(d, m, l) && EngineLabel(l) && Found(d, t)
    requires Chain(d, Perform(c, d, m, now, l).writes, ReachOf(m, l)) && n < |Perform(c, d, m, now, l).writes|
    ensures Found(Perform(c, d, m, now, l).writes[n], t)
  {
    if t in ReachOf(m, l).done { SettlesNoUnknown(c, d, m, now, l, t); }
    ChainSameWork(d, Perform(c, d, m, now, l).writes, ReachOf(m, l));
    hide RowsOk, UnknownInv, Enabled, Chain, ReachOf, Found, Perform;
    ChainConfines(d, Perform(c, d, m, now, l).writes, n, ReachOf(m, l), t);
  }

  // ---------------------------------------------------------------- memory after an engine stretch

  /** Deploying engines afterwards: those of before, or one whose task has no UNKNOWN work. */
  ghost predicate DeployingFrom(d: Durable, engines: map<Id, Engine>, engines': map<Id, Engine>) {
    forall o | o in engines' && engines'[o].Deploying? ::
      (o in engines && engines[o].Deploying? && engines[o].task == engines'[o].task)
        || !UnknownWork(d, engines'[o].task)
  }

  lemma RecordsWithoutUnknown(d: Durable, m: Mem, o: Id, dep: Id, setup: Project_, before: Option<Commit>,
          migration: Migration.Raw, validation: Option<bool>)
    requires AllFound(d) && o in m.engines && m.engines[o].Precheck? && m.engines[o].task in d.tasks
    ensures DeployingFrom(d, m.engines, DeployRecord(d, m, o, dep, setup, before, migration, validation).mem.engines)
  {
    hide UnknownWork, AllFound, DeployRecord;
    RecordedEngine(d, m, o, dep, setup, before, migration, validation);
    if UnknownWork(d, m.engines[o].task) {
      RefusedRecord(d, m, o, dep, setup, before, migration, validation);
    }
  }

  /** A task with UNKNOWN work cannot become DEPLOYING. */
  lemma RefusedRecord(d: Durable, m: Mem, o: Id, dep: Id, setup: Project_, before: Option<Commit>,
          migration: Migration.Raw, validation: Option<bool>)
    requires AllFound(d) && o in m.engines && m.engines[o].Precheck? && m.engines[o].task in d.tasks
             && UnknownWork(d, m.engines[o].task)
    ensures Ends(m, DeployRecord(d, m, o, dep, setup, before, migration, validation).mem, o)
  {
    var status := d.tasks[m.engines[o].task].status;
    assert Confined(status) || Terminal(status);
    hide UnknownWork, AllFound, DeployFail;
    assert DEPLOYING !in Allowed(status) && status != DEPLOYING;
  }

  lemma DeploysFrom(d: Durable, m: Mem, l: DeployLabel)
    requires AllFound(d) && DeployEnabled(d, m, l)
    ensures DeployingFrom(d, m.engines, PerformDeploy(d, m, l).mem.engines)
            && PerformDeploy(d, m, l).mem.cancelling == m.cancelling
  {
    hide AllFound, UnknownWork, SetStatus, DeployFail;
    match l
    case RecordDeploy(o, dep, setup, before, migration, validation) =>
      RecordsWithoutUnknown(d, m, o, dep, setup, before, migration, validation);
      RecordedEngine(d, m, o, dep, setup, before, migration, validation);
      hide DeployingFrom, DeployRecord;
    case DeployHealthIs(o, health) =>
      FinishedEngine(d, m, o, health);
      hide DeployFinish;
    case _ =>
  }

  /** A rollback stretch leaves every other call alone and its own neither deploying nor assessing. */
  ghost predicate RollsOn(m: Mem, m': Mem, o: Id) {
    m'.cancelling == m.cancelling && m'.direct == m.direct
    && exists e: Engine :: !e.Deploying? && !e.Assessing? && m'.engines == m.engines[o := e]
  }

  lemma RollStretchRollsOn(d: Durable, m: Mem, l: RollLabel)
    requires RollEnabled(d, m, l) && !l.BeginPlan? && !l.CommitPlan?
    ensures RollsOn(m, PerformRoll(d, m, l).mem, l.op)
  {
    hide SetStatus, RollFail, CheckPasses, RollsOn;
    match l {
      case OpenRollback(o, setup) => EitherWay(m, RollOpen(d, m, o, setup).mem, o, Checking(m.engines[o].plan, setup));
      case RunRollback(o, check) =>
        RunEngine(d, m, o, check);
        hide RollRun, EngineOk;
        EitherWay(m, RollRun(d, m, o, check).mem, o, RollingBack(m.engines[o].plan, check.setup, RollActing));
      case FailRollback(o) => EitherWay(m, RollError(d, m, o).mem, o, Returned(true));
      case RolledTo(o, clean, head) =>
        EitherWay(m, RollActed(d, m, o, clean, head).mem, o, m.engines[o].(rollStage := Verifying(clean, head)));
      case RollServiceIs(o, active) => ServiceRollsOn(d, m, o, active);
      case RollHealthIs(o, health) =>
        var e := m.engines[o];
        DoneEngine(d, m, o,
            PlanResult(e.rollStage.clean, e.setup, e.rollStage.head, e.rollStage.service, Some(health)));
        hide RollDone;
        EitherWay(m, RollFinish(d, m, o, health).mem, o, Returned(true));
    }
  }

  lemma ServiceRollsOn(d: Durable, m: Mem, o: Id, active: Option<bool>)
    requires RollAt(d, m, o) && m.engines[o].rollStage.Verifying?
    ensures RollsOn(m, RollService(d, m, o, active).mem, o)
  {
    hide SetStatus, RollFail, RollsOn;
    var e := m.engines[o];
    DoneEngine(d, m, o, PlanResult(e.rollStage.clean, e.setup, e.rollStage.head, active, None));
    hide RollDone;
    if (e.setup.service && active != Some(true)) || !e.setup.health {
      EitherWay(m, RollService(d, m, o, active).mem, o, Returned(true));
    } else {
      EitherWay(m, RollService(d, m, o, active).mem, o,
          e.(rollStage := RollHealth(e.rollStage.clean, e.rollStage.head, active)));
    }
  }

  lemma Becomes(m: Mem, m': Mem, o: Id, e: Engine)
    requires m' == At(m, o, e) && !e.Deploying? && !e.Assessing?
    ensures RollsOn(m, m', o)
  {}

  lemma EitherWay(m: Mem, m': Mem, o: Id, e: Engine)
    requires (Ends(m, m', o) || m' == At(m, o, e)) && !e.Deploying? && !e.Assessing?
    ensures RollsOn(m, m', o)
  {
    if m' == At(m, o, e) { Becomes(m, m', o, e); } else { Becomes(m, m', o, m'.engines[o]); }
  }

  lemma RollsFrom(d: Durable, m: Mem, l: RollLabel)
    requires RollEnabled(d, m, l)
    ensures DeployingFrom(d, m.engines, PerformRoll(d, m, l).mem.engines)
            && PerformRoll(d, m, l).mem.cancelling == m.cancelling
  {
    hide UnknownWork, RollRun, RollService, RollFinish, RollError, RollActed, RollOpen;
    if !l.BeginPlan? && !l.CommitPlan? { RollStretchRollsOn(d, m, l); }
  }

  lemma AssessesFrom(c: Config, d: Durable, m: Mem, now: Time, l: AssessLabel)
    requires AssessEnabled(d, m, l)
    ensures DeployingFrom(d, m.engines, PerformAssess(c, d, m, now, l).mem.engines)
            && PerformAssess(c, d, m, now, l).mem.cancelling == m.cancelling
  {
    hide UnknownWork, AssessOpen, AssessClose;
  }

  lemma TasksFrom(d: Durable, m: Mem, l: TaskLabel)
    requires TaskEnabled(d, m, l) && NoneCancelling(d, m.cancelling)
    ensures DeployingFrom(d, m.engines, PerformTask(d, m, l).mem.engines)
            && NoneCancelling(d, PerformTask(d, m, l).mem.cancelling)
  {
    hide UnknownWork, MayResume, BlockingWork, SetStatus, UnknownJob, UnknownOp;
  }

  lemma CallsFrom(c: Config, d: Durable, m: Mem, now: Time, l: Label)
    requires UnknownInv(d, m) && Enabled(d, m, l) && EngineLabel(l)
    ensures var m' := Perform(c, d, m, now, l).mem; NoneDeploying(d, m'.engines) && NoneCancelling(d, m'.cancelling)
  {
    hide AllFound, WorkRefs, UnknownWork, TaskEnabled, DeployEnabled, RollEnabled, AssessEnabled, PerformTask,
         PerformDeploy, PerformRoll, PerformAssess;
    match l
    case OnTask(t) => TasksFrom(d, m, t);
    case OnDeploy(e) => DeploysFrom(d, m, e);
    case OnRoll(r) => RollsFrom(d, m, r);
    case OnAssess(a) => AssessesFrom(c, d, m, now, a);
  }

  lemma SameUnknownCalls(d: Durable, w: Durable, m: Mem)
    requires w.ops == d.ops && w.jobs == d.jobs && NoneDeploying(d, m.engines) && NoneCancelling(d, m.cancelling)
    ensures NoneDeploying(w, m.engines) && NoneCancelling(w, m.cancelling)
  {
    hide UnknownOp, UnknownJob;
  }

  lemma EngineFinds(c: Config, d: Durable, m: Mem, now: Time, l: Label, n: nat)
    requires RowsOk(d) && UnknownInv(d, m) && Enabled(d, m, l) && EngineLabel(l)
    requires Chain(d, Perform(c, d, m, now, l).writes, ReachOf(m, l)) && n < |Perform(c, d, m, now, l).writes|
    ensures var w := Perform(c, d, m, now, l).writes[n]; WorkRefs(w) && AllFound(w)
  {
    var ws := Perform(c, d, m, now, l).writes;
    var w := ws[n];
    ChainSameWork(d, ws, ReachOf(m, l));
    assert w in ws && SameWork(d, w);
    hide SameWorkAll, Enabled, Perform, RowsOk, ReachOf, Confined, Chain;
    forall t | t in d.tasks
      ensures t in w.tasks && (Terminal(d.tasks[t].status) ==> w.tasks[t].status == d.tasks[t].status)
    {
      ChainKeepsTasks(d, ws, n, ReachOf(m, l), t);
      if Terminal(d.tasks[t].status) { ChainKeepsTerminal(d, ws, n, ReachOf(m, l), t); }
    }
    forall t | Found(d, t) ensures Found(w, t) { EngineConfines(c, d, m, now, l, n, t); }
    hide UnknownInv;
    StillFound(d, w);
  }

  lemma StillFound(d: Durable, w: Durable)
    requires WorkRefs(d) && AllFound(d) && w.ops == d.ops && w.jobs == d.jobs
    requires forall t | t in d.tasks ::
               t in w.tasks && (Terminal(d.tasks[t].status) ==> w.tasks[t].status == d.tasks[t].status)
    requires forall t | Found(d, t) :: Found(w, t)
    ensures WorkRefs(w) && AllFound(w)
  {
    hide UnknownWork, Confined;
    forall t | t in w.tasks && UnknownWork(w, t) && !Terminal(w.tasks[t].status) ensures Confined(w.tasks[t].status) {
      assert UnknownWork(d, t) by { SameWorkUnknown(d, w, t); }
      KnownTask(d, t);
      assert Found(d, t) && Found(w, t);
    }
  }

  lemma SameWorkUnknown(d: Durable, w: Durable, t: Id)
    requires w.ops == d.ops && w.jobs == d.jobs
    ensures UnknownWork(w, t) == UnknownWork(d, t)
  {}

  lemma KnownTask(d: Durable, t: Id)
    requires WorkRefs(d) && UnknownWork(d, t)
    ensures t in d.tasks
  {}

  // ---------------------------------------------------------------- work stretches

  lemma WorkFinds(d: Durable, w: Durable)
    requires WorkRefs(d) && AllFound(d) && WorkMove(d, w)
    ensures WorkRefs(w) && AllFound(w) && forall t | Found(d, t) :: Found(w, t)
  {
    hide UnknownOp, UnknownJob, Confined;
  }

  lemma {:induction false} WorkChainFinds(d: Durable, ws: seq<Durable>, n: nat)
    requires WorkRefs(d) && AllFound(d) && WorkChain(d, ws) && n < |ws|
    ensures WorkRefs(ws[n]) && AllFound(ws[n]) && forall t | Found(d, t) :: Found(ws[n], t)
    decreases n
  {
    hide WorkMove, WorkRefs, AllFound, Found, WorkChain;
    WorkChainAt(d, ws, n);
    if n > 0 { WorkChainFinds(d, ws, n - 1); }
    WorkFinds(Before(d, ws, n), ws[n]);
  }

  /** Afterwards nothing more deploys, and a cancellation begins only without UNKNOWN operations. */
  lemma OpCalls(c: Config, d: Durable, m: Mem, now: Time, l: OpLabel)
    requires OpEnabled(d, m, l) && NoneDeploying(d, m.engines) && NoneCancelling(d, m.cancelling)
    ensures var m' := PerformOp(c, d, m, now, l).mem; NoneDeploying(d, m'.engines) && NoneCancelling(d, m'.cancelling)
  {
    hide UnknownWork, UnknownOp;
    match l
    case StartOperation(id, kind, p, t, key, plan) =>
      StartOpMem(c, d, m, now, id, kind, p, t, key, EngineFor(kind, t, plan));
      hide StartOp;
    case BeginCancel(id, t) =>
      if UnknownOp(d.ops, t) { UnknownOpBlocks(d.ops, t); }
      hide BlockingOp, CancelReplyFor, RunningJob;
    case _ =>
      hide Renew;
  }

  lemma UnknownOpBlocks(ops: map<Id, OpRow>, t: Id)
    requires UnknownOp(ops, t)
    ensures BlockingOp(ops, t)
  {}

  lemma JobCalls(c: Config, d: Durable, m: Mem, now: Time, l: JobLabel)
    requires JobEnabled(d, m, l)
    ensures PerformJob(c, d, m, now, l).mem.engines == m.engines
            && PerformJob(c, d, m, now, l).mem.cancelling == m.cancelling
  {
    hide MayAttach, CancelReplyFor, RequireReplayable, Acquire, BeginKey, FinishKey, ReleaseLease;
  }

  lemma WorkCallsStay(d: Durable, w: Durable, m: Mem)
    requires SameUnknown(d, w) && NoneDeploying(d, m.engines) && NoneCancelling(d, m.cancelling)
    ensures NoneDeploying(w, m.engines) && NoneCancelling(w, m.cancelling)
  {
    hide UnknownOp, UnknownJob;
  }

  // ---------------------------------------------------------------- every stretch

  ghost predicate Remains(d: Durable, w: Durable) {
    WorkRefs(w) && AllFound(w) && forall t | Found(d, t) :: Found(w, t)
  }

  ghost predicate UnknownAfter(d: Durable, s: Stretch) {
    UnknownInv(Last(d, s.writes), s.mem) && forall n | 0 <= n < |s.writes| :: Remains(d, s.writes[n])
  }

  lemma UnknownParts(d: Durable, m: Mem)
    requires UnknownInv(d, m)
    ensures WorkRefs(d) && AllFound(d) && NoneDeploying(d, m.engines) && NoneCancelling(d, m.cancelling)
  {
    hide WorkRefs, AllFound, NoneDeploying, NoneCancelling;
  }

  lemma UnknownTogether(d: Durable, s: Stretch)
    requires WorkRefs(d) && AllFound(d) && forall n | 0 <= n < |s.writes| :: Remains(d, s.writes[n])
    requires NoneDeploying(Last(d, s.writes), s.mem.engines) && NoneCancelling(Last(d, s.writes), s.mem.cancelling)
    ensures UnknownAfter(d, s)
  {
    hide WorkRefs, AllFound, NoneDeploying, NoneCancelling, Found;
    if s.writes != [] { assert Remains(d, s.writes[|s.writes| - 1]); }
  }

  lemma WorkLabelCalls(c: Config, d: Durable, m: Mem, now: Time, l: Label)
    requires Enabled(d, m, l) && !EngineLabel(l) && NoneDeploying(d, m.engines) && NoneCancelling(d, m.cancelling)
    ensures var m' := Perform(c, d, m, now, l).mem; NoneDeploying(d, m'.engines) && NoneCancelling(d, m'.cancelling)
  {
    hide PerformOp, PerformJob, OpEnabled, JobEnabled, NoneDeploying, NoneCancelling;
    match l
    case OnOp(o) => OpCalls(c, d, m, now, o);
    case OnJob(j) => JobCalls(c, d, m, now, j);
  }

  lemma EngineStretchUnknown(c: Config, d: Durable, m: Mem, now: Time, l: Label)
    requires RowsOk(d) && UnknownInv(d, m) && Enabled(d, m, l) && EngineLabel(l)
    requires Chain(d, Perform(c, d, m, now, l).writes, ReachOf(m, l))
    ensures UnknownAfter(d, Perform(c, d, m, now, l))
  {
    var s := Perform(c, d, m, now, l);
    ChainSameWork(d, s.writes, ReachOf(m, l));
    CallsFrom(c, d, m, now, l);
    UnknownParts(d, m);
    hide Enabled, Perform, Chain, RowsOk, ReachOf, UnknownInv, WorkRefs, AllFound, NoneDeploying, NoneCancelling, Found,
         SameWork;
    forall n | 0 <= n < |s.writes| ensures Remains(d, s.writes[n]) {
      EngineFinds(c, d, m, now, l, n);
      forall t | Found(d, t) ensures Found(s.writes[n], t) { EngineConfines(c, d, m, now, l, n, t); }
    }
    hide Remains;
    if s.writes != [] { LastSameCalls(d, s); }
    UnknownTogether(d, s);
  }

  lemma LastSameCalls(d: Durable, s: Stretch)
    requires s.writes != [] && SameWorkAll(d, s.writes) && NoneDeploying(d, s.mem.engines)
             && NoneCancelling(d, s.mem.cancelling)
    ensures NoneDeploying(Last(d, s.writes), s.mem.engines) && NoneCancelling(Last(d, s.writes), s.mem.cancelling)
  {
    hide NoneDeploying, NoneCancelling;
    assert SameWork(d, Last(d, s.writes));
    SameUnknownCalls(d, Last(d, s.writes), s.mem);
  }

  lemma WorkStretchUnknown(c: Config, d: Durable, m: Mem, now: Time, l: Label)
    requires UnknownInv(d, m) && Enabled(d, m, l) && !EngineLabel(l) && WorkChain(d, Perform(c, d, m, now, l).writes)
    ensures UnknownAfter(d, Perform(c, d, m, now, l))
  {
    var s := Perform(c, d, m, now, l);
    UnknownParts(d, m);
    WorkLabelCalls(c, d, m, now, l);
    hide *;
    forall n | 0 <= n < |s.writes| ensures Remains(d, s.writes[n]) {
      WorkChainFinds(d, s.writes, n);
      RemainsIs(d, s.writes[n]);
    }
    LastWorkCalls(d, s);
    UnknownTogether(d, s);
  }

  lemma RemainsIs(d: Durable, w: Durable)
    requires WorkRefs(w) && AllFound(w) && forall t | Found(d, t) :: Found(w, t)
    ensures Remains(d, w)
  {
    hide WorkRefs, AllFound, Found;
  }

  lemma LastWorkCalls(d: Durable, s: Stretch)
    requires WorkChain(d, s.writes) && NoneDeploying(d, s.mem.engines) && NoneCancelling(d, s.mem.cancelling)
    ensures NoneDeploying(Last(d, s.writes), s.mem.engines) && NoneCancelling(Last(d, s.writes), s.mem.cancelling)
  {
    hide NoneDeploying, NoneCancelling, WorkChain, SameUnknown;
    if s.writes != [] {
      ChainSameEvidence(d, s.writes, |s.writes| - 1);
      WorkCallsStay(d, Last(d, s.writes), s.mem);
    }
  }
}
