/** What every suspended workflow call relies on holds when it resumes, whatever ran meanwhile. */
module EngineInvariant {
  import opened Prelude
  import opened KeyTable
  import opened Store
  import opened Runtime
  import opened Engines
  import opened Agent
  import opened Frame
  import opened Evidence
  import opened Workflow
  import opened LeaseInvariant

  // ---------------------------------------------------------------- the invariant

  ghost predicate EnginesOk(d: Durable, m: Mem) {
    && (forall o | o in m.engines :: o in m.sections && m.sections[o].stage.Operation?
         && EngineOk(d, m.sections[o].project, m.engines[o]))
    && (forall o | o in m.sections && m.sections[o].stage.Operation? :: o in m.engines)
    && Apart(m.engines)
  }

  /** No two operations work on one deployment row. */
  ghost predicate Apart(engines: map<Id, Engine>) {
    forall o, q | o in engines && q in engines && engines[o].Deploying? && engines[q].Deploying?
      && engines[o].deployment == engines[q].deployment :: o == q
  }

  ghost predicate CallsOk(d: Durable, m: Mem) {
    && (forall a | a in m.drafts :: DraftOk(d, m.drafts[a]))
    && (forall a | a in m.direct :: m.direct[a].task in d.tasks)
  }

  ghost predicate EvidenceInv(d: Durable, m: Mem) { RowsOk(d) && EnginesOk(d, m) && CallsOk(d, m) }

  /** What a stretch may settle or move, read off its label. */
  ghost function ReachOf(m: Mem, l: Label): Reach {
    match l
    case OnTask(CancelTask(t)) => Reach({t}, {}, {})
    case OnTask(EndCancel(id)) => if id in m.cancelling then Reach({m.cancelling[id].task}, {}, {}) else NOTHING
    case OnDeploy(e) => DeployReach(m, e)
    case OnRoll(r) => RollReach(m, r)
    case OnAssess(EndAssess(o, _)) =>
      if o in m.engines && m.engines[o].Assessing? then Reach({}, {}, {}, {m.engines[o].task}) else NOTHING
    case OnAssess(EndDirect(id, _)) => if id in m.direct then Reach({}, {}, {}, {m.direct[id].task}) else NOTHING
    case _ => NOTHING
  }

  ghost function DeployReach(m: Mem, l: DeployLabel): Reach {
    if l.RecordDeploy? then Reach({}, {}, {l.drawn})
    else if l.op in m.engines && m.engines[l.op].Deploying? then
      Reach(if l.DeployHealthIs? then {m.engines[l.op].task} else {}, {}, {m.engines[l.op].deployment})
    else NOTHING
  }

  ghost function RollReach(m: Mem, l: RollLabel): Reach {
    if (l.RunRollback? || l.FailRollback? || l.RolledTo? || l.RollServiceIs? || l.RollHealthIs?) && l.op in m.engines
       && (m.engines[l.op].Checking? || m.engines[l.op].RollingBack?)
    then Reach({}, {m.engines[l.op].plan}, {}) else NOTHING
  }

  // ---------------------------------------------------------------- one engine moves, the others stay

  lemma EngineStays(d: Durable, w: Durable, p: Project, e: Engine, reach: Reach)
    requires EngineOk(d, p, e) && Kept(d, w, reach)
    requires e.Checking? ==> e.plan !in reach.plans
    requires e.Deploying? ==> e.deployment !in reach.deployments
    ensures EngineOk(w, p, e)
  {}

  /** No other engine waits on a row in reach. */
  ghost predicate Clear(engines: map<Id, Engine>, o: Id, reach: Reach) {
    forall q | q in engines && q != o ::
      (engines[q].Checking? ==> engines[q].plan !in reach.plans)
        && (engines[q].Deploying? ==> engines[q].deployment !in reach.deployments)
  }

  lemma EngineMoves(d: Durable, w: Durable, m: Mem, o: Id, e: Engine, reach: Reach)
    requires EnginesOk(d, m) && Kept(d, w, reach) && o in m.engines && Clear(m.engines, o, reach)
    requires EngineOk(w, m.sections[o].project, e) && Apart(m.engines[o := e])
    ensures EnginesOk(w, At(m, o, e))
  {
    hide EngineOk, Kept;
    forall q | q in m.engines && q != o ensures EngineOk(w, m.sections[q].project, m.engines[q]) {
      EngineStays(d, w, m.sections[q].project, m.engines[q], reach);
    }
  }

  lemma StillApart(engines: map<Id, Engine>, o: Id, e: Engine)
    requires Apart(engines) && o in engines
    requires e.Deploying? ==>
               (engines[o].Deploying? && e.deployment == engines[o].deployment)
                 || (forall q | q in engines && engines[q].Deploying? :: engines[q].deployment != e.deployment)
    ensures Apart(engines[o := e])
  {}

  /** The deployments a stretch may move have begun, or are new. */
  ghost predicate Begun(d: Durable, reach: Reach) {
    forall r | r in reach.deployments && r in d.deployments :: Began(d.deployments[r])
  }

  lemma CallsStay(d: Durable, w: Durable, m: Mem, reach: Reach)
    requires CallsOk(d, m) && Kept(d, w, reach) && Begun(d, reach)
    ensures CallsOk(w, m)
  {}

  lemma PlanClear(d: Durable, m: Mem, o: Id)
    requires RowsOk(d) && EnginesOk(d, m) && Exclusive(m.sections) && o in m.engines
             && (m.engines[o].Checking? || m.engines[o].RollingBack?)
    ensures Clear(m.engines, o, Reach({}, {m.engines[o].plan}, {}))
  {
    var plan := m.engines[o].plan;
    hide Apart;
    assert EngineOk(d, m.sections[o].project, m.engines[o]);
    assert PlanOk(d.plans[plan], Ran(d.commands, plan), d.tasks, d.deployments);
    forall q | q in m.engines && m.engines[q].Checking? && m.engines[q].plan == plan ensures q == o {
      assert EngineOk(d, m.sections[q].project, m.engines[q]);
    }
  }

  lemma DeployClear(d: Durable, m: Mem, o: Id, done: set<Id>)
    requires EnginesOk(d, m) && o in m.engines && m.engines[o].Deploying?
    ensures Clear(m.engines, o, Reach(done, {}, {m.engines[o].deployment}))
  {
    hide EngineOk;
  }

  lemma NewDeployClear(d: Durable, m: Mem, o: Id, dep: Id)
    requires EnginesOk(d, m) && dep !in d.deployments
    ensures Clear(m.engines, o, Reach({}, {}, {dep}))
    ensures forall q | q in m.engines && m.engines[q].Deploying? :: m.engines[q].deployment != dep
  {
    forall q | q in m.engines && m.engines[q].Deploying? ensures m.engines[q].deployment != dep {
      assert EngineOk(d, m.sections[q].project, m.engines[q]);
    }
  }

  // ---------------------------------------------------------------- where each stretch leaves its engine

  ghost predicate Lawful(d: Durable, m: Mem, s: Stretch, reach: Reach) {
    SameSections(m, s.mem) && Chain(d, s.writes, reach) && EvidenceInv(Last(d, s.writes), s.mem)
  }

  /** The state after a chain of writes that ends with the engine at `e`. */
  lemma ChainThenEngine(d: Durable, m: Mem, s: Stretch, o: Id, e: Engine, reach: Reach)
    requires EvidenceInv(d, m) && o in m.engines && Chain(d, s.writes, reach) && Clear(m.engines, o, reach)
    requires Begun(d, reach)
    requires s.mem == At(m, o, e) && EngineOk(Last(d, s.writes), m.sections[o].project, e) && Apart(m.engines[o := e])
    ensures Lawful(d, m, s, reach)
  {
    hide RowsOk, EnginesOk, CallsOk, Kept, EngineOk, Chain;
    var w := Last(d, s.writes);
    LastKept(d, s.writes, reach);
    EngineMoves(d, w, m, o, e, reach);
    CallsStay(d, w, m, reach);
    SameCalls(w, m, At(m, o, e));
  }

  lemma SameCalls(d: Durable, m: Mem, m': Mem)
    requires CallsOk(d, m) && m'.drafts == m.drafts && m'.direct == m.direct
    ensures CallsOk(d, m')
  {}

  lemma LastKept(d: Durable, ws: seq<Durable>, reach: Reach)
    requires RowsOk(d) && Chain(d, ws, reach)
    ensures RowsOk(Last(d, ws)) && Kept(d, Last(d, ws), reach)
  {
    hide RowsOk, Chain;
    if ws != [] {
      hide Kept;
      ChainKeeps(d, ws, |ws| - 1, reach);
    }
  }

  /** The engine of `o` has returned, whatever it returned; nothing else changed. */
  ghost predicate Ends(m: Mem, m': Mem, o: Id) {
    o in m'.engines && m'.engines[o].Returned? && m' == At(m, o, m'.engines[o])
  }

  lemma ReturnedEngine(d: Durable, m: Mem, s: Stretch, o: Id, reach: Reach)
    requires EvidenceInv(d, m) && o in m.engines && Chain(d, s.writes, reach) && Clear(m.engines, o, reach)
             && Ends(m, s.mem, o)
    requires Begun(d, reach)
    ensures Lawful(d, m, s, reach)
  {
    var e := s.mem.engines[o];
    hide RowsOk, CallsOk, Kept, Chain;
    StillApart(m.engines, o, e);
    hide EnginesOk, EvidenceInv, Apart;
    ChainThenEngine(d, m, s, o, e, reach);
  }

  lemma RecordDeployOk(d: Durable, m: Mem, o: Id, dep: Id, setup: Project_, before: Option<Commit>,
          migration: Migration.Raw, validation: Option<bool>)
    requires EvidenceInv(d, m) && dep !in d.deployments && o in m.engines && m.engines[o].Precheck?
             && m.engines[o].task in d.tasks
    ensures Lawful(d, m, DeployRecord(d, m, o, dep, setup, before, migration, validation), Reach({}, {}, {dep}))
  {
    var s, reach := DeployRecord(d, m, o, dep, setup, before, migration, validation), Reach({}, {}, {dep});
    var e := Deploying(dep, m.engines[o].task, setup, DeployActing);
    DeployRecordChain(d, m, o, dep, setup, before, migration, validation);
    NewDeployClear(d, m, o, dep);
    StillApart(m.engines, o, e);
    RecordedEngine(d, m, o, dep, setup, before, migration, validation);
    hide *;
    if Ends(m, s.mem, o) {
      ReturnedEngine(d, m, s, o, reach);
    } else {
      ChainThenEngine(d, m, s, o, e, reach);
    }
  }

  lemma RecordedEngine(d: Durable, m: Mem, o: Id, dep: Id, setup: Project_, before: Option<Commit>,
          migration: Migration.Raw, validation: Option<bool>)
    requires o in m.engines && m.engines[o].Precheck? && m.engines[o].task in d.tasks
    ensures var s, e := DeployRecord(d, m, o, dep, setup, before, migration, validation),
              Deploying(dep, m.engines[o].task, setup, DeployActing);
            Ends(m, s.mem, o) || (s.mem == At(m, o, e) && forall p :: EngineOk(Last(d, s.writes), p, e))
  {
    hide DeployFail, SetStatus;
  }

  lemma DeployErrorOk(d: Durable, m: Mem, o: Id)
    requires EvidenceInv(d, m) && DeployAt(d, m, o)
    ensures Lawful(d, m, DeployError(d, m, o), Reach({}, {}, {m.engines[o].deployment}))
  {
    var reach := Reach({}, {}, {m.engines[o].deployment});
    hide RowsOk, EngineOk, CallsOk, Chain, DeployFail;
    DeployClear(d, m, o, {});
    DeployFailChain(d, m.engines[o].deployment, m.engines[o].task, reach);
    ReturnedEngine(d, m, DeployError(d, m, o), o, reach);
  }

  lemma DeployActedOk(d: Durable, m: Mem, o: Id, after: Option<Commit>)
    requires EvidenceInv(d, m) && DeployAt(d, m, o) && m.engines[o].deployStage.DeployActing?
    ensures Lawful(d, m, DeployActed(d, m, o, after), Reach({}, {}, {m.engines[o].deployment}))
  {
    var e, s := m.engines[o], DeployActed(d, m, o, after);
    var row := d.deployments[e.deployment].(after := after);
    var reach, e' := Reach({}, {}, {e.deployment}), e.(deployStage := ServiceChecking);
    assert EngineOk(d, m.sections[o].project, e);
    DeployClear(d, m, o, {});
    hide RowsOk, CallsOk;
    DeployStep(d, e.deployment, row, reach);
    StillApart(m.engines, o, e');
    assert s.writes == [SetDeploy(d, e.deployment, row)];
    assert EngineOk(Last(d, s.writes), m.sections[o].project, e');
    hide EngineOk, EvidenceInv, EnginesOk, Step;
    ChainThenEngine(d, m, s, o, e', reach);
  }

  lemma DeployServiceOk(d: Durable, m: Mem, o: Id, active: Option<bool>)
    requires EvidenceInv(d, m) && DeployAt(d, m, o) && m.engines[o].deployStage.ServiceChecking?
    ensures Lawful(d, m, DeployService(d, m, o, active), Reach({}, {}, {m.engines[o].deployment}))
  {
    var e, s := m.engines[o], DeployService(d, m, o, active);
    var reach, e' := Reach({}, {}, {e.deployment}), e.(deployStage := DeployHealth(active));
    assert EngineOk(d, m.sections[o].project, e);
    DeployClear(d, m, o, {});
    assert Apart(m.engines[o := e']) by { StillApart(m.engines, o, e'); }
    InvRows(d, m);
    ServedEngine(d, m, o, active);
    hide EvidenceInv, RowsOk, CallsOk, EnginesOk, EngineOk, Chain, DeployService, Clear, Apart, SetStatus;
    DeployServiceChain(d, m, o, active);
    if Ends(m, s.mem, o) {
      ReturnedEngine(d, m, s, o, reach);
      return;
    }
    ChainThenEngine(d, m, s, o, e', reach);
  }

  lemma ServedEngine(d: Durable, m: Mem, o: Id, active: Option<bool>)
    requires DeployAt(d, m, o) && m.engines[o].deployStage.ServiceChecking?
    requires DeployingOk(d, m.engines[o].deployment, m.engines[o].task, m.engines[o].setup, m.engines[o].deployStage)
    ensures var s, e := DeployService(d, m, o, active), m.engines[o].(deployStage := DeployHealth(active));
            Ends(m, s.mem, o) || (s.mem == At(m, o, e) && forall p :: EngineOk(Last(d, s.writes), p, e))
  {
    hide DeployFail, SetStatus;
  }

  lemma DeployFinishOk(d: Durable, m: Mem, o: Id, health: Health)
    requires EvidenceInv(d, m) && DeployAt(d, m, o) && m.engines[o].deployStage.DeployHealth?
    ensures Lawful(d, m, DeployFinish(d, m, o, health), Reach({m.engines[o].task}, {}, {m.engines[o].deployment}))
  {
    var e, s := m.engines[o], DeployFinish(d, m, o, health);
    var reach := Reach({e.task}, {}, {e.deployment});
    assert EngineOk(d, m.sections[o].project, e);
    DeployClear(d, m, o, {e.task});
    InvRows(d, m);
    FinishedEngine(d, m, o, health);
    hide EvidenceInv, EnginesOk, CallsOk, RowsOk, Chain, Clear, DeployFinish;
    DeployFinishChain(d, m, o, health);
    hide *;
    ReturnedEngine(d, m, s, o, reach);
  }

  lemma FinishedEngine(d: Durable, m: Mem, o: Id, health: Health)
    requires DeployAt(d, m, o) && m.engines[o].deployStage.DeployHealth?
    ensures Ends(m, DeployFinish(d, m, o, health).mem, o)
  {
    hide DeployFail, SetStatus;
  }

  lemma InvRows(d: Durable, m: Mem)
    requires EvidenceInv(d, m)
    ensures RowsOk(d) && EnginesOk(d, m) && CallsOk(d, m)
  {
    hide RowsOk, EnginesOk, CallsOk;
  }

  // ---------------------------------------------------------------- rollback

  lemma PlanBeginOk(d: Durable, m: Mem, id: Id, task: Id, p: Project)
    requires EvidenceInv(d, m) && id !in m.drafts
    ensures Lawful(d, m, PlanBegin(d, m, id, task, p), NOTHING)
  {
    if task in d.tasks { assert TaskOk(d.tasks[task], d.deployments); }
    hide EngineOk, RowsOk;
  }

  lemma PlanCommitOk(d: Durable, m: Mem, id: Id, plan: Id, noAdapter: bool, seen: Observed)
    requires EvidenceInv(d, m) && plan !in d.plans && id in m.drafts && m.drafts[id].task in d.tasks
    ensures Lawful(d, m, PlanCommit(d, m, id, plan, noAdapter, seen), NOTHING)
  {
    var s := PlanCommit(d, m, id, plan, noAdapter, seen);
    InvRows(d, m);
    PlanCommitMem(d, m, id, plan, noAdapter, seen);
    hide *;
    PlanCommitChain(d, m, id, plan, noAdapter, seen);
    LastKept(d, s.writes, NOTHING);
    DraftLeaves(d, Last(d, s.writes), m, id);
    LawfulIs(d, m, s, NOTHING);
  }

  lemma PlanCommitMem(d: Durable, m: Mem, id: Id, plan: Id, noAdapter: bool, seen: Observed)
    requires CallsOk(d, m) && id in m.drafts && m.drafts[id].task in d.tasks
    ensures PlanCommit(d, m, id, plan, noAdapter, seen).mem == m.(drafts := m.drafts - {id}) && DraftOk(d, m.drafts[id])
  {
    hide SetStatus, PlannedRow, DraftOk;
  }

  lemma LawfulIs(d: Durable, m: Mem, s: Stretch, reach: Reach)
    requires SameSections(m, s.mem) && Chain(d, s.writes, reach)
    requires RowsOk(Last(d, s.writes)) && EnginesOk(Last(d, s.writes), s.mem) && CallsOk(Last(d, s.writes), s.mem)
    ensures Lawful(d, m, s, reach)
  {
    hide SameSections, Chain, RowsOk, EnginesOk, CallsOk;
  }

  lemma DraftLeaves(d: Durable, w: Durable, m: Mem, id: Id)
    requires EnginesOk(d, m) && CallsOk(d, m) && Kept(d, w, NOTHING)
    ensures EnginesOk(w, m.(drafts := m.drafts - {id})) && CallsOk(w, m.(drafts := m.drafts - {id}))
    ensures SameSections(m, m.(drafts := m.drafts - {id}))
  {
    CallsStay(d, w, m, NOTHING);
    hide Kept, DraftOk, EngineOk;
    forall q | q in m.engines ensures EngineOk(w, m.sections[q].project, m.engines[q]) {
      EngineStays(d, w, m.sections[q].project, m.engines[q], NOTHING);
    }
  }

  lemma RollOpenOk(d: Durable, m: Mem, o: Id, setup: Project_)
    requires EvidenceInv(d, m) && o in m.engines && m.engines[o].Opening? && o in m.sections
    ensures Lawful(d, m, RollOpen(d, m, o, setup), NOTHING)
  {
    var s := RollOpen(d, m, o, setup);
    var e := s.mem.engines[o];
    StillApart(m.engines, o, e);
    assert Clear(m.engines, o, NOTHING);
    assert EngineOk(d, m.sections[o].project, e);
    hide EngineOk, RowsOk, CallsOk, EnginesOk, Apart, Clear;
    ChainThenEngine(d, m, s, o, e, NOTHING);
  }

  lemma RollErrorOk(d: Durable, m: Mem, o: Id)
    requires EvidenceInv(d, m) && Exclusive(m.sections) && RollAt(d, m, o)
    ensures Lawful(d, m, RollError(d, m, o), Reach({}, {m.engines[o].plan}, {}))
  {
    hide RowsOk, EnginesOk, CallsOk, Chain, RollFail, Exclusive;
    var reach := Reach({}, {m.engines[o].plan}, {});
    PlanClear(d, m, o);
    hide Clear;
    RollFailChain(d, m.engines[o].plan, reach);
    ReturnedEngine(d, m, RollError(d, m, o), o, reach);
  }

  lemma RollRunOk(d: Durable, m: Mem, o: Id, seen: Check)
    requires EvidenceInv(d, m) && Exclusive(m.sections)
    requires o in m.engines && m.engines[o].Checking? && m.engines[o].setup == seen.setup
             && PlanAt(d, m.engines[o].plan)
    ensures Lawful(d, m, RollRun(d, m, o, seen), Reach({}, {m.engines[o].plan}, {}))
  {
    var plan, s := m.engines[o].plan, RollRun(d, m, o, seen);
    var reach, e := Reach({}, {plan}, {}), RollingBack(plan, seen.setup, RollActing);
    assert EngineOk(d, m.sections[o].project, m.engines[o]);
    InvRows(d, m);
    RunEngine(d, m, o, seen);
    hide EvidenceInv, EnginesOk, CallsOk, RowsOk, Chain, RollRun, Clear;
    PlanClear(d, m, o);
    RollRunChain(d, m, o, seen);
    assert Apart(m.engines[o := e]) by { StillApart(m.engines, o, e); }
    hide *;
    if Ends(m, s.mem, o) {
      ReturnedEngine(d, m, s, o, reach);
    } else {
      ChainThenEngine(d, m, s, o, e, reach);
    }
  }

  lemma RunEngine(d: Durable, m: Mem, o: Id, seen: Check)
    requires o in m.engines && m.engines[o].Checking? && m.engines[o].setup == seen.setup
             && PlanAt(d, m.engines[o].plan)
    ensures var s, e := RollRun(d, m, o, seen), RollingBack(m.engines[o].plan, seen.setup, RollActing);
            Ends(m, s.mem, o) || (s.mem == At(m, o, e) && forall p :: EngineOk(Last(d, s.writes), p, e))
  {
    var plan := m.engines[o].plan;
    var moved := SetStatus(SetPlan(d, plan, PlanRollingBack), d.plans[plan].task, ROLLING_BACK);
    if CheckPasses(d.plans[plan], seen) && moved.Some? && d.plans[plan].target.Some? {
      RunGoesOn(d, m, o, seen);
      hide RollRun, SetStatus, CheckPasses, Ends;
    } else {
      RunGivesUp(d, m, o, seen);
      hide RollRun, SetStatus, CheckPasses, Ends, EngineOk;
    }
  }

  lemma RunGivesUp(d: Durable, m: Mem, o: Id, seen: Check)
    requires o in m.engines && m.engines[o].Checking? && m.engines[o].setup == seen.setup
             && PlanAt(d, m.engines[o].plan)
    requires var plan := m.engines[o].plan;
             || !CheckPasses(d.plans[plan], seen) || d.plans[plan].target.None?
             || SetStatus(SetPlan(d, plan, PlanRollingBack), d.plans[plan].task, ROLLING_BACK).None?
    ensures Ends(m, RollRun(d, m, o, seen).mem, o)
  {
    hide CheckPasses, RollFail, SetStatus;
  }

  lemma RunGoesOn(d: Durable, m: Mem, o: Id, seen: Check)
    requires o in m.engines && m.engines[o].Checking? && m.engines[o].setup == seen.setup
             && PlanAt(d, m.engines[o].plan)
    requires var plan := m.engines[o].plan;
             && CheckPasses(d.plans[plan], seen) && d.plans[plan].target.Some?
             && SetStatus(SetPlan(d, plan, PlanRollingBack), d.plans[plan].task, ROLLING_BACK).Some?
    ensures var plan, s := m.engines[o].plan, RollRun(d, m, o, seen);
            s.mem == At(m, o, RollingBack(plan, seen.setup, RollActing))
              && RollingOk(Last(d, s.writes), plan, seen.setup, RollActing)
  {
    hide CheckPasses, RollFail;
    var plan := m.engines[o].plan;
    var d1 := SetPlan(d, plan, PlanRollingBack);
    var d2 := SetStatus(d1, d.plans[plan].task, ROLLING_BACK).value;
    var d3 := d2.(commands := d.commands[plan := (if plan in d.commands then d.commands[plan] else []) + [seen]]);
    assert RollRun(d, m, o, seen) == Stretch([d1, d2, d3], At(m, o, RollingBack(plan, seen.setup, RollActing)));
    hide RollRun, SetStatus;
    assert d3.plans == d1.plans;
  }

  lemma RollActedOk(d: Durable, m: Mem, o: Id, exitedCleanly: bool, head: Option<Commit>)
    requires EvidenceInv(d, m) && Exclusive(m.sections) && RollAt(d, m, o) && m.engines[o].rollStage.RollActing?
    ensures Lawful(d, m, RollActed(d, m, o, exitedCleanly, head), Reach({}, {m.engines[o].plan}, {}))
  {
    var e, reach := m.engines[o], Reach({}, {m.engines[o].plan}, {});
    assert EngineOk(d, m.sections[o].project, e);
    hide RowsOk, CallsOk, RollError, Exclusive;
    if !exitedCleanly || head != d.plans[e.plan].target {
      hide EnginesOk;
      RollErrorOk(d, m, o);
    } else {
      var e' := e.(rollStage := Verifying(exitedCleanly, head));
      PlanClear(d, m, o);
      StillApart(m.engines, o, e');
      assert EngineOk(d, m.sections[o].project, e');
      hide EngineOk, EnginesOk, Apart, Clear;
      ChainThenEngine(d, m, RollActed(d, m, o, exitedCleanly, head), o, e', reach);
    }
  }

  lemma RollDoneOk(d: Durable, m: Mem, o: Id, result: PlanResult)
    requires EvidenceInv(d, m) && Exclusive(m.sections) && RollAt(d, m, o) && Ran(d.commands, m.engines[o].plan) != []
    requires RollProven(d.plans[m.engines[o].plan].(result := Some(result)))
    ensures Lawful(d, m, RollDone(d, m, o, result), Reach({}, {m.engines[o].plan}, {}))
  {
    var s, reach := RollDone(d, m, o, result), Reach({}, {m.engines[o].plan}, {});
    InvRows(d, m);
    DoneEngine(d, m, o, result);
    hide EvidenceInv, RowsOk, EnginesOk, CallsOk, Chain, RollDone, RollProven, Ran, Clear;
    PlanClear(d, m, o);
    RollDoneChain(d, m, o, result);
    hide *;
    ReturnedEngine(d, m, s, o, reach);
  }

  lemma DoneEngine(d: Durable, m: Mem, o: Id, result: PlanResult)
    requires RollAt(d, m, o)
    ensures Ends(m, RollDone(d, m, o, result).mem, o)
  {
    hide RollFail, SetStatus;
  }

  lemma RollServiceOk(d: Durable, m: Mem, o: Id, active: Option<bool>)
    requires EvidenceInv(d, m) && Exclusive(m.sections) && RollAt(d, m, o) && m.engines[o].rollStage.Verifying?
    ensures Lawful(d, m, RollService(d, m, o, active), Reach({}, {m.engines[o].plan}, {}))
  {
    var e := m.engines[o];
    assert EngineOk(d, m.sections[o].project, e);
    if e.setup.service && active != Some(true) {
      hide EvidenceInv, EngineOk, RollError;
      RollErrorOk(d, m, o);
    } else if !e.setup.health {
      hide EvidenceInv, RollDone;
      RollDoneOk(d, m, o, PlanResult(e.rollStage.clean, e.setup, e.rollStage.head, active, None));
    } else {
      hide EvidenceInv, RollService;
      RollCheckingOk(d, m, o, active);
    }
  }

  lemma RollCheckingOk(d: Durable, m: Mem, o: Id, active: Option<bool>)
    requires EvidenceInv(d, m) && Exclusive(m.sections) && RollAt(d, m, o) && m.engines[o].rollStage.Verifying?
    requires RollingOk(d, m.engines[o].plan, m.engines[o].setup, m.engines[o].rollStage)
    requires m.engines[o].setup.health && (m.engines[o].setup.service ==> active == Some(true))
    ensures Lawful(d, m, RollService(d, m, o, active), Reach({}, {m.engines[o].plan}, {}))
  {
    var e, s := m.engines[o], RollService(d, m, o, active);
    var reach, e' := Reach({}, {e.plan}, {}), e.(rollStage := RollHealth(e.rollStage.clean, e.rollStage.head, active));
    InvRows(d, m);
    assert EngineOk(d, m.sections[o].project, e);
    ServiceEngine(d, m, o, active);
    assert Apart(m.engines[o := e']) by { StillApart(m.engines, o, e'); }
    hide EvidenceInv, RowsOk, EnginesOk, CallsOk, Chain, RollService, Clear;
    PlanClear(d, m, o);
    RollServiceChain(d, m, o, active);
    hide *;
    if Ends(m, s.mem, o) {
      ReturnedEngine(d, m, s, o, reach);
    } else {
      ChainThenEngine(d, m, s, o, e', reach);
    }
  }

  lemma ServiceEngine(d: Durable, m: Mem, o: Id, active: Option<bool>)
    requires RollAt(d, m, o) && m.engines[o].rollStage.Verifying?
             && RollingOk(d, m.engines[o].plan, m.engines[o].setup, m.engines[o].rollStage)
    requires m.engines[o].setup.health && (m.engines[o].setup.service ==> active == Some(true))
    ensures var s, e := RollService(d, m, o, active),
              m.engines[o].(rollStage := RollHealth(m.engines[o].rollStage.clean, m.engines[o].rollStage.head, active));
            Ends(m, s.mem, o) || (s.mem == At(m, o, e) && forall p :: EngineOk(Last(d, s.writes), p, e))
  {
    hide RollFail, SetStatus;
  }

  lemma RollFinishOk(d: Durable, m: Mem, o: Id, health: Health)
    requires EvidenceInv(d, m) && Exclusive(m.sections) && RollAt(d, m, o) && m.engines[o].rollStage.RollHealth?
    ensures Lawful(d, m, RollFinish(d, m, o, health), Reach({}, {m.engines[o].plan}, {}))
  {
    var e := m.engines[o];
    assert EngineOk(d, m.sections[o].project, e);
    hide RowsOk, CallsOk, EnginesOk, Chain, Exclusive, RollError, RollDone;
    if e.setup.healthRequired && health != Healthy {
      RollErrorOk(d, m, o);
    } else {
      RollDoneOk(d, m, o, PlanResult(e.rollStage.clean, e.setup, e.rollStage.head, e.rollStage.service, Some(health)));
    }
  }

  // ---------------------------------------------------------------- recovery and tasks

  lemma AssessBeginOk(c: Config, d: Durable, m: Mem, o: Id)
    requires EvidenceInv(d, m) && o in m.engines && m.engines[o].ToAssess? && o in m.sections
    ensures Lawful(d, m, AssessBegin(c, d, m, o), NOTHING)
  {
    var s := AssessBegin(c, d, m, o);
    var e := Assessing(m.engines[o].task, CountRuns(d.runs, m.engines[o].task) + 1);
    InvRows(d, m);
    StillApart(m.engines, o, e);
    assert Clear(m.engines, o, NOTHING);
    AssessingEngine(c, d, m, o);
    hide EvidenceInv, RowsOk, EnginesOk, CallsOk, Chain, AssessOpen;
    AssessOpenChain(d, c.maxAttempts, m.engines[o].task, m.sections[o].project);
    assert Chain(d, s.writes, NOTHING);
    hide *;
    if Ends(m, s.mem, o) {
      ReturnedEngine(d, m, s, o, NOTHING);
    } else {
      ChainThenEngine(d, m, s, o, e, NOTHING);
    }
  }

  lemma AssessingEngine(c: Config, d: Durable, m: Mem, o: Id)
    requires o in m.engines && m.engines[o].ToAssess? && o in m.sections
    ensures var s, e := AssessBegin(c, d, m, o), Assessing(m.engines[o].task, CountRuns(d.runs, m.engines[o].task) + 1);
            Ends(m, s.mem, o) || (s.mem == At(m, o, e) && EngineOk(Last(d, s.writes), m.sections[o].project, e))
  {
    hide SetStatus, CountRuns;
  }

  lemma AssessEndOk(d: Durable, m: Mem, now: Time, o: Id, verdict: Verdict)
    requires EvidenceInv(d, m) && o in m.engines && m.engines[o].Assessing?
    ensures Lawful(d, m, AssessEnd(d, m, now, o, verdict), Reach({}, {}, {}, {m.engines[o].task}))
  {
    var s := AssessEnd(d, m, now, o, verdict);
    assert Clear(m.engines, o, Reach({}, {}, {}, {m.engines[o].task}));
    hide RowsOk, CallsOk, EnginesOk, Chain, Clear, AssessClose;
    AssessCloseChain(d, now, m.engines[o].task, m.engines[o].attempt, verdict);
    ReturnedEngine(d, m, s, o, Reach({}, {}, {}, {m.engines[o].task}));
  }

  /** A stretch that moves no engine. */
  lemma CallsMove(d: Durable, m: Mem, s: Stretch, reach: Reach)
    requires EvidenceInv(d, m) && Chain(d, s.writes, reach) && reach.plans == {} && reach.deployments == {}
    requires s.mem.engines == m.engines && SameSections(m, s.mem) && s.mem.drafts == m.drafts
    requires forall a | a in s.mem.direct :: s.mem.direct[a].task in Last(d, s.writes).tasks
    ensures Lawful(d, m, s, reach)
  {
    hide RowsOk, Chain, EngineOk;
    LastKept(d, s.writes, reach);
    var w := Last(d, s.writes);
    CallsStay(d, w, m, reach);
    hide Kept, DraftOk;
    forall q | q in m.engines ensures EngineOk(w, m.sections[q].project, m.engines[q]) {
      EngineStays(d, w, m.sections[q].project, m.engines[q], reach);
    }
  }

  lemma DirectBeginOk(c: Config, d: Durable, m: Mem, id: Id, task: Id, p: Project)
    requires EvidenceInv(d, m)
    ensures Lawful(d, m, DirectBegin(c, d, m, id, task, p), NOTHING)
  {
    var s := DirectBegin(c, d, m, id, task, p);
    AssessOpenChain(d, c.maxAttempts, task, p);
    hide RowsOk, EnginesOk, CountRuns, SetStatus;
    forall a | a in s.mem.direct ensures s.mem.direct[a].task in Last(d, s.writes).tasks {
      if a != id { assert a in m.direct; }
    }
    hide AssessOpen, CallsOk, Chain;
    CallsMove(d, m, s, NOTHING);
  }

  lemma DirectEndOk(d: Durable, m: Mem, now: Time, id: Id, verdict: Verdict)
    requires EvidenceInv(d, m) && id in m.direct
    ensures Lawful(d, m, DirectEnd(d, m, now, id, verdict), Reach({}, {}, {}, {m.direct[id].task}))
  {
    hide RowsOk, EnginesOk, Chain, AssessClose;
    var s := DirectEnd(d, m, now, id, verdict);
    AssessCloseChain(d, now, m.direct[id].task, m.direct[id].attempt, verdict);
    LastKept(d, s.writes, Reach({}, {}, {}, {m.direct[id].task}));
    CallsMove(d, m, s, Reach({}, {}, {}, {m.direct[id].task}));
  }

  // ---------------------------------------------------------------- every label

  /** A call on the task table that no engine makes. */
  predicate CallOnTasks(l: TaskLabel) { !l.Validated? && !l.Throw? }

  lemma TasksOkStep(d: Durable, m: Mem, l: TaskLabel)
    requires EvidenceInv(d, m) && TaskEnabled(d, m, l) && (l.NewTask? ==> l.drawn !in d.tasks)
    ensures Lawful(d, m, PerformTask(d, m, l), ReachOf(m, OnTask(l)))
  {
    hide EvidenceInv, Lawful, Resume, Pause, CancelNow, CancelEnd, CreateTask, RegisterProject;
    match l
    case NewProject(p) => TaskStretchOk(d, m, l, NOTHING);
    case NewTask(id, p) => TaskStretchOk(d, m, l, NOTHING);
    case ResumeTask(t) => TaskStretchOk(d, m, l, NOTHING);
    case PauseTask(t) => TaskStretchOk(d, m, l, NOTHING);
    case EndCancel(id) => TaskStretchOk(d, m, l, Reach({m.cancelling[id].task}, {}, {}));
    case CancelTask(t) => TaskStretchOk(d, m, l, Reach({t}, {}, {}));
    case Validated(o, ok, validation) => EngineReturnsOk(d, m, o, Returned(ok, RowTarget(validation)));
    case Throw(o) => EngineReturnsOk(d, m, o, Returned(false));
  }

  lemma EngineReturnsOk(d: Durable, m: Mem, o: Id, e: Engine)
    requires EvidenceInv(d, m) && o in m.engines && e.Returned?
    ensures Lawful(d, m, Quiet(At(m, o, e)), NOTHING)
  {
    assert Clear(m.engines, o, NOTHING);
    hide EvidenceInv, Clear;
    ReturnedEngine(d, m, Quiet(At(m, o, e)), o, NOTHING);
  }

  lemma TaskStretchOk(d: Durable, m: Mem, l: TaskLabel, reach: Reach)
    requires EvidenceInv(d, m) && TaskEnabled(d, m, l)
    requires CallOnTasks(l)
    requires reach.plans == {} && reach.deployments == {} && reach == ReachOf(m, OnTask(l))
    ensures Lawful(d, m, PerformTask(d, m, l), reach)
  {
    var s := PerformTask(d, m, l);
    InvRows(d, m);
    TaskStretchMem(d, m, l);
    TaskStretchChain(d, m, l, reach);
    hide *;
    LastKept(d, s.writes, reach);
    DirectStays(d, Last(d, s.writes), m, reach);
    CallsMove(d, m, s, reach);
  }

  lemma DirectStays(d: Durable, w: Durable, m: Mem, reach: Reach)
    requires CallsOk(d, m) && Kept(d, w, reach)
    ensures forall a | a in m.direct :: m.direct[a].task in w.tasks
  {}

  lemma TaskStretchMem(d: Durable, m: Mem, l: TaskLabel)
    requires TaskEnabled(d, m, l) && CallOnTasks(l)
    ensures var m' := PerformTask(d, m, l).mem;
            m'.engines == m.engines && SameSections(m, m') && m'.drafts == m.drafts && m'.direct == m.direct
  {
    hide SetStatus, MayResume, BlockingWork, UnknownJob;
  }

  lemma TaskStretchChain(d: Durable, m: Mem, l: TaskLabel, reach: Reach)
    requires RowsOk(d) && TaskEnabled(d, m, l)
             && CallOnTasks(l)
    requires reach == ReachOf(m, OnTask(l))
    ensures Chain(d, PerformTask(d, m, l).writes, reach)
  {
    hide RowsOk, Chain, Resume, Pause, CancelNow, CancelEnd, Step;
    match l {
      case NewProject(p) =>
        if p !in d.projects {
          SideStep(d, d.(projects := d.projects + {p}), reach);
          Chain1(d, d.(projects := d.projects + {p}), reach);
        } else {
          NoChain(d, reach);
        }
      case NewTask(id, p) =>
        if p in d.projects {
          NewTaskStep(d, id, p, reach);
          Chain1(d, PerformTask(d, m, l).writes[0], reach);
        } else {
          NoChain(d, reach);
        }
      case ResumeTask(t) => ResumeChain(d, m, t);
      case PauseTask(t) => PauseChain(d, m, t);
      case CancelTask(t) => CancelNowChain(d, m, t);
      case EndCancel(id) => CancelEndChain(d, m, id);
    }
  }

  lemma DeploysOkStep(d: Durable, m: Mem, l: DeployLabel)
    requires EvidenceInv(d, m) && DeployEnabled(d, m, l)
    ensures Lawful(d, m, PerformDeploy(d, m, l), ReachOf(m, OnDeploy(l)))
  {
    hide EvidenceInv, Lawful, DeployRecord, DeployError, DeployActed, DeployService, DeployFinish;
    match l
    case RecordDeploy(o, dep, setup, before, migration, validation) =>
      RecordDeployOk(d, m, o, dep, setup, before, migration, validation);
    case FailDeploy(o) => DeployErrorOk(d, m, o);
    case DeployedTo(o, after) => DeployActedOk(d, m, o, after);
    case DeployServiceIs(o, active) => DeployServiceOk(d, m, o, active);
    case DeployHealthIs(o, health) => DeployFinishOk(d, m, o, health);
  }

  lemma RollsOkStep(d: Durable, m: Mem, l: RollLabel)
    requires EvidenceInv(d, m) && Exclusive(m.sections) && RollEnabled(d, m, l)
    ensures Lawful(d, m, PerformRoll(d, m, l), ReachOf(m, OnRoll(l)))
  {
    hide EvidenceInv, Exclusive, Lawful, PlanBegin, PlanCommit, RollOpen, RollRun, RollError, RollActed, RollService,
         RollFinish;
    match l
    case BeginPlan(id, t, p) => PlanBeginOk(d, m, id, t, p);
    case CommitPlan(id, plan, noAdapter, seen) => PlanCommitOk(d, m, id, plan, noAdapter, seen);
    case OpenRollback(o, setup) => RollOpenOk(d, m, o, setup);
    case RunRollback(o, check) => RollRunOk(d, m, o, check);
    case FailRollback(o) => RollErrorOk(d, m, o);
    case RolledTo(o, clean, head) => RollActedOk(d, m, o, clean, head);
    case RollServiceIs(o, active) => RollServiceOk(d, m, o, active);
    case RollHealthIs(o, health) => RollFinishOk(d, m, o, health);
  }

  lemma AssessesOkStep(c: Config, d: Durable, m: Mem, now: Time, l: AssessLabel)
    requires EvidenceInv(d, m) && AssessEnabled(d, m, l)
    ensures Lawful(d, m, PerformAssess(c, d, m, now, l), ReachOf(m, OnAssess(l)))
  {
    hide EvidenceInv, Lawful, AssessBegin, AssessEnd, DirectBegin, DirectEnd;
    match l
    case BeginAssess(o) => AssessBeginOk(c, d, m, o);
    case EndAssess(o, verdict) => AssessEndOk(d, m, now, o, verdict);
    case BeginDirect(id, t, p) => DirectBeginOk(c, d, m, id, t, p);
    case EndDirect(id, verdict) => DirectEndOk(d, m, now, id, verdict);
  }
}
