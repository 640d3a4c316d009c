/** A run that ends in a rollback checked against the wrong migration version: the first deployment
    of a task fails at version 1, a second one at version 2 is cut short behind `setDeployment`, and
    after the restart a plan of the task runs its command at version 1. */
module Misled {
  import opened Prelude
  import opened KeyTable
  import opened Store
  import opened Runtime
  import opened Engines
  import opened Agent
  import opened Evidence
  import opened Guarantees

  // ---------------------------------------------------------------- one event more

  lemma {:induction false} RunGrows(c: Config, s: State, es: seq<Event>, e: Event)
    requires Runs(c, s, es) && Fires(c, Reached(c, s, es), e)
    ensures Runs(c, s, es + [e]) && Reached(c, s, es + [e]) == After(c, Reached(c, s, es), e)
    decreases |es|
  {
    hide Fires, After;
    if es == [] {
      assert [e][1..] == [];
      assert Runs(c, After(c, s, e), []);
    } else {
      assert (es + [e])[1..] == es[1..] + [e];
      RunGrows(c, After(c, s, es[0]), es[1..], e);
    }
  }

  lemma Then(c: Config, s: State, e: Event) returns (s': State)
    requires Reachable(c, s) && Fires(c, s, e)
    ensures s' == After(c, s, e) && Reachable(c, s')
  {
    hide Fires, After, Runs, Reached;
    var start: Time, es: seq<Event> :| Runs(c, Fresh(start), es) && Reached(c, Fresh(start), es) == s;
    RunGrows(c, Fresh(start), es, e);
    s' := After(c, s, e);
  }

  lemma ThenOp(c: Config, s: State, l: OpLabel) returns (s': State)
    requires Reachable(c, s) && s.mode.Up? && OpEnabled(s.d, s.mode.mem, l)
    ensures var r := PerformOp(c, s.d, s.mode.mem, s.now, l);
            s' == s.(d := Last(s.d, r.writes), mode := Up(r.mem)) && Reachable(c, s')
  {
    hide Reachable, OpEnabled, PerformOp;
    s' := Then(c, s, Act(OnOp(l)));
  }

  lemma ThenTask(c: Config, s: State, l: TaskLabel) returns (s': State)
    requires Reachable(c, s) && s.mode.Up? && TaskEnabled(s.d, s.mode.mem, l)
    ensures var r := PerformTask(s.d, s.mode.mem, l);
            s' == s.(d := Last(s.d, r.writes), mode := Up(r.mem)) && Reachable(c, s')
  {
    hide Reachable, TaskEnabled, PerformTask;
    s' := Then(c, s, Act(OnTask(l)));
  }

  lemma ThenDeploy(c: Config, s: State, l: DeployLabel) returns (s': State)
    requires Reachable(c, s) && s.mode.Up? && DeployEnabled(s.d, s.mode.mem, l)
    ensures var r := PerformDeploy(s.d, s.mode.mem, l);
            s' == s.(d := Last(s.d, r.writes), mode := Up(r.mem)) && Reachable(c, s')
  {
    hide Reachable, DeployEnabled, PerformDeploy;
    s' := Then(c, s, Act(OnDeploy(l)));
  }

  lemma ThenDies(c: Config, s: State, l: DeployLabel, n: nat) returns (s': State)
    requires Reachable(c, s) && s.mode.Up? && DeployEnabled(s.d, s.mode.mem, l)
    requires n < |PerformDeploy(s.d, s.mode.mem, l).writes|
    ensures s' == s.(d := PerformDeploy(s.d, s.mode.mem, l).writes[n], mode := Starting(0)) && Reachable(c, s')
  {
    hide Reachable, DeployEnabled, PerformDeploy;
    s' := Then(c, s, CutShort(OnDeploy(l), n));
  }

  lemma ThenRoll(c: Config, s: State, l: RollLabel) returns (s': State)
    requires Reachable(c, s) && s.mode.Up? && RollEnabled(s.d, s.mode.mem, l)
    ensures var r := PerformRoll(s.d, s.mode.mem, l);
            s' == s.(d := Last(s.d, r.writes), mode := Up(r.mem)) && Reachable(c, s')
  {
    hide Reachable, RollEnabled, PerformRoll;
    s' := Then(c, s, Act(OnRoll(l)));
  }

  /** The store after the startup sequence, maintenance left out. */
  function Rebooted(d: Durable): Durable {
    var d1 := d.(ops := ReconcileOps(d.ops), jobs := ReconcileJobs(d.jobs));
    var d2 := d1.(tasks := MarkInterrupted(d1.tasks));
    d2.(tasks := MarkUnknown(d2))
  }

  lemma Startup(c: Config, s: State) returns (s': State)
    requires Reachable(c, s) && s.mode == Starting(0)
    ensures Reachable(c, s') && s'.now == s.now && s'.boots == s.boots + 1 && s'.mode == Up(Boot(s.boots + 1))
    ensures s'.d == Rebooted(s.d)
  {
    hide Reachable;
    s' := Then(c, s, Start(BootOps));
    s' := Then(c, s', Start(BootJobs));
    s' := Then(c, s', Start(BootInterrupted));
    s' := Then(c, s', Start(BootUnknown));
    s' := Then(c, s', Start(BootServe));
  }

  // ---------------------------------------------------------------- starting an operation

  predicate LeaseFree(d: Durable, now: Time) {
    var lease := GetLease(d.keys, "p");
    lease.None? || lease.value.expires <= now
  }

  predicate LeaseOf(c: Config, d: Durable, instance: nat, id: Id, now: Time) {
    var lease := GetLease(d.keys, "p");
    lease.Some? && lease.value.owner == SectionOwner(instance, id) && lease.value.expires == now + c.opTtl
  }

  ghost predicate OtherKeys(d: Durable, w: Durable, k: KeyId) {
    forall q: KeyId | q != k && !q.scope.LeaseScope? :: q in w.keys <==> q in d.keys
  }

  function Running(c: Config, m: Mem, id: Id, now: Time): Section {
    Section("p", SectionOwner(m.instance, id), c.opTtl, now, Operation)
  }

  /** An operation starts: its key is free, and so is the lease of the project. */
  lemma Starts(c: Config, s: State, id: Id, kind: OpKind, key: string, plan: Id) returns (s': State)
    requires ValidConfig(c) && Reachable(c, s) && s.mode.Up? && s.mode.mem.stopping.None? && Referenced(s.d, "p", 0)
    requires OpEnabled(s.d, s.mode.mem, StartOperation(id, kind, "p", 0, key, plan))
    requires KeyId(OpScope(kind, "p"), key) !in s.d.keys && LeaseFree(s.d, s.now)
    ensures Reachable(c, s') && s'.now == s.now && s'.boots == s.boots
    ensures s'.d == s.d.(keys := s'.d.keys, begun := s'.d.begun,
                         ops := s.d.ops[id := OpRow(0, "p", kind, OpRunning, false)])
    ensures var m := s.mode.mem;
            s'.mode == Up(m.(sections := m.sections[id := Running(c, m, id, s.now)],
                             engines := m.engines[id := EngineFor(kind, 0, plan)]))
    ensures OtherKeys(s.d, s'.d, KeyId(OpScope(kind, "p"), key))
    ensures LeaseOf(c, s'.d, s.mode.mem.instance, id, s.now)
  {
    var m := s.mode.mem;
    StartOpWorks(c, s.d, m, s.now, id, kind, key, EngineFor(kind, 0, plan));
    hide Reachable, StartOp, OpEnabled;
    s' := ThenOp(c, s, StartOperation(id, kind, "p", 0, key, plan));
  }

  lemma StartOpWorks(c: Config, d: Durable, m: Mem, now: Time, id: Id, kind: OpKind, key: string, engine: Engine)
    requires ValidConfig(c) && m.stopping.None? && Referenced(d, "p", 0)
    requires KeyId(OpScope(kind, "p"), key) !in d.keys && LeaseFree(d, now)
    ensures var r := StartOp(c, d, m, now, id, kind, "p", 0, key, engine);
            var w := Last(d, r.writes);
            && w == d.(keys := w.keys, begun := w.begun, ops := d.ops[id := OpRow(0, "p", kind, OpRunning, false)])
            && r.mem == m.(sections := m.sections[id := Running(c, m, id, now)], engines := m.engines[id := engine])
            && OtherKeys(d, w, KeyId(OpScope(kind, "p"), key)) && LeaseOf(c, w, m.instance, id, now)
  {
    var k, owner := KeyId(OpScope(kind, "p"), key), SectionOwner(m.instance, id);
    var row := OpRow(0, "p", kind, OpRunning, false);
    var d1 := BeginKey(d, k, OpPrint(kind, "p", 0), now);
    var leased := TakeLease(d1, "p", "persistent-" + KindText(kind), owner, c.opTtl, now);
    assert GetLease(d1.keys, "p") == GetLease(d.keys, "p") && leased.Some?;
    var d2 := leased.value;
    assert LeaseOf(c, d2, m.instance, id, now) && OtherKeys(d, d2, k) && k in d2.keys;
    assert StartOp(c, d, m, now, id, kind, "p", 0, key, engine) ==
           OpStarted(d1, d2, m, now, k, id, row, Running(c, m, id, now), engine);
    hide StartOp, BeginKey, TakeLease;
    RowWritesEnd(c, d2, k, id, row, m.instance, now);
    hide OpRowWrites, LeaseOf, OtherKeys;
    OtherKeysStay(d, d2, Last(d2, OpRowWrites(d2, k, id, row, now)), k);
  }

  lemma RowWritesEnd(c: Config, d: Durable, k: KeyId, id: Id, row: OpRow, instance: nat, now: Time)
    requires k in d.keys && !k.scope.LeaseScope? && LeaseOf(c, d, instance, id, now)
    ensures var ws := OpRowWrites(d, k, id, row, now);
            var w := Last(d, ws);
            && ws != [] && w == d.(keys := w.keys, begun := w.begun, ops := d.ops[id := row])
            && OtherKeys(d, w, k) && LeaseOf(c, w, instance, id, now)
  {}

  lemma OtherKeysStay(d: Durable, d': Durable, w: Durable, k: KeyId)
    requires OtherKeys(d, d', k) && OtherKeys(d', w, k)
    ensures OtherKeys(d, w, k)
  {}

  // ---------------------------------------------------------------- the run

  const V1 := Migration.Object(Migration.Flag(true), Migration.Text("db"), Migration.Text("1"), Migration.Number(0))
  const V2 := Migration.Object(Migration.Flag(true), Migration.Text("db"), Migration.Text("2"), Migration.Number(0))
  const BARE := Project_(false, false, false, false, false)

  const SECOND := KeyId(OpScope(Deployment, "p"), "second")
  const BACK := KeyId(OpScope(Rollback, "p"), "back")

  /** Everything but the key table and the history of effects. */
  ghost predicate Stands(d: Durable, task: TaskRow, ops: map<Id, OpRow>, deployments: map<Id, DeployRow>) {
    && d.projects == {"p"} && d.tasks == map[0 := task] && d.ops == ops && d.deployments == deployments
    && d.jobs == map[] && d.runs == map[] && d.plans == map[] && d.commands == map[]
  }

  /** The memory of a process with one operation, suspended at `e`. */
  function Busy(c: Config, instance: nat, id: Id, since: Time, e: Engine): Mem {
    Boot(instance).(sections := map[id := Running(c, Boot(instance), id, since)], engines := map[id := e])
  }

  lemma Installed(c: Config) returns (s: State)
    ensures Reachable(c, s) && s.mode == Up(Boot(1)) && s.now == 0 && s.d.keys == map[]
    ensures Stands(s.d, TaskRow("p", PENDING, true, None, NoState, 0), map[], map[])
  {
    assert Reachable(c, Fresh(0)) by {
      assert Runs(c, Fresh(0), []) && Reached(c, Fresh(0), []) == Fresh(0);
    }
    hide Reachable;
    s := Startup(c, Fresh(0));
    s := ThenTask(c, s, NewProject("p"));
    s := ThenTask(c, s, NewTask(0, "p"));
  }

  const RUNNING_OP := OpRow(0, "p", Deployment, OpRunning, false)

  lemma FirstStarts(c: Config) returns (s: State)
    requires ValidConfig(c)
    ensures Reachable(c, s) && s.mode == Up(Busy(c, 1, 1, 0, Precheck(0))) && s.now == 0 && LeaseOf(c, s.d, 1, 1, 0)
    ensures Stands(s.d, TaskRow("p", PENDING, true, None, NoState, 0), map[1 := RUNNING_OP], map[])
    ensures SECOND !in s.d.keys && BACK !in s.d.keys
  {
    hide Reachable;
    var s0 := Installed(c);
    s := Starts(c, s0, 1, Deployment, "first", 0);
    assert s.mode.mem == Busy(c, 1, 1, 0, Precheck(0));
  }

  const DEPLOYING_ROW := DeployRow(0, DeployRunning, Some("a"), None, V1, BARE, None, None, None)
  const FAILED_ROW := DEPLOYING_ROW.(status := DeployFailed)
  const DEPLOYED_ONCE := TaskRow("p", FAILED, true, Some(2), FromDeploy(V1), 0)

  lemma FirstRecords(c: Config, s: State) returns (s': State)
    requires Reachable(c, s) && s.mode == Up(Busy(c, 1, 1, 0, Precheck(0)))
    requires Stands(s.d, TaskRow("p", PENDING, true, None, NoState, 0), map[1 := RUNNING_OP], map[])
    ensures Reachable(c, s') && s' == s.(d := s'.d, mode := Up(Busy(c, 1, 1, 0, Deploying(2, 0, BARE, DeployActing))))
    ensures s'.d.keys == s.d.keys
    ensures Stands(s'.d, DEPLOYED_ONCE.(status := DEPLOYING), map[1 := RUNNING_OP], map[2 := DEPLOYING_ROW])
  {
    RecordWorks(s.d, s.mode.mem);
    var l := RecordDeploy(1, 2, BARE, Some("a"), V1, None);
    FirstMayRecord(s.d, s.mode.mem, l);
    BusyMoves(c, 1, 1, 0, Precheck(0), Deploying(2, 0, BARE, DeployActing));
    hide Reachable, DeployRecord, Stands, DeployEnabled, Busy, Unused;
    s' := ThenDeploy(c, s, l);
  }

  lemma FirstMayRecord(d: Durable, m: Mem, l: DeployLabel)
    requires Stands(d, TaskRow("p", PENDING, true, None, NoState, 0), map[1 := RUNNING_OP], map[])
    requires EngineIs(m, 1) && m.engines[1] == Precheck(0) && m.sections.Keys == {1}
    requires l.RecordDeploy? && l.op == 1 && l.drawn == 2
    ensures DeployEnabled(d, m, l)
  {}

  lemma BusyMoves(c: Config, instance: nat, id: Id, since: Time, e: Engine, e': Engine)
    ensures At(Busy(c, instance, id, since, e), id, e') == Busy(c, instance, id, since, e')
    ensures EngineIs(Busy(c, instance, id, since, e), id) && Busy(c, instance, id, since, e).engines[id] == e
    ensures Busy(c, instance, id, since, e).sections.Keys == {id}
  {
    assert map[id := e][id := e'] == map[id := e'];
  }

  lemma RecordWorks(d: Durable, m: Mem)
    requires 1 in m.engines && m.engines[1] == Precheck(0)
    requires Stands(d, TaskRow("p", PENDING, true, None, NoState, 0), map[1 := RUNNING_OP], map[])
    ensures var r := DeployRecord(d, m, 1, 2, BARE, Some("a"), V1, None);
            && r.mem == At(m, 1, Deploying(2, 0, BARE, DeployActing)) && Last(d, r.writes).keys == d.keys
            && Stands(Last(d, r.writes), DEPLOYED_ONCE.(status := DEPLOYING), map[1 := RUNNING_OP],
                      map[2 := DEPLOYING_ROW])
  {
    var row := DeployRow(0, Preparing, Some("a"), None, V1, BARE, None, None, None);
    var d1 := Recorded(d, 2, row);
    assert d1.tasks == map[0 := DEPLOYED_ONCE.(status := PENDING)] && d1.deployments == map[2 := row];
    var moved := SetStatus(d1, 0, DEPLOYING);
    assert moved.Some? && moved.value.tasks == map[0 := DEPLOYED_ONCE.(status := DEPLOYING)];
    assert Last(d, RecordWrites(d, 2, row) + DeployBegins(moved.value, 2)) ==
           SetDeploy(moved.value, 2, DEPLOYING_ROW);
    hide SetStatus, DeployFail, Recorded, RecordWrites;
  }

  lemma FirstErrs(c: Config, s: State) returns (s': State)
    requires Reachable(c, s) && s.mode == Up(Busy(c, 1, 1, 0, Deploying(2, 0, BARE, DeployActing)))
    requires Stands(s.d, DEPLOYED_ONCE.(status := DEPLOYING), map[1 := RUNNING_OP], map[2 := DEPLOYING_ROW])
    ensures Reachable(c, s') && s' == s.(d := s'.d, mode := Up(Busy(c, 1, 1, 0, Returned(false, RowTarget(2)))))
    ensures s'.d.keys == s.d.keys
    ensures Stands(s'.d, DEPLOYED_ONCE, map[1 := RUNNING_OP], map[2 := FAILED_ROW])
  {
    hide Reachable;
    s' := ThenDeploy(c, s, FailDeploy(1));
    assert s'.mode.mem == Busy(c, 1, 1, 0, Returned(false, RowTarget(2)));
  }

  const FAILED_OP := RUNNING_OP.(status := OpFailed, target := RowTarget(2))

  /** Operation 1 deploys the task at version 1 and fails. */
  lemma FirstFails(c: Config) returns (s: State)
    requires ValidConfig(c)
    ensures Reachable(c, s) && s.mode == Up(Boot(1)) && s.now == 0 && LeaseFree(s.d, 0)
    ensures Stands(s.d, DEPLOYED_ONCE, map[1 := FAILED_OP], map[2 := FAILED_ROW])
    ensures SECOND !in s.d.keys && BACK !in s.d.keys
  {
    hide Reachable, Perform, Enabled;
    var s0 := FirstStarts(c);
    s0 := FirstRecords(c, s0);
    s0 := FirstErrs(c, s0);
    s := FirstEnds(c, s0);
  }

  lemma FirstEnds(c: Config, s: State) returns (s': State)
    requires Reachable(c, s) && s.mode == Up(Busy(c, 1, 1, 0, Returned(false, RowTarget(2))))
    requires LeaseOf(c, s.d, 1, 1, 0)
    requires Stands(s.d, DEPLOYED_ONCE, map[1 := RUNNING_OP], map[2 := FAILED_ROW])
    requires SECOND !in s.d.keys && BACK !in s.d.keys
    ensures Reachable(c, s') && s' == s.(d := s'.d, mode := Up(Boot(1))) && LeaseFree(s'.d, 0)
    ensures Stands(s'.d, DEPLOYED_ONCE, map[1 := FAILED_OP], map[2 := FAILED_ROW])
    ensures SECOND !in s'.d.keys && BACK !in s'.d.keys
  {
    hide Reachable;
    s' := ThenOp(c, s, FinishOperation(1));
    assert s'.mode.mem == Boot(1);
  }

  const HALF_RECORDED := DEPLOYED_ONCE.(deployment := Some(4))
  const CUT_ROW := DeployRow(0, Preparing, Some("b"), None, V2, BARE, None, None, None)
  const LOST_OP := RUNNING_OP.(status := OpUnknown)

  /** Operation 3 deploys it again, at version 2, and the process dies behind `setDeployment`. */
  lemma SecondIsCut(c: Config) returns (s: State)
    requires ValidConfig(c)
    ensures Reachable(c, s) && s.mode == Starting(0) && BACK !in s.d.keys && LeaseOf(c, s.d, 1, 3, s.now)
    ensures Stands(s.d, HALF_RECORDED, map[1 := FAILED_OP, 3 := RUNNING_OP], map[2 := FAILED_ROW, 4 := CUT_ROW])
  {
    hide Reachable;
    var s0 := FirstFails(c);
    var s1 := Starts(c, s0, 3, Deployment, "second", 0);
    s := SecondRecords(c, s1);
  }

  lemma SecondRecords(c: Config, s: State) returns (s': State)
    requires Reachable(c, s) && s.mode.Up? && EngineIs(s.mode.mem, 3) && s.mode.mem.engines[3] == Precheck(0)
    requires s.mode.mem.sections.Keys == {3}
    requires Stands(s.d, DEPLOYED_ONCE, map[1 := FAILED_OP, 3 := RUNNING_OP], map[2 := FAILED_ROW])
    ensures Reachable(c, s') && s' == s.(d := s'.d, mode := Starting(0)) && s'.d.keys == s.d.keys
    ensures Stands(s'.d, HALF_RECORDED, map[1 := FAILED_OP, 3 := RUNNING_OP], map[2 := FAILED_ROW, 4 := CUT_ROW])
  {
    var l := RecordDeploy(3, 4, BARE, Some("b"), V2, None);
    SecondMayRecord(s.d, s.mode.mem, l);
    SecondWrites(s.d, s.mode.mem);
    hide Reachable, DeployRecord, DeployEnabled, Unused, Stands;
    s' := ThenDies(c, s, l, 1);
  }

  lemma SecondMayRecord(d: Durable, m: Mem, l: DeployLabel)
    requires Stands(d, DEPLOYED_ONCE, map[1 := FAILED_OP, 3 := RUNNING_OP], map[2 := FAILED_ROW])
    requires EngineIs(m, 3) && m.engines[3] == Precheck(0) && m.sections.Keys == {3}
    requires l.RecordDeploy? && l.op == 3 && l.drawn == 4
    ensures DeployEnabled(d, m, l)
  {}

  lemma SecondWrites(d: Durable, m: Mem)
    requires 3 in m.engines && m.engines[3] == Precheck(0)
    requires Stands(d, DEPLOYED_ONCE, map[1 := FAILED_OP, 3 := RUNNING_OP], map[2 := FAILED_ROW])
    ensures var writes := DeployRecord(d, m, 3, 4, BARE, Some("b"), V2, None).writes;
            && |writes| > 1 && writes[1].keys == d.keys
            && Stands(writes[1], HALF_RECORDED, map[1 := FAILED_OP, 3 := RUNNING_OP],
                      map[2 := FAILED_ROW, 4 := CUT_ROW])
  {
    hide SetStatus, DeployFail, DeployBegins;
    assert DeployRecord(d, m, 3, 4, BARE, Some("b"), V2, None).writes[1] == RecordWrites(d, 4, CUT_ROW)[1];
    hide DeployRecord;
  }

  /** After the lease has expired the agent starts again: the operation is UNKNOWN, the task needs
      recovery. */
  lemma Restarted(c: Config) returns (s: State)
    requires ValidConfig(c)
    ensures Reachable(c, s) && s.mode == Up(Boot(s.boots)) && BACK !in s.d.keys && LeaseFree(s.d, s.now)
    ensures Stands(s.d, HALF_RECORDED.(status := RECOVERY_REQUIRED), map[1 := FAILED_OP, 3 := LOST_OP],
                   map[2 := FAILED_ROW, 4 := CUT_ROW])
  {
    hide Reachable;
    var s0 := SecondIsCut(c);
    var s1 := Then(c, s0, Pass(c.opTtl));
    RebootedTables(s1.d);
    s := Startup(c, s1);
  }

  lemma RebootedTables(d: Durable)
    requires Stands(d, HALF_RECORDED, map[1 := FAILED_OP, 3 := RUNNING_OP], map[2 := FAILED_ROW, 4 := CUT_ROW])
    ensures Stands(Rebooted(d), HALF_RECORDED.(status := RECOVERY_REQUIRED), map[1 := FAILED_OP, 3 := LOST_OP],
                   map[2 := FAILED_ROW, 4 := CUT_ROW])
  {
    var d1 := d.(ops := ReconcileOps(d.ops), jobs := ReconcileJobs(d.jobs));
    var d2 := d1.(tasks := MarkInterrupted(d1.tasks));
    assert d1.ops == map[1 := FAILED_OP, 3 := LOST_OP] && d1.jobs == map[];
    assert d2.tasks == map[0 := HALF_RECORDED];
    assert UnknownWork(d2, 0) by { assert d2.ops[3].task == 0 && d2.ops[3].status.OpUnknown?; }
    assert MarkUnknown(d2) == map[0 := HALF_RECORDED.(status := RECOVERY_REQUIRED)];
  }

  const PLAN := PlanRow(0, "p", 4, Some("b"), Some("b"), V1, PlanReady, None)

  /** Plan 6 is drafted in call 5 from the half-recorded task, and ready. */
  lemma Plans(c: Config) returns (s: State)
    requires ValidConfig(c)
    ensures Reachable(c, s) && s.mode == Up(Boot(s.boots)) && BACK !in s.d.keys && LeaseFree(s.d, s.now)
    ensures Planned(s.d, PLAN) && 7 !in s.d.ops
  {
    hide Reachable;
    var s0 := Restarted(c);
    var s1 := Drafts(c, s0);
    s := Commits(c, s1);
  }

  /** What the rest of the run looks at. */
  ghost predicate Planned(d: Durable, plan: PlanRow) {
    && d.projects == {"p"} && d.jobs == map[] && d.runs == map[] && d.commands == map[]
    && d.tasks.Keys == {0} && d.tasks[0].status == ROLLBACK_REQUIRED
    && d.deployments.Keys == {2, 4} && d.deployments[4] == CUT_ROW
    && d.plans == map[6 := plan]
  }

  const DRAFT := Draft(0, "p", 4, Some("b"), None, V1)
  const LOOKED := Observed(true, Some("b"), V1, true, true)

  lemma Drafts(c: Config, s: State) returns (s': State)
    requires Reachable(c, s) && s.mode == Up(Boot(s.boots))
    requires Stands(s.d, HALF_RECORDED.(status := RECOVERY_REQUIRED), map[1 := FAILED_OP, 3 := LOST_OP],
                    map[2 := FAILED_ROW, 4 := CUT_ROW])
    ensures Reachable(c, s') && s' == s.(mode := Up(Boot(s.boots).(drafts := map[5 := DRAFT])))
  {
    hide Reachable;
    s' := ThenRoll(c, s, BeginPlan(5, 0, "p"));
    assert s'.mode.mem.drafts == map[5 := DRAFT];
  }

  lemma Commits(c: Config, s: State) returns (s': State)
    requires Reachable(c, s) && s.mode == Up(Boot(s.boots).(drafts := map[5 := DRAFT]))
    requires Stands(s.d, HALF_RECORDED.(status := RECOVERY_REQUIRED), map[1 := FAILED_OP, 3 := LOST_OP],
                    map[2 := FAILED_ROW, 4 := CUT_ROW])
    ensures Reachable(c, s') && s' == s.(d := s'.d, mode := Up(Boot(s.boots))) && s'.d.keys == s.d.keys
    ensures Planned(s'.d, PLAN) && 7 !in s'.d.ops
  {
    MayCommit(s.d, s.mode.mem);
    PlanWorks(s.d, s.mode.mem);
    hide Reachable, PlanCommit, Planned, Stands, RollEnabled;
    s' := ThenRoll(c, s, CommitPlan(5, 6, false, LOOKED));
  }

  lemma MayCommit(d: Durable, m: Mem)
    requires m.drafts == map[5 := DRAFT] && m.sections == map[]
    requires Stands(d, HALF_RECORDED.(status := RECOVERY_REQUIRED), map[1 := FAILED_OP, 3 := LOST_OP],
                    map[2 := FAILED_ROW, 4 := CUT_ROW])
    ensures RollEnabled(d, m, CommitPlan(5, 6, false, LOOKED))
  {}

  lemma PlanWorks(d: Durable, m: Mem)
    requires m.drafts == map[5 := DRAFT]
    requires Stands(d, HALF_RECORDED.(status := RECOVERY_REQUIRED), map[1 := FAILED_OP, 3 := LOST_OP],
                    map[2 := FAILED_ROW, 4 := CUT_ROW])
    ensures var r := PlanCommit(d, m, 5, 6, false, LOOKED);
            && r.mem == m.(drafts := map[]) && Last(d, r.writes).keys == d.keys
            && Planned(Last(d, r.writes), PLAN) && 7 !in Last(d, r.writes).ops
  {
    var d1 := d.(plans := d.plans[6 := PLAN]);
    var d2 := SetRollback(d1, 0, 6);
    PlanTables(d, d1, d2);
    PlanIsReady6();
    assert m.drafts - {5} == map[];
    hide PlannedRow, PlannedStatus, SetStatus, Stands, SetRollback, Planned;
    assert PlanCommit(d, m, 5, 6, false, LOOKED).writes == [d1, d2] + IfMoved(SetStatus(d2, 0, ROLLBACK_REQUIRED));
    hide PlanCommit;
  }

  lemma PlanTables(d: Durable, d1: Durable, d2: Durable)
    requires Stands(d, HALF_RECORDED.(status := RECOVERY_REQUIRED), map[1 := FAILED_OP, 3 := LOST_OP],
                    map[2 := FAILED_ROW, 4 := CUT_ROW])
    requires d1 == d.(plans := d.plans[6 := PLAN]) && d2 == SetRollback(d1, 0, 6)
    ensures var moved := SetStatus(d2, 0, ROLLBACK_REQUIRED);
            moved.Some? && moved.value.keys == d.keys && Planned(moved.value, PLAN) && 7 !in moved.value.ops
  {
    assert d2.tasks == map[0 := HALF_RECORDED.(status := RECOVERY_REQUIRED, rollback := FromPlan(6))];
    assert d1.plans == map[6 := PLAN];
    ReadyToRoll(d2);
    hide SetStatus;
  }

  lemma PlanIsReady6()
    ensures PlannedRow(DRAFT, false, LOOKED) == PLAN && PlannedStatus(PLAN) == ROLLBACK_REQUIRED
  {
    SameIsSafe(V1);
  }

  lemma ReadyToRoll(d: Durable)
    requires 0 in d.tasks && d.tasks[0].status == RECOVERY_REQUIRED
    ensures SetStatus(d, 0, ROLLBACK_REQUIRED).Some?
  {}

  const CHECK := Check(BARE, true, Some("b"), V1)

  lemma Opens(c: Config) returns (s: State)
    requires ValidConfig(c)
    ensures Reachable(c, s) && s.mode.Up? && EngineIs(s.mode.mem, 7) && s.mode.mem.engines[7] == Checking(6, BARE)
    ensures Planned(s.d, PLAN)
  {
    hide Reachable;
    var s0 := Plans(c);
    var s1 := Starts(c, s0, 7, Rollback, "back", 6);
    s := ThenRoll(c, s1, OpenRollback(7, BARE));
  }

  /** In a reachable state the command of plan 6 has run, after one check that saw version 1; the
      deployment it rolls back recorded version 2. It never began: without that exception what
      `Guarantees.RollbackRunsOnceChecked` says of the migration version would be false. */
  lemma CommandRunsMisled(c: Config) returns (s: State)
    requires ValidConfig(c)
    ensures Reachable(c, s) && 6 in s.d.plans && s.d.plans[6].deployment == 4 && 4 in s.d.deployments
    ensures Ran(s.d.commands, 6) == [CHECK] && !CHECK.setup.noAdapter
    ensures !Began(s.d.deployments[4]) && !SeenBefore(CHECK, s.d.deployments[4].migration)
  {
    hide Reachable;
    var s0 := Opens(c);
    CheckRuns(s0.d, s0.mode.mem);
    hide RollRun;
    s := ThenRoll(c, s0, RunRollback(7, CHECK));
  }

  lemma CheckRuns(d: Durable, m: Mem)
    requires 7 in m.engines && m.engines[7] == Checking(6, BARE) && Planned(d, PLAN)
    ensures var w := Last(d, RollRun(d, m, 7, CHECK).writes);
            w.deployments == d.deployments && w.commands == map[6 := [CHECK]]
            && w.plans == map[6 := PLAN.(status := PlanRollingBack)]
  {
    SameIsSafe(V1);
    assert CheckPasses(PLAN, CHECK);
    hide CheckPasses, RollFail;
    var d1 := SetPlan(d, 6, PlanRollingBack);
    assert d1.plans == map[6 := PLAN.(status := PlanRollingBack)];
    var moved := SetStatus(d1, 0, ROLLING_BACK);
    assert 0 in d1.tasks && ROLLING_BACK in Allowed(d1.tasks[0].status) && moved.Some?;
    hide SetStatus;
    assert [] + [CHECK] == [CHECK] && d.commands[6 := [CHECK]] == map[6 := [CHECK]];
    var d3 := moved.value.(commands := map[6 := [CHECK]]);
    assert 6 !in d.commands && RollRun(d, m, 7, CHECK).writes == [d1, moved.value, d3];
  }
}
