/** The invariants together, over every run of the agent: interleaved stretches, failures, crashes
    between any two statements, and restarts. */
module Safety {
  import opened KeyTable
  import opened Store
  import opened Runtime
  import opened Agent
  import opened Frame
  import opened KeyInvariant
  import opened LeaseInvariant
  import opened WorkInvariant
  import opened Evidence
  import opened EngineInvariant
  import opened WorkHistory
  import opened UnknownInvariant
  import opened RunsInvariant

  /** What every database state satisfies, even one a crash left behind. */
  ghost predicate Sound(c: Config, d: Durable) { DKeys(d) && RowsOk(d) && WorkRefs(d) && RunsOk(d, c.maxAttempts) }

  /** What a running agent and its database satisfy together. */
  ghost predicate Alive(c: Config, d: Durable, m: Mem, now: Time) {
    && KeysInv(d, m) && LeaseInv(d, m, now) && WorkInv(c, d, m)
    && EvidenceInv(d, m) && UnknownInv(d, m) && RunsInv(d, m, c.maxAttempts)
  }

  ghost predicate NoRunningOps(d: Durable) { forall o | o in d.ops :: !d.ops[o].status.OpRunning? }
  ghost predicate NoRunningJobs(d: Durable) { forall j | j in d.jobs :: !d.jobs[j].status.JobRunning? }
  ghost predicate NoneInterrupted(d: Durable) { forall t | t in d.tasks :: !Interrupted(d.tasks[t].status) }

  /** What the first n parts of the startup sequence establish. */
  ghost predicate Booted(d: Durable, n: nat) {
    && (n >= 1 ==> NoRunningOps(d))
    && (n >= 2 ==> NoRunningJobs(d))
    && (n >= 3 ==> NoneInterrupted(d))
    && (n >= 4 ==> AllFound(d))
  }

  ghost predicate Inv(c: Config, s: State) {
    && Sound(c, s.d)
    && match s.mode
       case Up(m) => Alive(c, s.d, m, s.now)
       case Starting(n) => Booted(s.d, n)
  }

  // ---------------------------------------------------------------- one stretch

  lemma AliveParts(c: Config, d: Durable, m: Mem, now: Time)
    requires Alive(c, d, m, now)
    ensures KeysInv(d, m) && LeaseInv(d, m, now) && WorkInv(c, d, m)
    ensures EvidenceInv(d, m) && UnknownInv(d, m) && RunsInv(d, m, c.maxAttempts)
    ensures RowsOk(d) && Exclusive(m.sections)
  {
    hide KeysInv, LeaseInv, WorkInv, UnknownInv, RunsInv, RowsOk, EnginesOk, CallsOk;
    MutualExclusion(d, m, now);
  }

  ghost predicate Written(c: Config, d: Durable, m: Mem, l: Label, s: Stretch) {
    if EngineLabel(l) then Chain(d, s.writes, ReachOf(m, l)) else WorkChain(d, s.writes)
  }

  lemma EvidenceStep(c: Config, d: Durable, m: Mem, now: Time, l: Label)
    requires EvidenceInv(d, m) && WorkInv(c, d, m) && Exclusive(m.sections) && Enabled(d, m, l)
    ensures Written(c, d, m, l, Perform(c, d, m, now, l))
    ensures EvidenceInv(Last(d, Perform(c, d, m, now, l).writes), Perform(c, d, m, now, l).mem)
    ensures EngineLabel(l) ==> EngineOnly(d, m, Perform(c, d, m, now, l))
  {
    if EngineLabel(l) {
      EngineLabelStep(c, d, m, now, l);
      InvRows(d, m);
      hide EvidenceInv, WorkInv, Exclusive, Chain, ReachOf, RowsOk, EnginesOk, CallsOk, Enabled, Perform, SameWorkAll;
      ChainSameWork(d, Perform(c, d, m, now, l).writes, ReachOf(m, l));
    } else {
      hide EvidenceInv, WorkInv, Exclusive, WorkChain, Enabled, Perform;
      WorkEvidence(c, d, m, now, l);
    }
  }

  lemma EngineLabelStep(c: Config, d: Durable, m: Mem, now: Time, l: Label)
    requires EvidenceInv(d, m) && Exclusive(m.sections) && Enabled(d, m, l) && EngineLabel(l)
    ensures Lawful(d, m, Perform(c, d, m, now, l), ReachOf(m, l))
  {
    hide EvidenceInv, Exclusive, Lawful, ReachOf;
    match l
    case OnTask(t) => hide PerformTask; TasksOkStep(d, m, t);
    case OnDeploy(e) => hide PerformDeploy; DeploysOkStep(d, m, e);
    case OnRoll(r) => hide PerformRoll; RollsOkStep(d, m, r);
    case OnAssess(a) => hide PerformAssess; AssessesOkStep(c, d, m, now, a);
  }

  lemma KeysAfter(d: Durable, m: Mem, s: Stretch)
    requires KeysInv(d, m) && AllKeys(s, d)
    ensures KeysInv(Last(d, s.writes), s.mem)
  {
    hide DKeys, LinkKeys;
  }

  /** A running agent stays sound through any stretch. */
  lemma StretchKeepsAlive(c: Config, d: Durable, m: Mem, now: Time, l: Label)
    requires ValidConfig(c) && Alive(c, d, m, now) && Enabled(d, m, l)
    ensures var s := Perform(c, d, m, now, l);
            Alive(c, Last(d, s.writes), s.mem, now) && Written(c, d, m, l, s) && AllKeys(s, d)
            && UnknownAfter(d, s) && RunsAfter(d, s, c.maxAttempts) && (EngineLabel(l) ==> EngineOnly(d, m, s))
  {
    var s := Perform(c, d, m, now, l);
    AliveParts(c, d, m, now);
    hide Alive, KeysInv, LeaseInv, WorkInv, EvidenceInv, UnknownInv, RunsInv, Enabled, Perform, RowsOk, AllKeys, Chain,
         WorkChain, Exclusive, ReachOf;
    EvidenceStep(c, d, m, now, l);
    hide EngineOnly;
    KeysStep(c, d, m, now, l);
    KeysAfter(d, m, s);
    LeaseStep(c, d, m, now, l);
    WorkStep(c, d, m, now, l);
    if EngineLabel(l) { EngineStretchUnknown(c, d, m, now, l); } else { WorkStretchUnknown(c, d, m, now, l); }
    RunsStep(c, d, m, now, l);
    AliveTogether(c, d, s, now);
  }

  lemma AliveTogether(c: Config, d: Durable, s: Stretch, now: Time)
    requires KeysInv(Last(d, s.writes), s.mem) && LeaseAfter(d, now, s) && WorkAfter(c, d, s)
    requires EvidenceInv(Last(d, s.writes), s.mem) && UnknownAfter(d, s) && RunsAfter(d, s, c.maxAttempts)
    ensures Alive(c, Last(d, s.writes), s.mem, now)
  {
    hide KeysInv, LeasesOk, WorkInv, EvidenceInv, UnknownInv, RunsInv;
  }

  lemma AliveIsSound(c: Config, d: Durable, m: Mem, now: Time)
    requires Alive(c, d, m, now)
    ensures Sound(c, d)
  {
    AliveParts(c, d, m, now);
    hide DKeys, LinkKeys, LeaseInv, WorkInv, RowsOk, WorkRefs, RunsOk, EnginesOk, CallsOk, AllFound, NoneDeploying,
         NoneCancelling, FlightsOk, OneFlight;
  }

  /** Every state a stretch writes is sound, so a crash may cut it anywhere. */
  lemma WritesAreSound(c: Config, d: Durable, m: Mem, s: Stretch, l: Label, n: nat)
    requires RowsOk(d) && Written(c, d, m, l, s) && AllKeys(s, d) && UnknownAfter(d, s)
             && RunsAfter(d, s, c.maxAttempts) && n < |s.writes|
    ensures Sound(c, s.writes[n])
  {
    assert s.writes[n] in s.writes;
    assert Remains(d, s.writes[n]);
    hide RowsOk, Chain, WorkChain, DKeys, LinkKeys, WorkRefs, AllFound, RunsOk, UnknownInv, RunsInv, ReachOf,
         SameEvidence, SameUnknown, Found;
    if EngineLabel(l) {
      ChainKeeps(d, s.writes, n, ReachOf(m, l));
    } else {
      ChainSameEvidence(d, s.writes, n);
      SameRowsOk(d, s.writes[n]);
    }
  }

  lemma SameRowsOk(d: Durable, w: Durable)
    requires RowsOk(d) && SameEvidence(d, w)
    ensures RowsOk(w)
  {
    hide PlanOk, DeployOk, TaskOk;
  }

  // ---------------------------------------------------------------- startup

  lemma PartKeepsRows(d: Durable, now: Time, n: nat, p: Part)
    requires RowsOk(d) && PartFires(d, now, n, p)
    ensures RowsOk(AfterPart(d, p)) && AfterPart(d, p).tasks.Keys == d.tasks.Keys
  {
    var w := AfterPart(d, p);
    if p.BootInterrupted? || p.BootUnknown? {
      hide PlanOk, DeployOk;
      MoreTasks(d, w.tasks);
      hide TaskOk;
      forall t | t in w.tasks ensures TaskOk(w.tasks[t], d.deployments) {
        SameTaskOk(d.tasks[t], w.tasks[t], d.deployments);
      }
    } else {
      hide PlanOk, DeployOk, TaskOk;
    }
  }

  lemma SameTaskOk(row: TaskRow, row': TaskRow, deployments: map<Id, DeployRow>)
    requires row' == row.(status := row'.status)
    ensures TaskOk(row, deployments) == TaskOk(row', deployments)
  {}

  lemma PartKeepsRefs(d: Durable, now: Time, n: nat, p: Part)
    requires WorkRefs(d) && PartFires(d, now, n, p)
    ensures WorkRefs(AfterPart(d, p))
  {}

  lemma PartKeepsRuns(d: Durable, now: Time, n: nat, p: Part, max: nat)
    requires RunsOk(d, max) && PartFires(d, now, n, p)
    ensures RunsOk(AfterPart(d, p), max)
  {
    if p.BootRuns? {
      PruningKeepsNumbers(d, max, p.cutoff);
    } else {
      hide RunsOk;
      NumbersStay(d, AfterPart(d, p), max);
    }
  }

  lemma PartBoots(d: Durable, now: Time, n: nat, p: Part)
    requires Booted(d, n) && PartFires(d, now, n, p) && !p.BootServe?
    ensures Booted(AfterPart(d, p), if p.BootReclaim? then n else n + 1)
  {
    match p
    case BootReclaim(_) =>
    case BootOps =>
    case BootJobs =>
    case BootInterrupted =>
    case BootUnknown => MarkedIsFound(d);
    case BootRuns(_) => SameFound(d, AfterPart(d, p));
    case BootKeys(_) => SameFound(d, AfterPart(d, p));
  }

  lemma MarkedIsFound(d: Durable)
    ensures AllFound(d.(tasks := MarkUnknown(d)))
  {
    var w := d.(tasks := MarkUnknown(d));
    forall t | t in w.tasks && UnknownWork(w, t) && !Terminal(w.tasks[t].status) ensures Confined(w.tasks[t].status) {
      SameWorkUnknown(d, w, t);
    }
  }

  lemma SameFound(d: Durable, w: Durable)
    requires w.tasks == d.tasks && w.ops == d.ops && w.jobs == d.jobs
    ensures AllFound(w) == AllFound(d) && forall t :: Found(w, t) == Found(d, t)
  {
    hide UnknownOp, UnknownJob, Confined;
  }

  lemma PartKeepsSound(c: Config, d: Durable, now: Time, n: nat, p: Part)
    requires Sound(c, d) && PartFires(d, now, n, p)
    ensures Sound(c, AfterPart(d, p))
  {
    hide DKeys, RowsOk, WorkRefs, RunsOk, PartFires, AfterPart;
    KeysBoot(d, now, n, p);
    PartKeepsRows(d, now, n, p);
    PartKeepsRefs(d, now, n, p);
    PartKeepsRuns(d, now, n, p, c.maxAttempts);
  }

  /** A freshly started process agrees with what the startup sequence left. */
  lemma ServingIsAlive(c: Config, d: Durable, now: Time, instance: nat)
    requires Sound(c, d) && Booted(d, 4)
    ensures Alive(c, d, Boot(instance), now)
  {
    hide KeysOk, RowsOk, WorkRefs, AllFound, RunsRefs, TaskRunsOk;
    assert RunningJobs(d.jobs) == {};
  }

  // ---------------------------------------------------------------- every event, every run

  lemma ActKeepsInv(c: Config, s: State, l: Label)
    requires ValidConfig(c) && Inv(c, s) && Fires(c, s, Act(l))
    ensures Inv(c, After(c, s, Act(l)))
  {
    hide Sound, Alive, Enabled, Perform;
    StretchKeepsAlive(c, s.d, s.mode.mem, s.now, l);
    AliveIsSound(c, After(c, s, Act(l)).d, After(c, s, Act(l)).mode.mem, s.now);
  }

  lemma CutKeepsInv(c: Config, s: State, l: Label, n: nat)
    requires ValidConfig(c) && Inv(c, s) && Fires(c, s, CutShort(l, n))
    ensures Inv(c, After(c, s, CutShort(l, n)))
  {
    hide Sound, Alive, Enabled, Perform, Written, AllKeys, UnknownAfter, RunsAfter, RowsOk;
    StretchKeepsAlive(c, s.d, s.mode.mem, s.now, l);
    AliveParts(c, s.d, s.mode.mem, s.now);
    WritesAreSound(c, s.d, s.mode.mem, Perform(c, s.d, s.mode.mem, s.now, l), l, n);
  }

  lemma PassKeepsInv(c: Config, s: State, dt: nat)
    requires Inv(c, s) && Fires(c, s, Pass(dt))
    ensures Inv(c, After(c, s, Pass(dt)))
  {
    hide Sound, KeysInv, LeasesOk, WorkInv, EvidenceInv, UnknownInv, RunsInv, InTime;
    if s.mode.Up? { PassKeepsLeases(s.mode.mem.instance, s.d.keys, s.now, dt, s.mode.mem); }
  }

  lemma StartKeepsInv(c: Config, s: State, p: Part)
    requires Inv(c, s) && Fires(c, s, Start(p))
    ensures Inv(c, After(c, s, Start(p)))
  {
    hide Sound, Alive;
    PartKeepsSound(c, s.d, s.now, s.mode.part, p);
    if p.BootServe? {
      ServingIsAlive(c, s.d, s.now, s.boots + 1);
    } else {
      hide Booted;
      PartBoots(s.d, s.now, s.mode.part, p);
    }
  }

  lemma EventKeepsInv(c: Config, s: State, e: Event)
    requires ValidConfig(c) && Inv(c, s) && Fires(c, s, e)
    ensures Inv(c, After(c, s, e))
  {
    match e
    case Act(l) => hide Inv, Enabled, Perform; ActKeepsInv(c, s, l);
    case CutShort(l, n) => hide Inv, Enabled, Perform; CutKeepsInv(c, s, l, n);
    case Crash => hide Sound, Alive;
    case Pass(dt) => hide Inv, InTime; PassKeepsInv(c, s, dt);
    case Start(p) => hide Inv, PartFires, AfterPart; StartKeepsInv(c, s, p);
  }

  lemma {:induction false} RunKeepsInv(c: Config, s: State, es: seq<Event>)
    requires ValidConfig(c) && Inv(c, s) && Runs(c, s, es)
    ensures Inv(c, Reached(c, s, es))
    decreases |es|
  {
    hide Inv, Fires, After;
    if es != [] {
      EventKeepsInv(c, s, es[0]);
      RunKeepsInv(c, After(c, s, es[0]), es[1..]);
    }
  }

  lemma FreshIsSound(c: Config, now: Time)
    ensures Inv(c, Fresh(now))
  {}
}
