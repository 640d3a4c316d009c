/** What the agent promises, over every run from a fresh installation. */
module Guarantees {
  import opened Prelude
  import opened KeyTable
  import opened Store
  import opened Runtime
  import opened Engines
  import opened Agent
  import opened Frame
  import opened KeyInvariant
  import opened KeyHistory
  import opened LeaseInvariant
  import opened WorkInvariant
  import opened Evidence
  import opened Workflow
  import opened EngineInvariant
  import opened WorkHistory
  import opened UnknownInvariant
  import opened RunsInvariant
  import opened Safety
  import opened History
  import opened Outcomes

  /** A state some run reaches from a fresh installation. */
  ghost predicate Reachable(c: Config, s: State) {
    exists start: Time, es: seq<Event> :: Runs(c, Fresh(start), es) && Reached(c, Fresh(start), es) == s
  }

  lemma ReachableInv(c: Config, s: State)
    requires ValidConfig(c) && Reachable(c, s)
    ensures Inv(c, s)
  {
    hide Inv, Runs, Reached;
    var start: Time, es: seq<Event> :| Runs(c, Fresh(start), es) && Reached(c, Fresh(start), es) == s;
    FreshIsSound(c, start);
    RunKeepsInv(c, Fresh(start), es);
  }

  lemma InvParts(c: Config, s: State)
    requires Inv(c, s)
    ensures DKeys(s.d) && RowsOk(s.d) && WorkRefs(s.d) && RunsOk(s.d, c.maxAttempts)
    ensures s.mode.Up? ==> Alive(c, s.d, s.mode.mem, s.now)
  {
    hide DKeys, RowsOk, WorkRefs, RunsOk, Alive, Booted;
  }

  // ---------------------------------------------------------------- leases and work rows

  /** At most one leased section of a project is ever active, and while it is the stored lease is
      its own and alive. */
  lemma OneSectionPerProject(c: Config, s: State, a: Id, b: Id)
    requires ValidConfig(c) && Reachable(c, s) && s.mode.Up? && a in s.mode.mem.sections && b in s.mode.mem.sections
    ensures s.mode.mem.sections[a].project == s.mode.mem.sections[b].project ==> a == b
    ensures Owns(s.d.keys, s.mode.mem.sections[a].project, s.mode.mem.sections[a].owner)
    ensures GetLease(s.d.keys, s.mode.mem.sections[a].project).Some?
            && GetLease(s.d.keys, s.mode.mem.sections[a].project).value.expires > s.now
  {
    ReachableInv(c, s);
    InvParts(c, s);
    hide Inv;
    AliveParts(c, s.d, s.mode.mem, s.now);
    hide Alive, KeysInv, WorkInv, EvidenceInv, UnknownInv, RunsInv, RowsOk, DKeys, RunsOk, WorkRefs;
    assert HoldsLease(s.d.keys, s.now, s.mode.mem.sections[a]);
  }

  /** While the agent is up, RUNNING rows and live executors are the same thing; so no RUNNING job
      is out of reach of `cancel`, and the job limits hold. */
  lemma RowsAndExecutorsAgree(c: Config, s: State, a: Id)
    requires ValidConfig(c) && Reachable(c, s) && s.mode.Up?
    ensures var m := s.mode.mem;
            && ((a in s.d.ops && s.d.ops[a].status.OpRunning?) <==> (a in m.sections && m.sections[a].stage.Operation?))
            && ((a in s.d.jobs && s.d.jobs[a].status.JobRunning?)
                 <==> (a in m.sections && m.sections[a].stage.JobLive?))
            && CancelReplyFor(s.d, m, a) != NotAttached
            && JobLimits(s.d.jobs, c.maxJobs)
  {
    ReachableInv(c, s);
    InvParts(c, s);
    hide Inv;
    AliveParts(c, s.d, s.mode.mem, s.now);
    hide Alive, KeysInv, LeaseInv, EvidenceInv, UnknownInv, RunsInv, RowsOk, DKeys, RunsOk, WorkRefs;
    NotAttachedIsUnreachable(c, s.d, s.mode.mem, a);
    hide JobLimits;
  }

  /** Once every promise `shutdown` waits for has settled, no operation row is RUNNING. */
  lemma ShutdownIsClean(c: Config, s: State)
    requires ValidConfig(c) && Reachable(c, s) && s.mode.Up?
    requires s.mode.mem.stopping.Some? && s.mode.mem.stopping.value !! ActiveOps(s.mode.mem)
    ensures forall o | o in s.d.ops :: !s.d.ops[o].status.OpRunning?
  {
    ReachableInv(c, s);
    InvParts(c, s);
    AliveParts(c, s.d, s.mode.mem, s.now);
    hide Inv, Reachable, Alive, KeysInv, LeaseInv, WorkInv, EvidenceInv, UnknownInv, RunsInv, RowsOk, DKeys, RunsOk,
         WorkRefs, ActiveOps;
    ShutdownLeavesNothingRunning(c, s.d, s.mode.mem);
  }

  // ---------------------------------------------------------------- idempotency

  /** In every state each effect has begun at most once for its key, a key whose effect has begun
      is still there, and a completed key names a row that exists. */
  lemma EffectsBeginOnce(c: Config, s: State, k: KeyId)
    requires ValidConfig(c) && Reachable(c, s)
    ensures k in s.d.begun ==> s.d.begun[k] == 1 && k in s.d.keys
    ensures k in s.d.keys && s.d.keys[k].status.Completed? ==>
              Answers(k, s.d.keys[k].result, s.d.outcomes, s.d.ops, s.d.jobs)
  {
    ReachableInv(c, s);
    InvParts(c, s);
    hide Inv, Sound, RowsOk, WorkRefs, RunsOk, Alive;
  }

  /** In every state a completed key of a guarded call holds the result its own effect returned, and
      a failed one either never began its effect or saw it throw. */
  lemma GuardedAnswersAreReal(c: Config, s: State, k: KeyId)
    requires ValidConfig(c) && Reachable(c, s) && k in s.d.keys && GuardScope(k.scope)
    ensures s.d.keys[k].status.Completed? ==>
              && k in s.d.begun && k in s.d.outcomes && s.d.outcomes[k].Some?
              && s.d.keys[k].result == Value(s.d.outcomes[k].value)
    ensures s.d.keys[k].status.Failed? ==> k !in s.d.begun || (k in s.d.outcomes && s.d.outcomes[k].None?)
  {
    ReachableInv(c, s);
    InvParts(c, s);
    hide Inv, Sound, RowsOk, WorkRefs, RunsOk, Alive, Reachable;
    if s.d.keys[k].status.Failed? && k in s.d.begun { assert Threw(k, s.d.outcomes); }
  }

  /** At this event the effect behind `k` begins. */
  ghost predicate BeginsAt(c: Config, s: State, e: Event, k: KeyId)
    requires Fires(c, s, e)
  {
    k !in s.d.begun && k in After(c, s, e).d.begun
  }

  /** At this event the key `k` disappears. */
  ghost predicate DropsAt(c: Config, s: State, e: Event, k: KeyId)
    requires Fires(c, s, e)
  {
    k in s.d.keys && k !in After(c, s, e).d.keys
  }

  ghost function Begins(c: Config, s: State, es: seq<Event>, k: KeyId): nat
    requires Runs(c, s, es)
    decreases |es|
  {
    if es == [] then 0
    else (if BeginsAt(c, s, es[0], k) then 1 else 0) + Begins(c, After(c, s, es[0]), es[1..], k)
  }

  ghost function Drops(c: Config, s: State, es: seq<Event>, k: KeyId): nat
    requires Runs(c, s, es)
    decreases |es|
  {
    if es == [] then 0
    else (if DropsAt(c, s, es[0], k) then 1 else 0) + Drops(c, After(c, s, es[0]), es[1..], k)
  }

  /** A key stays, with its answer once given and its effect once begun. */
  ghost predicate KeyStays(d: Durable, d': Durable, k: KeyId) {
    && (k in d.keys ==> k in d'.keys && (!d.keys[k].status.InProgress? ==> d'.keys[k] == d.keys[k]))
    && (k in d.begun ==> k in d'.begun)
  }

  /** Retention drops it: not in progress, and older than the cutoff. */
  predicate Retired(d: Durable, e: Event, k: KeyId) {
    e.Start? && e.part.BootKeys? && k in d.keys && Prunable(d.keys[k], e.part.cutoff)
  }

  lemma PartKeepsKey(d: Durable, now: Time, n: nat, p: Part, k: KeyId)
    requires PartFires(d, now, n, p) && DKeys(d) && !k.scope.LeaseScope?
    ensures KeyStays(d, AfterPart(d, p), k)
            || (Retired(d, Start(p), k) && k !in AfterPart(d, p).keys && k !in AfterPart(d, p).begun)
  {
    hide ReconcileOps, ReconcileJobs, MarkInterrupted, MarkUnknown, PruneRuns;
  }

  lemma WriteKeepsKey(c: Config, d: Durable, m: Mem, now: Time, l: Label, w: Durable, k: KeyId)
    requires ValidConfig(c) && Alive(c, d, m, now) && Enabled(d, m, l) && !k.scope.LeaseScope?
             && w in Perform(c, d, m, now, l).writes
    ensures KeyStays(d, w, k)
  {
    AliveParts(c, d, m, now);
    StretchKeepsAlive(c, d, m, now, l);
    hide *;
    AnswersStep(c, d, m, now, l);
    SettledKeyStays(d, Perform(c, d, m, now, l).writes, w, k);
  }

  lemma SettledKeyStays(d: Durable, ws: seq<Durable>, w: Durable, k: KeyId)
    requires SettlesAll(d, ws) && w in ws && !k.scope.LeaseScope?
    ensures KeyStays(d, w, k)
  {
    assert Settles(d, w);
  }

  /** What an event may do to a key. */
  ghost predicate KeyOutcome(d: Durable, d': Durable, e: Event, k: KeyId) {
    KeyStays(d, d', k) || (Retired(d, e, k) && k !in d'.keys && k !in d'.begun)
  }

  lemma StartKeepsKey(c: Config, s: State, p: Part, k: KeyId)
    requires DKeys(s.d) && Fires(c, s, Start(p)) && !k.scope.LeaseScope?
    ensures KeyOutcome(s.d, After(c, s, Start(p)).d, Start(p), k)
  {
    PartKeepsKey(s.d, s.now, s.mode.part, p, k);
    if p.BootServe? { ServeWritesNothing(s.d, p); }
    hide PartFires, AfterPart, KeyStays, DKeys, Retired;
  }

  lemma ActKeepsKey(c: Config, s: State, e: Event, k: KeyId)
    requires ValidConfig(c) && s.mode.Up? && Alive(c, s.d, s.mode.mem, s.now) && Fires(c, s, e)
             && (e.Act? || e.CutShort?) && !k.scope.LeaseScope?
    ensures KeyOutcome(s.d, After(c, s, e).d, e, k)
  {
    hide Alive, Enabled, Perform, KeyStays, Retired, PartFires;
    StretchKeepsKey(c, s, e.step, if e.CutShort? then e.at + 1 else 0, k);
  }

  /** Only retention drops a key, and never one in progress. */
  lemma EventKeepsKey(c: Config, s: State, e: Event, k: KeyId)
    requires ValidConfig(c) && Inv(c, s) && Fires(c, s, e) && !k.scope.LeaseScope?
    ensures KeyStays(s.d, After(c, s, e).d, k)
            || (Retired(s.d, e, k) && k !in After(c, s, e).d.keys && k !in After(c, s, e).d.begun)
  {
    InvParts(c, s);
    SameKeyStays(s.d, k);
    hide Inv, Enabled, Perform, PartFires, AfterPart, KeyStays, DKeys, RowsOk, WorkRefs, RunsOk, Retired, Alive;
    match e {
      case Act(_) => ActKeepsKey(c, s, e, k); hide After;
      case CutShort(_, _) => ActKeepsKey(c, s, e, k); hide After;
      case Start(p) => StartKeepsKey(c, s, p, k); hide After;
      case _ =>
    }
  }

  lemma SameKeyStays(d: Durable, k: KeyId)
    ensures KeyStays(d, d, k)
  {}

  lemma StretchKeepsKey(c: Config, s: State, l: Label, n: nat, k: KeyId)
    requires ValidConfig(c) && s.mode.Up? && Alive(c, s.d, s.mode.mem, s.now) && !k.scope.LeaseScope?
             && Enabled(s.d, s.mode.mem, l)
    requires n <= |Perform(c, s.d, s.mode.mem, s.now, l).writes|
    ensures KeyStays(s.d, Last(s.d, Perform(c, s.d, s.mode.mem, s.now, l).writes[..n]), k)
    ensures KeyStays(s.d, Last(s.d, Perform(c, s.d, s.mode.mem, s.now, l).writes), k)
  {
    hide Alive, Enabled, Perform, KeyStays;
    var ws := Perform(c, s.d, s.mode.mem, s.now, l).writes;
    SameKeyStays(s.d, k);
    forall w | w in ws ensures KeyStays(s.d, w, k) { WriteKeepsKey(c, s.d, s.mode.mem, s.now, l, w, k); }
  }

  /** Over any run the effect behind a key begins at most once more than the key was dropped:
      between two beginnings retention must have removed the key. */
  lemma {:induction false} BeginsAtMostOncePerKey(c: Config, s: State, es: seq<Event>, k: KeyId)
    requires ValidConfig(c) && Inv(c, s) && Runs(c, s, es) && !k.scope.LeaseScope?
    ensures Begins(c, s, es, k) <= Drops(c, s, es, k) + if k in s.d.begun then 0 else 1
    decreases |es|
  {
    hide Inv, Fires, After, Retired;
    if es != [] {
      EventKeepsInv(c, s, es[0]);
      EventKeepsKey(c, s, es[0], k);
      InvParts(c, s);
      hide RowsOk, WorkRefs, RunsOk, Alive;
      BeginsAtMostOncePerKey(c, After(c, s, es[0]), es[1..], k);
    }
  }

  /** While a settled key is not dropped it stays as it is: a completed one replays the same answer, a
      failed one refuses. */
  lemma {:induction false} AnswersAreStable(c: Config, s: State, es: seq<Event>, k: KeyId)
    requires ValidConfig(c) && Inv(c, s) && Runs(c, s, es) && !k.scope.LeaseScope?
    requires k in s.d.keys && !s.d.keys[k].status.InProgress? && Drops(c, s, es, k) == 0
    ensures k in Reached(c, s, es).d.keys && Reached(c, s, es).d.keys[k] == s.d.keys[k]
    decreases |es|
  {
    hide Inv, Fires, After, Retired;
    if es != [] {
      EventKeepsInv(c, s, es[0]);
      EventKeepsKey(c, s, es[0], k);
      AnswersAreStable(c, After(c, s, es[0]), es[1..], k);
    }
  }

  // ---------------------------------------------------------------- UNKNOWN work

  lemma PartKeepsFound(d: Durable, now: Time, n: nat, p: Part, t: Id)
    requires PartFires(d, now, n, p) && Found(d, t)
    ensures Found(AfterPart(d, p), t)
  {
    var w := AfterPart(d, p);
    assert UnknownWork(w, t) by { PartKeepsUnknown(d, now, n, p, t); }
    hide UnknownWork;
  }

  lemma PartKeepsUnknown(d: Durable, now: Time, n: nat, p: Part, t: Id)
    requires PartFires(d, now, n, p) && UnknownWork(d, t)
    ensures UnknownWork(AfterPart(d, p), t)
  {
    var w := AfterPart(d, p);
    if UnknownOp(d.ops, t) {
      var o :| o in d.ops && d.ops[o].task == t && d.ops[o].status.OpUnknown?;
      assert o in w.ops && w.ops[o] == d.ops[o];
    } else {
      var j :| j in d.jobs && d.jobs[j].attached == Some(t) && d.jobs[j].status.JobUnknown?;
      assert j in w.jobs && w.jobs[j] == d.jobs[j];
    }
  }

  lemma StretchKeepsFound(c: Config, d: Durable, m: Mem, now: Time, l: Label, n: nat, t: Id)
    requires ValidConfig(c) && Alive(c, d, m, now) && Enabled(d, m, l) && Found(d, t)
             && n < |Perform(c, d, m, now, l).writes|
    ensures Found(Perform(c, d, m, now, l).writes[n], t)
  {
    StretchKeepsAlive(c, d, m, now, l);
    hide Alive, Enabled, Perform, UnknownInv, RunsAfter, Written, AllKeys, WorkRefs, AllFound, Found;
    assert Remains(d, Perform(c, d, m, now, l).writes[n]);
  }

  lemma EventKeepsFound(c: Config, s: State, e: Event, t: Id)
    requires ValidConfig(c) && Inv(c, s) && Fires(c, s, e) && Found(s.d, t)
    ensures forall w | w in WritesOf(c, s, e) :: Found(w, t)
    ensures Found(After(c, s, e).d, t)
  {
    AfterIsLast(c, s, e);
    InvParts(c, s);
    hide Inv, Enabled, Perform, PartFires, AfterPart, Found, DKeys, RowsOk, WorkRefs, RunsOk, After, Alive;
    var ws := WritesOf(c, s, e);
    forall n | 0 <= n < |ws| ensures Found(ws[n], t) {
      match e
      case Act(l) => StretchKeepsFound(c, s.d, s.mode.mem, s.now, l, n, t);
      case CutShort(l, i) => StretchKeepsFound(c, s.d, s.mode.mem, s.now, l, n, t);
      case Start(p) => PartKeepsFound(s.d, s.now, s.mode.part, p, t);
      case _ =>
    }
    hide WritesOf;
  }

  /** Once a task that is not terminal has UNKNOWN work, no run of any length, further crashes
      included, ever leads it out of the recovery statuses, in any state the database takes. */
  lemma {:induction false} UnknownIsForGood(c: Config, s: State, es: seq<Event>, t: Id)
    requires ValidConfig(c) && Inv(c, s) && Runs(c, s, es) && Found(s.d, t)
    ensures Found(Reached(c, s, es).d, t) && forall w | w in Trail(c, s, es) :: Found(w, t)
    decreases |es|
  {
    hide Inv, Fires, After, Found, WritesOf;
    if es != [] {
      EventKeepsInv(c, s, es[0]);
      EventKeepsFound(c, s, es[0], t);
      UnknownIsForGood(c, After(c, s, es[0]), es[1..], t);
    }
  }

  /** The restart finds it: whenever the agent is up, every task with UNKNOWN work that is not
      terminal is in a recovery status. */
  lemma UnknownIsFound(c: Config, s: State, t: Id)
    requires ValidConfig(c) && Reachable(c, s) && s.mode.Up?
    requires t in s.d.tasks && UnknownWork(s.d, t) && !Terminal(s.d.tasks[t].status)
    ensures Found(s.d, t)
  {
    ReachableInv(c, s);
    InvParts(c, s);
    AliveParts(c, s.d, s.mode.mem, s.now);
    UnknownParts(s.d, s.mode.mem);
    hide Inv, Alive, KeysInv, LeaseInv, WorkInv, EvidenceInv, UnknownInv, RunsInv, RowsOk, DKeys, RunsOk, WorkRefs,
         UnknownWork;
  }

  // ---------------------------------------------------------------- rollbacks

  /** What the check before a rollback command saw, compared with what the plan and, unless it was
      cut short before it began, the deployment recorded. */
  ghost predicate CheckedAgainst(check: Check, plan: PlanRow, deployment: DeployRow) {
    && check.clean
    && check.head == plan.observed
    && (check.setup.noAdapter || SeenBefore(check, plan.before))
    && (check.setup.noAdapter || !Began(deployment) || SeenBefore(check, deployment.migration))
  }

  /** The check saw the migration version that was recorded. */
  ghost predicate SeenBefore(check: Check, recorded: Migration.Raw) {
    && Migration.Known(recorded) && Migration.Known(check.migration)
    && Migration.SameVersion(recorded, check.migration)
  }

  /** In every state a plan's command has run at most once, after a check that saw a clean tree,
      HEAD where planning saw it and the migration version from before the deployment, provided
      that the deployment began. */
  lemma RollbackRunsOnceChecked(c: Config, s: State, plan: Id)
    requires ValidConfig(c) && Reachable(c, s) && plan in s.d.plans
    ensures var row := s.d.plans[plan];
            && row.deployment in s.d.deployments
            && |Ran(s.d.commands, plan)| <= 1
            && (forall check | check in Ran(s.d.commands, plan) ::
                 CheckedAgainst(check, row, s.d.deployments[row.deployment]))
  {
    ReachableInv(c, s);
    InvParts(c, s);
    hide Inv, DKeys, WorkRefs, RunsOk, Alive, Reachable;
    var row := s.d.plans[plan];
    assert PlanOk(row, Ran(s.d.commands, plan), s.d.tasks, s.d.deployments);
    hide RowsOk;
    forall check | check in Ran(s.d.commands, plan)
      ensures CheckedAgainst(check, row, s.d.deployments[row.deployment])
    {
      Migration.SafeMeansSameKnownVersion(check.setup.noAdapter, row.before, check.migration);
    }
  }

  /** The migration state a plan of the task would start from is the one its deployment recorded. */
  ghost predicate Vouched(d: Durable, t: Id)
    requires t in d.tasks
  {
    var row := d.tasks[t];
    row.deployment.Some? && row.deployment.value in d.deployments ==>
      Migration.SameIfKnown(MigrationOf(row.rollback), d.deployments[row.deployment.value].migration)
  }

  /** Every command of a plan drafted like this, whatever is observed at planning and before the
      command, follows a check that saw the recorded migration version. */
  ghost predicate AlwaysSeen(draft: Draft, recorded: Migration.Raw) {
    forall noAdapter, seen, check: Check |
      PlanIsReady(draft, noAdapter, seen) && CheckPasses(PlannedRow(draft, noAdapter, seen), check) ::
      check.setup.noAdapter || SeenBefore(check, recorded)
  }

  /** Exactly when: the draft has no target, or its migration state is the recorded one. */
  lemma AlwaysSeenIff(draft: Draft, recorded: Migration.Raw)
    ensures AlwaysSeen(draft, recorded) <==> draft.target.None? || Migration.SameIfKnown(draft.migration, recorded)
  {
    if draft.target.Some? && Migration.Known(draft.migration) && !Migration.SameIfKnown(draft.migration, recorded) {
      var seen := Observed(true, draft.deployed, draft.migration, true, true);
      var check := Check(Project_(false, false, false, false, false), true, draft.deployed, draft.migration);
      SameIsSafe(draft.migration);
      assert PlanIsReady(draft, false, seen) && CheckPasses(PlannedRow(draft, false, seen), check);
      assert !SeenBefore(check, recorded);
    }
    if Migration.SameIfKnown(draft.migration, recorded) {
      forall noAdapter, seen, check: Check |
        PlanIsReady(draft, noAdapter, seen) && CheckPasses(PlannedRow(draft, noAdapter, seen), check)
        ensures check.setup.noAdapter || SeenBefore(check, recorded)
      {
        if !check.setup.noAdapter { PassedSawDraft(draft, noAdapter, seen, check); }
      }
    }
  }

  lemma SameIsSafe(raw: Migration.Raw)
    requires Migration.Known(raw)
    ensures Migration.Assess(false, raw, raw) == Migration.Safe
    ensures Migration.Assess(false, Migration.Recorded(false, raw), raw) == Migration.Safe
  {
    Migration.SafeMeansSameKnownVersion(false, raw, raw);
    Migration.SnapshotTwice(raw, false, raw);
  }

  lemma PassedSawDraft(draft: Draft, noAdapter: bool, seen: Observed, check: Check)
    requires CheckPasses(PlannedRow(draft, noAdapter, seen), check) && !check.setup.noAdapter
    ensures SeenBefore(check, draft.migration)
  {
    Migration.SafeMeansSameKnownVersion(false, Migration.Recorded(noAdapter, draft.migration), check.migration);
  }

  lemma RecordVouches(d: Durable, dep: Id, row: DeployRow, n: nat)
    requires row.task in d.tasks && dep !in d.deployments
    requires Vouched(d, row.task) && d.tasks[row.task].deployment != Some(dep)
    ensures row.task in Recorded(d, dep, row).tasks && Vouched(Recorded(d, dep, row), row.task)
    ensures n < 3 ==> row.task in RecordWrites(d, dep, row)[n].tasks
    ensures n < 3 ==> (Vouched(RecordWrites(d, dep, row)[n], row.task) <==>
                        (n == 1 ==> Migration.SameIfKnown(MigrationOf(d.tasks[row.task].rollback), row.migration)))
  {}

  lemma FailureVouches(d: Durable, dep: Id, t: Id)
    requires t in d.tasks && dep in d.deployments && Vouched(d, t)
    ensures forall w | w in DeployFail(d, dep, t) :: t in w.tasks && Vouched(w, t)
  {
    var d1 := SetDeploy(d, dep, d.deployments[dep].(status := DeployFailed));
    assert Vouched(d1, t);
    if RecordError(d1, t).Some? { assert Vouched(RecordError(d1, t).value, t); }
    hide Vouched, SetDeploy, RecordError;
  }

  lemma BeginningVouches(d: Durable, dep: Id, t: Id)
    requires t in d.tasks && dep in d.deployments && Vouched(d, t) && SetStatus(d, t, DEPLOYING).Some?
    ensures forall w | w in DeployBegins(SetStatus(d, t, DEPLOYING).value, dep) :: t in w.tasks && Vouched(w, t)
  {}

  /** The record-keeping, then the catch block or the beginning of the deployment. */
  ghost predicate AfterRecord(d: Durable, dep: Id, t: Id, rest: seq<Durable>)
    requires dep in d.deployments
  {
    var moved := SetStatus(d, t, DEPLOYING);
    rest == if moved.None? then DeployFail(d, dep, t) else DeployBegins(moved.value, dep)
  }

  lemma RecordSplits(d: Durable, m: Mem, o: Id, dep: Id, setup: Project_, before: Option<Commit>,
          migration: Migration.Raw, validation: Option<bool>) returns (rest: seq<Durable>)
    requires o in m.engines && m.engines[o].Precheck? && m.engines[o].task in d.tasks
    requires DeployRecord(d, m, o, dep, setup, before, migration, validation).writes != []
    ensures var t := m.engines[o].task;
            var row := DeployRow(t, Preparing, before, None, migration, setup, validation, None, None);
            && DeployRecord(d, m, o, dep, setup, before, migration, validation).writes ==
                 RecordWrites(d, dep, row) + rest
            && AfterRecord(Recorded(d, dep, row), dep, t, rest)
  {
    var t := m.engines[o].task;
    var row := DeployRow(t, Preparing, before, None, migration, setup, validation, None, None);
    hide DeployFail, SetStatus, RecordWrites;
    var moved := SetStatus(Recorded(d, dep, row), t, DEPLOYING);
    rest := if moved.None? then DeployFail(Recorded(d, dep, row), dep, t) else DeployBegins(moved.value, dep);
  }

  lemma AfterRecordVouches(d: Durable, dep: Id, t: Id, rest: seq<Durable>)
    requires t in d.tasks && dep in d.deployments && Vouched(d, t) && AfterRecord(d, dep, t, rest)
    ensures forall w | w in rest :: t in w.tasks && Vouched(w, t)
  {
    hide Vouched, SetStatus, DeployFail, DeployBegins;
    FailureVouches(d, dep, t);
    if SetStatus(d, t, DEPLOYING).Some? { BeginningVouches(d, dep, t); }
  }

  /** What a crash leaves of the record-keeping of `deploy`: after each of its statements but one a
      plan of the task is vouched for. After `setDeployment` it is only if an earlier deployment
      left no other known migration state; that state would pass for the new deployment's. */
  lemma CutRecordIff(d: Durable, m: Mem, o: Id, dep: Id, setup: Project_, before: Option<Commit>,
          migration: Migration.Raw, validation: Option<bool>, n: nat)
    requires o in m.engines && m.engines[o].Precheck? && m.engines[o].task in d.tasks && dep !in d.deployments
    requires Vouched(d, m.engines[o].task) && d.tasks[m.engines[o].task].deployment != Some(dep)
    requires n < |DeployRecord(d, m, o, dep, setup, before, migration, validation).writes|
    ensures var t, w := m.engines[o].task, DeployRecord(d, m, o, dep, setup, before, migration, validation).writes[n];
            t in w.tasks
            && (Vouched(w, t) <==> (n == 1 ==> Migration.SameIfKnown(MigrationOf(d.tasks[t].rollback), migration)))
  {
    var t := m.engines[o].task;
    var row := DeployRow(t, Preparing, before, None, migration, setup, validation, None, None);
    var writes, d1 := DeployRecord(d, m, o, dep, setup, before, migration, validation).writes, Recorded(d, dep, row);
    var rest := RecordSplits(d, m, o, dep, setup, before, migration, validation);
    hide DeployRecord, DeployFail, DeployBegins, SetStatus, Vouched;
    RecordVouches(d, dep, row, n);
    assert |RecordWrites(d, dep, row)| == 3;
    hide RecordWrites, Recorded;
    if n < 3 {
      assert writes[n] == RecordWrites(d, dep, row)[n];
    } else {
      AfterRecordVouches(d1, dep, t, rest);
      assert writes[n] == rest[n - 3] && rest[n - 3] in rest;
    }
  }

  /** While a rollback verifies, its one command has exited cleanly and left HEAD at the target. */
  lemma VerifyingFollowsCleanExit(c: Config, s: State, o: Id)
    requires ValidConfig(c) && Reachable(c, s) && s.mode.Up? && o in s.mode.mem.engines
    requires s.mode.mem.engines[o].RollingBack? && !s.mode.mem.engines[o].rollStage.RollActing?
    ensures var e := s.mode.mem.engines[o];
            && e.rollStage.clean && e.plan in s.d.plans && e.rollStage.head.Some?
            && e.rollStage.head == s.d.plans[e.plan].target
            && |Ran(s.d.commands, e.plan)| == 1
  {
    ReachableInv(c, s);
    InvParts(c, s);
    AliveParts(c, s.d, s.mode.mem, s.now);
    InvRows(s.d, s.mode.mem);
    VerifyingIsClean(s.d, s.mode.mem, o);
    hide *;
  }

  lemma VerifyingIsClean(d: Durable, m: Mem, o: Id)
    requires RowsOk(d) && EnginesOk(d, m) && o in m.engines
    requires m.engines[o].RollingBack? && !m.engines[o].rollStage.RollActing?
    ensures var e := m.engines[o];
            && e.rollStage.clean && e.plan in d.plans && e.rollStage.head.Some?
            && e.rollStage.head == d.plans[e.plan].target
            && |Ran(d.commands, e.plan)| == 1
  {
    assert EngineOk(d, m.sections[o].project, m.engines[o]);
    hide EnginesOk;
    assert PlanOk(d.plans[m.engines[o].plan], Ran(d.commands, m.engines[o].plan), d.tasks, d.deployments);
    hide RowsOk;
  }

  /** A SUCCEEDED rollback's one command exited cleanly and left HEAD at the commit its deployment had
      recorded before deploying, its service active and its health HEALTHY where the project requires
      them. */
  lemma SucceededRollbackIsRestored(c: Config, s: State, plan: Id)
    requires ValidConfig(c) && Reachable(c, s) && plan in s.d.plans && s.d.plans[plan].status.PlanSucceeded?
    ensures var row := s.d.plans[plan];
            && row.result.Some? && row.deployment in s.d.deployments
            && row.result.value.clean && row.result.value.head.Some?
               && row.result.value.head == s.d.deployments[row.deployment].before
            && (row.result.value.setup.service ==> row.result.value.service == Some(true))
            && (row.result.value.setup.health && row.result.value.setup.healthRequired ==>
                 row.result.value.health == Some(Healthy))
            && |Ran(s.d.commands, plan)| == 1
  {
    ReachableInv(c, s);
    InvParts(c, s);
    hide Inv, DKeys, WorkRefs, RunsOk, Alive, Reachable;
    assert PlanOk(s.d.plans[plan], Ran(s.d.commands, plan), s.d.tasks, s.d.deployments);
    hide RowsOk;
  }

  // ---------------------------------------------------------------- deployments

  /** A SUCCEEDED deployment has its evidence on record, in every state. */
  lemma SucceededDeployIsProven(c: Config, s: State, dep: Id)
    requires ValidConfig(c) && Reachable(c, s) && dep in s.d.deployments && s.d.deployments[dep].status.DeploySucceeded?
    ensures DeployProven(s.d.deployments[dep])
  {
    ReachableInv(c, s);
    InvParts(c, s);
    hide Inv, DKeys, WorkRefs, RunsOk, Alive, Reachable;
    assert DeployOk(s.d.deployments[dep], s.d.tasks);
  }

  /** How a deployment that returns leaves its row and its task. */
  ghost predicate DeployOutcome(d: Durable, dep: Id, t: Id) {
    && dep in d.deployments && t in d.tasks
    && (|| (d.deployments[dep].status.DeploySucceeded? && DeployProven(d.deployments[dep])
         && d.tasks[t].status == COMPLETED)
        || (d.deployments[dep].status.DeployFailed? && d.tasks[t].status == FAILED))
  }

  lemma FailedOutcome(d: Durable, dep: Id, t: Id)
    requires dep in d.deployments && t in d.tasks && !Terminal(d.tasks[t].status)
    ensures DeployOutcome(Last(d, DeployFail(d, dep, t)), dep, t)
  {
    var d1 := SetDeploy(d, dep, d.deployments[dep].(status := DeployFailed));
    assert RecordError(d1, t).Some?;
    assert DeployFail(d, dep, t) == [d1, RecordError(d1, t).value];
  }

  lemma FinishOutcome(d: Durable, m: Mem, o: Id, health: Health)
    requires DeployAt(d, m, o) && m.engines[o].deployStage.DeployHealth?
    requires m.engines[o].task in d.tasks && !Terminal(d.tasks[m.engines[o].task].status)
    requires DeployingOk(d, m.engines[o].deployment, m.engines[o].task, m.engines[o].setup, m.engines[o].deployStage)
    requires DeployOk(d.deployments[m.engines[o].deployment], d.tasks)
    ensures DeployOutcome(Last(d, DeployFinish(d, m, o, health).writes), m.engines[o].deployment, m.engines[o].task)
  {
    var e := m.engines[o];
    var row1 := d.deployments[e.deployment].(health := Some(health));
    var d1 := SetDeploy(d, e.deployment, row1);
    if e.setup.healthRequired && health != Healthy {
      FailedOutcome(d1, e.deployment, e.task);
      hide DeployFail, DeployOutcome, SetStatus;
      return;
    }
    var row2 := row1.(status := DeploySucceeded, service := e.deployStage.service);
    var d2 := SetDeploy(d1, e.deployment, row2);
    assert DeployProven(row2);
    hide DeployProven, DeployOk, DeployOutcome, DeployFail, SetStatus;
    if SetStatus(d2, e.task, COMPLETED).None? {
      FailedOutcome(d2, e.deployment, e.task);
    } else {
      CompletedOutcome(d2, e.deployment, e.task);
    }
  }

  lemma CompletedOutcome(d: Durable, dep: Id, t: Id)
    requires dep in d.deployments && d.deployments[dep].status.DeploySucceeded? && DeployProven(d.deployments[dep])
    requires SetStatus(d, t, COMPLETED).Some?
    ensures DeployOutcome(SetStatus(d, t, COMPLETED).value, dep, t)
  {
    hide DeployProven;
  }

  /** An operation suspended in `deploy`, at the stage the label resumes. */
  predicate InDeploy(m: Mem, l: DeployLabel) {
    l.op in m.engines && if l.RecordDeploy? then m.engines[l.op].Precheck? else m.engines[l.op].Deploying?
  }

  function DeployTask(m: Mem, l: DeployLabel): Id
    requires InDeploy(m, l)
  {
    m.engines[l.op].task
  }

  function DeployRowId(m: Mem, l: DeployLabel): Id
    requires InDeploy(m, l)
  {
    if l.RecordDeploy? then l.drawn else m.engines[l.op].deployment
  }

  lemma DeployStretchOutcome(d: Durable, m: Mem, l: DeployLabel)
    requires EvidenceInv(d, m) && DeployEnabled(d, m, l)
    requires DeployTask(m, l) in d.tasks && !Terminal(d.tasks[DeployTask(m, l)].status)
    ensures var s, dep := PerformDeploy(d, m, l), DeployRowId(m, l);
            l.op in s.mem.engines && s.mem.engines[l.op].Returned? && dep in Last(d, s.writes).deployments ==>
              DeployOutcome(Last(d, s.writes), dep, DeployTask(m, l))
  {
    var o := l.op;
    var e := m.engines[o];
    InvRows(d, m);
    assert EngineOk(d, m.sections[o].project, e);
    hide EvidenceInv, EnginesOk, CallsOk;
    match l
    case RecordDeploy(_, dep, setup, before, migration, validation) =>
      hide RowsOk; RecordOutcome(d, m, o, dep, setup, before, migration, validation); hide DeployOutcome, DeployRecord;
    case FailDeploy(_) => hide RowsOk; FailedOutcome(d, e.deployment, e.task); hide DeployOutcome, DeployFail;
    case DeployedTo(_, _) => hide RowsOk, DeployOutcome;
    case DeployServiceIs(_, _) =>
      hide RowsOk; FailedOutcome(d, e.deployment, e.task); hide DeployOutcome, DeployFail, SetStatus;
    case DeployHealthIs(_, health) =>
      assert DeployOk(d.deployments[e.deployment], d.tasks);
      hide RowsOk;
      FinishOutcome(d, m, o, health);
      hide DeployOutcome, DeployFinish;
  }

  lemma RecordOutcome(d: Durable, m: Mem, o: Id, dep: Id, setup: Project_, before: Option<Commit>,
          migration: Migration.Raw, validation: Option<bool>)
    requires o in m.engines && m.engines[o].Precheck? && m.engines[o].task in d.tasks && dep !in d.deployments
    requires !Terminal(d.tasks[m.engines[o].task].status)
    ensures var s := DeployRecord(d, m, o, dep, setup, before, migration, validation);
            o in s.mem.engines && s.mem.engines[o].Returned? && dep in Last(d, s.writes).deployments ==>
                DeployOutcome(Last(d, s.writes), dep, m.engines[o].task)
  {
    var t := m.engines[o].task;
    var row := DeployRow(t, Preparing, before, None, migration, setup, validation, None, None);
    FailedOutcome(Recorded(d, dep, row), dep, t);
    hide DeployFail, DeployOutcome, SetStatus;
  }

  lemma AfterDeploy(c: Config, s: State, l: DeployLabel)
    requires s.mode.Up? && DeployEnabled(s.d, s.mode.mem, l)
    ensures var r := PerformDeploy(s.d, s.mode.mem, l);
            Fires(c, s, Act(OnDeploy(l)))
              && After(c, s, Act(OnDeploy(l))) == s.(d := Last(s.d, r.writes), mode := Up(r.mem))
  {
    hide PerformDeploy, DeployEnabled;
  }

  /** From any task status that is not terminal, whoever set it, a deployment that returns after
      it recorded its row leaves SUCCEEDED with COMPLETED, or FAILED with FAILED. */
  lemma DeployReturns(c: Config, s: State, l: DeployLabel)
    requires ValidConfig(c) && Reachable(c, s) && s.mode.Up? && DeployEnabled(s.d, s.mode.mem, l)
             && InDeploy(s.mode.mem, l)
    requires DeployTask(s.mode.mem, l) in s.d.tasks && !Terminal(s.d.tasks[DeployTask(s.mode.mem, l)].status)
    ensures Fires(c, s, Act(OnDeploy(l)))
    ensures var s', dep := After(c, s, Act(OnDeploy(l))), DeployRowId(s.mode.mem, l);
            s'.mode.Up?
            && (l.op in s'.mode.mem.engines && s'.mode.mem.engines[l.op].Returned? && dep in s'.d.deployments ==>
                  DeployOutcome(s'.d, dep, DeployTask(s.mode.mem, l)))
  {
    ReachableInv(c, s);
    InvParts(c, s);
    hide Inv, Reachable, DKeys, RowsOk, WorkRefs, RunsOk;
    AliveParts(c, s.d, s.mode.mem, s.now);
    AfterDeploy(c, s, l);
    hide *;
    DeployStretchOutcome(s.d, s.mode.mem, l);
  }

  // ---------------------------------------------------------------- what SUCCEEDED means

  lemma StretchOutcome(c: Config, d: Durable, m: Mem, now: Time, l: Label)
    requires ValidConfig(c) && Alive(c, d, m, now) && Enabled(d, m, l) && Outcome(d, m)
    ensures OutcomeAfter(d, Perform(c, d, m, now, l))
  {
    AliveParts(c, d, m, now);
    InvRows(d, m);
    hide *;
    if EngineLabel(l) {
      EngineLabelStep(c, d, m, now, l);
      EngineOutcome(c, d, m, now, l);
    } else {
      WorkOutcome(c, d, m, now, l);
    }
  }

  lemma WorkOutcome(c: Config, d: Durable, m: Mem, now: Time, l: Label)
    requires EvidenceInv(d, m) && WorkInv(c, d, m) && Enabled(d, m, l) && !EngineLabel(l) && Outcome(d, m)
    ensures OutcomeAfter(d, Perform(c, d, m, now, l))
  {
    InvRows(d, m);
    hide EvidenceInv, WorkInv, RowsOk, EnginesOk, CallsOk, Outcome, OutcomeAfter, PerformOp, PerformJob, OpEnabled,
         JobEnabled, WorkChain;
    WorkEvidence(c, d, m, now, l);
    if l.OnOp? { OpOutcomeStep(c, d, m, now, l.o); } else { JobOutcomeStep(c, d, m, now, l.j); }
  }

  ghost predicate Credible(s: State) {
    SuccessesBacked(s.d) && (s.mode.Up? ==> EnginesFit(s.d, s.mode.mem))
  }

  lemma PartKeepsCredible(d: Durable, now: Time, n: nat, p: Part)
    requires SuccessesBacked(d) && PartFires(d, now, n, p)
    ensures SuccessesBacked(AfterPart(d, p))
  {
    hide MarkInterrupted, MarkUnknown, PruneRuns, Prune;
    var w := AfterPart(d, p);
    forall o | o in w.ops && w.ops[o].status.OpSucceeded? ensures Backed(w, w.ops[o], w.ops[o].target) {
      assert Backed(d, d.ops[o], d.ops[o].target);
    }
  }

  lemma EventKeepsCredible(c: Config, s: State, e: Event)
    requires ValidConfig(c) && Inv(c, s) && Fires(c, s, e) && Credible(s)
    ensures Credible(After(c, s, e))
  {
    InvParts(c, s);
    hide Inv, Alive, DKeys, RowsOk, WorkRefs, RunsOk, Enabled, Perform, PartFires, AfterPart, SuccessesBacked,
         EnginesFit;
    match e
    case Act(l) => StretchOutcome(c, s.d, s.mode.mem, s.now, l);
    case CutShort(l, i) => StretchOutcome(c, s.d, s.mode.mem, s.now, l);
    case Start(p) => PartKeepsCredible(s.d, s.now, s.mode.part, p); NothingSuspended(s.d, s.boots + 1);
    case _ =>
  }

  lemma NothingSuspended(d: Durable, instance: nat)
    ensures EnginesFit(d, Boot(instance))
  {}

  lemma {:induction false} RunKeepsCredible(c: Config, s: State, es: seq<Event>)
    requires ValidConfig(c) && Inv(c, s) && Credible(s) && Runs(c, s, es)
    ensures Credible(Reached(c, s, es))
    decreases |es|
  {
    hide Inv, Fires, After, Credible;
    if es != [] {
      EventKeepsInv(c, s, es[0]);
      EventKeepsCredible(c, s, es[0]);
      RunKeepsCredible(c, After(c, s, es[0]), es[1..]);
    }
  }

  lemma ReachableIsCredible(c: Config, s: State)
    requires ValidConfig(c) && Reachable(c, s)
    ensures Credible(s)
  {
    var start: Time, es: seq<Event> :| Runs(c, Fresh(start), es) && Reached(c, Fresh(start), es) == s;
    hide Inv, Runs, Reached;
    FreshIsSound(c, start);
    RunKeepsCredible(c, Fresh(start), es);
  }

  /** In every state, the target of a SUCCEEDED deployment operation is a SUCCEEDED deployment of its
      task with its evidence; that of a SUCCEEDED rollback operation is a SUCCEEDED plan of its task
      and project, verified at the commit the plan's deployment recorded before deploying. */
  lemma SucceededMeansDone(c: Config, s: State, o: Id)
    requires ValidConfig(c) && Reachable(c, s) && o in s.d.ops && s.d.ops[o].status.OpSucceeded?
    ensures DeploymentDone(s.d, s.d.ops[o]) && RollbackDone(s.d, s.d.ops[o])
    ensures s.d.ops[o].kind.Recovery? ==> s.d.ops[o].target.RunTarget? && s.d.ops[o].target.run.task == s.d.ops[o].task
  {
    ReachableIsCredible(c, s);
    ReachableInv(c, s);
    InvParts(c, s);
    hide Inv, Reachable, DKeys, WorkRefs, RunsOk, Alive, EnginesFit;
    assert Backed(s.d, s.d.ops[o], s.d.ops[o].target);
    BackedIsProven(s.d, s.d.ops[o]);
  }

  ghost predicate DeploymentDone(d: Durable, row: OpRow) {
    row.kind.Deployment? ==>
      && row.target.RowTarget? && row.target.id in d.deployments
      && var deployment := d.deployments[row.target.id];
         deployment.task == row.task && deployment.status.DeploySucceeded? && DeployProven(deployment)
  }

  ghost predicate RollbackDone(d: Durable, row: OpRow) {
    row.kind.Rollback? ==>
      && row.target.RowTarget? && row.target.id in d.plans
      && var plan := d.plans[row.target.id];
         && plan.task == row.task && plan.project == row.project && plan.status.PlanSucceeded? && RollProven(plan)
         && plan.deployment in d.deployments && plan.result.value.head == d.deployments[plan.deployment].before
  }

  lemma BackedIsProven(d: Durable, row: OpRow)
    requires RowsOk(d) && Backed(d, row, row.target)
    ensures DeploymentDone(d, row) && RollbackDone(d, row)
  {
    if row.kind.Deployment? {
      assert DeployOk(d.deployments[row.target.id], d.tasks);
    } else if row.kind.Rollback? {
      assert PlanOk(d.plans[row.target.id], Ran(d.commands, row.target.id), d.tasks, d.deployments);
    }
  }

  // ---------------------------------------------------------------- recovery attempts

  /** The attempts on record for a task that is not terminal are 1..n, n within the limit: COUNT is
      MAX. And an assessment under way never meets its own number. */
  lemma AttemptsAreNumbered(c: Config, s: State, t: Id, a: Id)
    requires ValidConfig(c) && Reachable(c, s)
    ensures t in s.d.tasks && !Terminal(s.d.tasks[t].status) ==>
              Numbered(s.d.runs, t, CountRuns(s.d.runs, t)) && CountRuns(s.d.runs, t) <= c.maxAttempts
    ensures s.mode.Up? && a in s.mode.mem.direct ==>
              RunId(s.mode.mem.direct[a].task, s.mode.mem.direct[a].attempt) !in s.d.runs
    ensures s.mode.Up? && a in s.mode.mem.engines && s.mode.mem.engines[a].Assessing? ==>
              RunId(s.mode.mem.engines[a].task, s.mode.mem.engines[a].attempt) !in s.d.runs
  {
    ReachableInv(c, s);
    InvParts(c, s);
    hide Inv, Reachable, DKeys, WorkRefs, RowsOk;
    if t in s.d.tasks && !Terminal(s.d.tasks[t].status) { assert TaskRunsOk(s.d, c.maxAttempts, t); }
    hide RunsOk, Numbered;
    if s.mode.Up? {
      AliveParts(c, s.d, s.mode.mem, s.now);
      hide Alive, KeysInv, LeaseInv, WorkInv, EvidenceInv, UnknownInv, RunsInv;
      UniqueNeverTrips(s.d, s.mode.mem, c.maxAttempts, a);
    }
  }

  /** Through the tool alone the model leaves nothing out: an operation about to assess may always
      go on, for its lease keeps every other assessment of the task away. */
  lemma ToolAssessmentsNeverOverlap(c: Config, s: State, o: Id)
    requires ValidConfig(c) && Reachable(c, s) && s.mode.Up? && s.mode.mem.direct == map[]
    requires EngineIs(s.mode.mem, o) && s.mode.mem.engines[o].ToAssess?
    ensures AssessEnabled(s.d, s.mode.mem, BeginAssess(o))
  {
    ReachableInv(c, s);
    InvParts(c, s);
    AliveParts(c, s.d, s.mode.mem, s.now);
    InvRows(s.d, s.mode.mem);
    ToAssessGoesOn(s.d, s.mode.mem, o);
    hide *;
  }

  lemma ToAssessGoesOn(d: Durable, m: Mem, o: Id)
    requires EnginesOk(d, m) && Exclusive(m.sections) && m.direct == map[] && EngineIs(m, o) && m.engines[o].ToAssess?
    ensures AssessEnabled(d, m, BeginAssess(o))
  {
    LeaseSerialisesAssessments(d, m, o);
  }

  // ---------------------------------------------------------------- nothing gets stuck

  /** Every suspended operation finds the rows its next stretch works on, so the guards on rows in
      `Enabled` exclude no reachable continuation. */
  lemma SuspendedOperationsResume(c: Config, s: State, o: Id)
    requires ValidConfig(c) && Reachable(c, s) && s.mode.Up?
    requires o in s.mode.mem.sections && s.mode.mem.sections[o].stage.Operation?
    ensures var m := s.mode.mem;
            && EngineIs(m, o) && o in s.d.ops
            && (m.engines[o].Precheck? ==> m.engines[o].task in s.d.tasks)
            && (m.engines[o].Deploying? ==> DeployAt(s.d, m, o))
            && (m.engines[o].Checking? || m.engines[o].RollingBack? ==> PlanAt(s.d, m.engines[o].plan))
  {
    ReachableInv(c, s);
    InvParts(c, s);
    AliveParts(c, s.d, s.mode.mem, s.now);
    InvRows(s.d, s.mode.mem);
    hide *;
    OperationResumes(c, s.d, s.mode.mem, o);
  }

  lemma OperationResumes(c: Config, d: Durable, m: Mem, o: Id)
    requires WorkInv(c, d, m) && EnginesOk(d, m) && RowsOk(d) && o in m.sections && m.sections[o].stage.Operation?
    ensures EngineIs(m, o) && o in d.ops
    ensures m.engines[o].Precheck? ==> m.engines[o].task in d.tasks
    ensures m.engines[o].Deploying? ==> DeployAt(d, m, o)
    ensures m.engines[o].Checking? || m.engines[o].RollingBack? ==> PlanAt(d, m.engines[o].plan)
  {
    assert EngineOk(d, m.sections[o].project, m.engines[o]);
    if m.engines[o].Checking? || m.engines[o].RollingBack? {
      assert PlanOk(d.plans[m.engines[o].plan], Ran(d.commands, m.engines[o].plan), d.tasks, d.deployments);
    }
    hide RowsOk, EnginesOk, PlanOk, JobsAgree, JobLimits;
  }

  /** So does every other suspended call: a job or guarded call finds its key in progress, a live
      job its row, a `plan` call its task, and `cancel` at most one running job of a task. These
      are the preconditions of the classes' continuations. */
  lemma SuspendedCallsResume(c: Config, s: State, a: Id, b: Id)
    requires ValidConfig(c) && Reachable(c, s) && s.mode.Up?
    ensures var m := s.mode.mem;
            && (a in m.sections && PendingKey(m.sections[a]).Some? ==> Pending(s.d, PendingKey(m.sections[a]).value))
            && (a in m.sections && m.sections[a].stage.JobLive? ==> a in s.d.jobs)
            && (a in m.drafts ==> m.drafts[a].task in s.d.tasks)
    ensures (a in RunningJobs(s.d.jobs) && b in RunningJobs(s.d.jobs) && s.d.jobs[a].attached.Some?
             && s.d.jobs[a].attached == s.d.jobs[b].attached) ==> a == b
  {
    ReachableInv(c, s);
    InvParts(c, s);
    AliveParts(c, s.d, s.mode.mem, s.now);
    InvRows(s.d, s.mode.mem);
    hide *;
    KeysPending(s.d, s.mode.mem, a);
    CallsResume(c, s.d, s.mode.mem, a, b);
  }

  lemma KeysPending(d: Durable, m: Mem, a: Id)
    requires KeysInv(d, m)
    ensures a in m.sections && PendingKey(m.sections[a]).Some? ==> Pending(d, PendingKey(m.sections[a]).value)
  {
    if a in m.sections && PendingKey(m.sections[a]).Some? { assert PendingOk(d.keys, d.begun, m.sections[a]); }
  }

  lemma CallsResume(c: Config, d: Durable, m: Mem, a: Id, b: Id)
    requires WorkInv(c, d, m) && CallsOk(d, m)
    ensures a in m.sections && m.sections[a].stage.JobLive? ==> a in d.jobs
    ensures a in m.drafts ==> m.drafts[a].task in d.tasks
    ensures (a in RunningJobs(d.jobs) && b in RunningJobs(d.jobs) && d.jobs[a].attached.Some?
             && d.jobs[a].attached == d.jobs[b].attached) ==> a == b
  {
    if a in m.drafts { assert DraftOk(d, m.drafts[a]); }
  }
}
