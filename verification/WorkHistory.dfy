/** The writes of the work stretches: operations, jobs, guarded writes. Each changes at most one
    work row, once, and never a task, a run, a deployment or a plan. */
module WorkHistory {
  import opened Prelude
  import opened KeyTable
  import opened Store
  import opened Runtime
  import opened Agent
  import opened Evidence
  import opened Workflow
  import opened EngineInvariant
  import opened WorkInvariant

  ghost predicate SameEvidence(d: Durable, w: Durable) {
    && w.tasks == d.tasks && w.runs == d.runs
    && w.deployments == d.deployments && w.plans == d.plans && w.commands == d.commands
  }

  ghost predicate SameRows(d: Durable, w: Durable) { SameEvidence(d, w) && w.ops == d.ops && w.jobs == d.jobs }

  ghost predicate SameUnknown(d: Durable, w: Durable) {
    forall t: Id :: (UnknownOp(w.ops, t) <==> UnknownOp(d.ops, t)) && (UnknownJob(w.jobs, t) <==> UnknownJob(d.jobs, t))
  }

  /** One write: rows leave RUNNING once and for good, no row turns UNKNOWN or stops being it. */
  ghost predicate WorkMove(d: Durable, w: Durable) {
    SameEvidence(d, w) && OpsEvolve(d, w) && JobsEvolve(d, w) && SameUnknown(d, w)
  }

  ghost predicate WorkChain(d: Durable, ws: seq<Durable>) {
    forall i | 0 <= i < |ws| :: WorkMoveAt(d, ws, i)
  }

  ghost predicate WorkMoveAt(d: Durable, ws: seq<Durable>, i: nat)
    requires i < |ws|
  {
    WorkMove(Before(d, ws, i), ws[i])
  }

  lemma SameRowsMove(d: Durable, w: Durable)
    requires SameRows(d, w)
    ensures WorkMove(d, w)
  {}

  /** Only the n-th write touches a work row. */
  lemma OneChange(d: Durable, ws: seq<Durable>, n: nat)
    requires n < |ws| && WorkMove(d, ws[n])
    requires forall i | 0 <= i < n :: SameRows(d, ws[i])
    requires forall i | n <= i < |ws| :: SameRows(ws[n], ws[i])
    ensures WorkChain(d, ws)
  {
    forall i | 0 <= i < |ws| ensures WorkMoveAt(d, ws, i) {
      if i == n {
        MoveFromSame(d, Before(d, ws, i), ws[n]);
      } else {
        SameRowsMove(Before(d, ws, i), ws[i]);
      }
    }
  }

  lemma MoveFromSame(d: Durable, d': Durable, w: Durable)
    requires SameRows(d, d') && WorkMove(d, w)
    ensures WorkMove(d', w)
  {}

  lemma NoChange(d: Durable, ws: seq<Durable>)
    requires forall w | w in ws :: SameRows(d, w)
    ensures WorkChain(d, ws)
  {
    if ws != [] {
      assert forall i | 0 <= i < |ws| :: ws[i] in ws;
      SameRowsMove(d, ws[0]);
      hide WorkMove;
      OneChange(d, ws, 0);
    }
  }

  // ---------------------------------------------------------------- one row

  lemma OpRowMove(d: Durable, o: Id, row: OpRow)
    requires o !in d.ops ==> row.status.OpRunning? && row.task in d.tasks
    requires o in d.ops ==> d.ops[o].status.OpRunning? && !row.status.OpUnknown?
    requires o in d.ops ==> SameOperation(d.ops[o], row)
    ensures WorkMove(d, d.(ops := d.ops[o := row]))
  {
    var ops' := d.ops[o := row];
    forall t: Id ensures UnknownOp(ops', t) <==> UnknownOp(d.ops, t) {
      if UnknownOp(ops', t) {
        var q :| q in ops' && ops'[q].task == t && ops'[q].status.OpUnknown?;
        assert q in d.ops && d.ops[q] == ops'[q];
      }
      if UnknownOp(d.ops, t) {
        var q :| q in d.ops && d.ops[q].task == t && d.ops[q].status.OpUnknown?;
        assert ops'[q] == d.ops[q];
      }
    }
  }

  lemma JobRowMove(d: Durable, j: Id, row: JobRow)
    requires j !in d.jobs ==>
               row.status.JobRunning?
                 && (row.attached.Some? ==>
                      row.attached.value in d.tasks && d.tasks[row.attached.value].status == RUNNING)
    requires j in d.jobs ==>
               d.jobs[j].status.JobRunning? && !row.status.JobUnknown? && row == d.jobs[j].(status := row.status)
    ensures WorkMove(d, d.(jobs := d.jobs[j := row]))
  {
    var jobs' := d.jobs[j := row];
    forall t: Id ensures UnknownJob(jobs', t) <==> UnknownJob(d.jobs, t) {
      if UnknownJob(jobs', t) {
        var q :| q in jobs' && jobs'[q].attached == Some(t) && jobs'[q].status.JobUnknown?;
        assert q in d.jobs && d.jobs[q] == jobs'[q];
      }
      if UnknownJob(d.jobs, t) {
        var q :| q in d.jobs && d.jobs[q].attached == Some(t) && d.jobs[q].status.JobUnknown?;
        assert jobs'[q] == d.jobs[q];
      }
    }
  }

  // ---------------------------------------------------------------- stretches

  lemma StartOpHistory(c: Config, d: Durable, m: Mem, now: Time, id: Id, kind: OpKind, p: Project, task: Id,
          key: string, engine: Engine)
    requires id !in d.ops
    ensures WorkChain(d, StartOp(c, d, m, now, id, kind, p, task, key, engine).writes)
  {
    var k, fp, owner := KeyId(OpScope(kind, p), key), OpPrint(kind, p, task), SectionOwner(m.instance, id);
    hide BeginKey, TakeLease, RequireReplayable, WorkChain, LeaseRefused, RowRefused, OpStarted;
    if m.stopping.None? && RequireReplayable(d.keys, k, fp).Absent? {
      var d1 := BeginKey(d, k, fp, now);
      var leased := TakeLease(d1, p, "persistent-" + KindText(kind), owner, c.opTtl, now);
      if leased.None? {
        LeaseRefusedHistory(d, d1, m, k, now);
      } else if !Referenced(d, p, task) {
        RowRefusedHistory(d, d1, leased.value, m, k, p, owner, now);
      } else {
        OpStartedHistory(d, d1, leased.value, m, now, k, id, OpRow(task, p, kind, OpRunning, false),
            Section(p, owner, c.opTtl, now, Operation), engine);
      }
    } else {
      NoChange(d, []);
    }
  }

  lemma LeaseRefusedHistory(d: Durable, d1: Durable, m: Mem, k: KeyId, now: Time)
    requires SameRows(d, d1)
    ensures WorkChain(d, LeaseRefused(d1, m, k, now).writes)
  {
    hide FinishKey, WorkChain;
    NoChange(d, LeaseRefused(d1, m, k, now).writes);
  }

  lemma RowRefusedHistory(d: Durable, d1: Durable, d2: Durable, m: Mem, k: KeyId, p: Project, owner: Owner, now: Time)
    requires SameRows(d, d1) && SameRows(d, d2)
    ensures WorkChain(d, RowRefused(d1, d2, m, k, p, owner, now).writes)
  {
    hide FinishKey, ReleaseLease, WorkChain;
    NoChange(d, RowRefused(d1, d2, m, k, p, owner, now).writes);
  }

  lemma OpStartedHistory(d: Durable, d1: Durable, d2: Durable, m: Mem, now: Time, k: KeyId, id: Id, row: OpRow,
          s: Section, engine: Engine)
    requires SameRows(d, d1) && SameRows(d, d2) && id !in d.ops && row.status.OpRunning? && row.task in d.tasks
    ensures WorkChain(d, OpStarted(d1, d2, m, now, k, id, row, s, engine).writes)
  {
    var d3 := d2.(ops := d2.ops[id := row]);
    assert WorkMove(d, d3) by { OpRowMove(d, id, row); KeysAside(d, d.(ops := d.ops[id := row]), d3); }
    hide FinishKey, BeginEffect, WorkMove, WorkChain;
    var d4 := FinishKey(d3, k, Completed, OpRef(id), now);
    ThirdOfFive(d, d1, d2, d3, d4, BeginEffect(d4, k));
    assert OpStarted(d1, d2, m, now, k, id, row, s, engine).writes == [d1, d2, d3, d4, BeginEffect(d4, k)];
  }

  lemma ThirdOfFive(d: Durable, d1: Durable, d2: Durable, d3: Durable, d4: Durable, d5: Durable)
    requires SameRows(d, d1) && SameRows(d, d2) && WorkMove(d, d3) && SameRows(d3, d4) && SameRows(d3, d5)
    ensures WorkChain(d, [d1, d2, d3, d4, d5])
  {
    hide WorkMove;
    OneChange(d, [d1, d2, d3, d4, d5], 2);
  }

  lemma KeysAside(d: Durable, w: Durable, w': Durable)
    requires WorkMove(d, w) && SameRows(w, w')
    ensures WorkMove(d, w')
  {}

  lemma FinishOpHistory(d: Durable, m: Mem, o: Id)
    requires OpsAgree(d.ops, m.sections) && o in m.sections && m.sections[o].stage.Operation? && o in m.engines
             && m.engines[o].Returned? && o in d.ops
    ensures WorkChain(d, FinishOp(d, m, o).writes)
  {
    var row := d.ops[o].(status := OpOutcome(m.engines[o].succeeded), target := m.engines[o].target);
    assert d.ops[o].status.OpRunning?;
    OpRowMove(d, o, row);
    hide OpsAgree, ReleaseLease, WorkMove, WorkChain, OpOutcome;
    var d1, s := d.(ops := d.ops[o := row]), m.sections[o];
    OneChange(d, [d1, ReleaseLease(d1, s.project, s.owner)], 0);
  }

  lemma RequestCancellationHistory(d: Durable, m: Mem, o: Id)
    ensures WorkChain(d, RequestCancellation(d, m, o).writes)
  {
    hide WorkMove;
    if o in d.ops && d.ops[o].status.OpRunning? && !d.ops[o].cancelRequested {
      OpRowMove(d, o, d.ops[o].(cancelRequested := true));
    }
  }

  lemma RenewTickHistory(c: Config, d: Durable, m: Mem, now: Time, o: Id)
    requires o in m.sections
    ensures WorkChain(d, RenewTick(c, d, m, now, o).writes)
  {
    hide Renew, WorkMove, WorkChain;
    NoChange(d, RenewTick(c, d, m, now, o).writes);
  }

  lemma JobBeginHistory(c: Config, d: Durable, m: Mem, now: Time, id: Id, p: Project, command: string,
          attached: Option<Id>, key: Option<string>)
    ensures WorkChain(d, JobBegin(c, d, m, now, id, p, command, attached, key).writes)
  {
    hide TakeLease, BeginJobKey, FailJobKey, RequireReplayable, WorkChain;
    var fp := JobPrint(p, command, attached);
    var k := if key.None? then None else Some(KeyId(JobScope(p), key.value));
    if k.None? || RequireReplayable(d.keys, k.value, fp).Absent? {
      var d1 := BeginJobKey(d, k, fp, now);
      var leased := TakeLease(d1, p, "command:" + command, SectionOwner(m.instance, id), c.jobTtl, now);
      if leased.None? { LetGoHistory(d, d1, k, now); } else { NoChange(d, [d1, leased.value]); }
    } else {
      NoChange(d, []);
    }
  }

  lemma LetGoHistory(d: Durable, d1: Durable, key: Option<KeyId>, now: Time)
    requires SameRows(d, d1)
    ensures WorkChain(d, [d1] + FailJobKey(d1, key, now))
  {
    hide FinishKey, WorkChain;
    NoChange(d, [d1] + FailJobKey(d1, key, now));
  }

  lemma JobRefusedHistory(d: Durable, m: Mem, now: Time, j: Id)
    requires j in m.sections && m.sections[j].stage.JobOpening?
    ensures WorkChain(d, JobRefused(d, m, now, j).writes)
  {
    var s := m.sections[j];
    hide ReleaseLease, FailJobKey, WorkChain;
    LetGoHistory(d, ReleaseLease(d, s.project, s.owner), s.stage.jobKey, now);
  }

  lemma JobAdmittedHistory(c: Config, d: Durable, m: Mem, now: Time, j: Id)
    requires JobsAgree(d.jobs, m.sections) && j in m.sections && m.sections[j].stage.JobOpening?
    requires MayAttach(c, d, m.sections[j].project, m.sections[j].stage.attached)
    ensures WorkChain(d, JobAdmitted(d, m, now, j).writes)
  {
    var st := m.sections[j];
    var row := JobRow(st.stage.attached, st.project, JobRunning);
    assert j !in d.jobs;
    hide JobsAgree, RunningJobs, RunningJob, JobKeyWrites;
    JobRowMove(d, j, row);
    hide MayAttach, WorkMove, WorkChain;
    AdmittedHistory(d, d.(jobs := d.jobs[j := row]), st.stage.jobKey, j, now);
  }

  lemma AdmittedHistory(d: Durable, d1: Durable, key: Option<KeyId>, j: Id, now: Time)
    requires WorkMove(d, d1)
    ensures WorkChain(d, [d1] + JobKeyWrites(d1, key, j, now))
  {
    hide FinishKey, BeginEffect, WorkMove, WorkChain;
    OneChange(d, [d1] + JobKeyWrites(d1, key, j, now), 0);
  }

  lemma JobExitHistory(d: Durable, m: Mem, j: Id, exitedCleanly: bool)
    requires JobsAgree(d.jobs, m.sections) && j in m.sections && m.sections[j].stage.JobLive? && j in d.jobs
    ensures WorkChain(d, JobExit(d, m, j, exitedCleanly).writes)
  {
    var row := d.jobs[j].(status := JobOutcome(m.sections[j].stage.aborted, exitedCleanly));
    assert d.jobs[j].status.JobRunning?;
    JobRowMove(d, j, row);
    hide JobsAgree, WorkMove, WorkChain, JobOutcome;
    OneChange(d, [d.(jobs := d.jobs[j := row])], 0);
  }

  lemma JobCleanupHistory(d: Durable, m: Mem, j: Id)
    requires j in m.sections
    ensures WorkChain(d, JobCleanup(d, m, j).writes)
  {
    hide ReleaseLease, WorkMove, WorkChain;
    NoChange(d, JobCleanup(d, m, j).writes);
  }

  lemma GuardBeginHistory(c: Config, d: Durable, m: Mem, now: Time, id: Id, k: KeyId, fp: Fingerprint)
    requires GuardScope(k.scope)
    ensures WorkChain(d, GuardBegin(c, d, m, now, id, k, fp).writes)
  {
    hide TakeLease, BeginKey, BeginEffect, RequireReplayable, WorkChain, LeaseRefused;
    if RequireReplayable(d.keys, k, fp).Absent? {
      var owner := GuardOwner(m.instance, GuardName(k.scope), k.key);
      var d1 := BeginKey(d, k, fp, now);
      var leased := TakeLease(d1, k.scope.project, GuardLease(k.scope), owner, c.guardTtl, now);
      if leased.None? {
        LeaseRefusedHistory(d, d1, m, k, now);
      } else {
        NoChange(d, [d1, leased.value, BeginEffect(leased.value, k)]);
      }
    } else {
      NoChange(d, []);
    }
  }

  lemma GuardEndHistory(d: Durable, m: Mem, now: Time, g: Id, result: Option<string>)
    requires g in m.sections && m.sections[g].stage.Guarding?
    ensures WorkChain(d, GuardEnd(d, m, now, g, result).writes)
  {
    var s := m.sections[g];
    var k, d1 := s.stage.key, EndEffect(d, s.stage.key, result);
    var d2 := if result.Some? then FinishKey(d1, k, Completed, Value(result.value), now)
      else FinishKey(d1, k, Failed, Value("effect"), now);
    hide FinishKey, ReleaseLease, EndEffect, WorkChain;
    assert SameRows(d, d1) && SameRows(d, d2) && SameRows(d, ReleaseLease(d2, s.project, s.owner));
    hide SameRows;
    NoChange(d, [d1, d2, ReleaseLease(d2, s.project, s.owner)]);
  }

  lemma QuietHistory(d: Durable, m: Mem, id: Id, j: Id)
    ensures WorkChain(d, CancelBegin(d, m, id, j).writes) && WorkChain(d, JobCancel(d, m, j).writes)
            && WorkChain(d, Shutdown(m).writes)
  {
    hide Abort, BlockingOp, CancelReplyFor, RunningJob;
  }

  lemma OpHistory(c: Config, d: Durable, m: Mem, now: Time, l: OpLabel)
    requires OpsAgree(d.ops, m.sections) && OpEnabled(d, m, l)
    ensures WorkChain(d, PerformOp(c, d, m, now, l).writes)
  {
    hide OpsAgree, WorkChain, StartOp, FinishOp, RenewTick, RequestCancellation, Shutdown, CancelBegin;
    match l
    case StartOperation(id, kind, p, t, key, plan) =>
      StartOpHistory(c, d, m, now, id, kind, p, t, key, EngineFor(kind, t, plan));
    case FinishOperation(o) => FinishOpHistory(d, m, o);
    case RenewLease(o) => RenewTickHistory(c, d, m, now, o);
    case RequestCancel(o) => RequestCancellationHistory(d, m, o);
    case ShutDown => QuietHistory(d, m, 0, 0);
    case BeginCancel(id, t) => QuietHistory(d, m, id, t);
  }

  lemma JobHistory(c: Config, d: Durable, m: Mem, now: Time, l: JobLabel)
    requires JobsAgree(d.jobs, m.sections) && JobEnabled(d, m, l)
    ensures WorkChain(d, PerformJob(c, d, m, now, l).writes)
  {
    hide JobsAgree, WorkChain, JobBegin, JobAdmitted, JobRefused, JobExit, JobCancel, JobCleanup, GuardBegin, GuardEnd,
         MayAttach;
    match l
    case BeginJob(id, p, command, attached, key) => JobBeginHistory(c, d, m, now, id, p, command, attached, key);
    case AttachJob(j, filesOpen) =>
      JobRefusedHistory(d, m, now, j);
      if MayAttach(c, d, m.sections[j].project, m.sections[j].stage.attached) { JobAdmittedHistory(c, d, m, now, j); }
    case ExitJob(j, clean) => JobExitHistory(d, m, j, clean);
    case CleanUpJob(j) => JobCleanupHistory(d, m, j);
    case CancelJob(j) => QuietHistory(d, m, 0, j);
    case BeginGuarded(id, k, fp) => GuardBeginHistory(c, d, m, now, id, k, fp);
    case EndGuarded(g, result) => GuardEndHistory(d, m, now, g, result);
  }

  lemma WorkChainAt(d: Durable, ws: seq<Durable>, n: nat)
    requires WorkChain(d, ws) && n < |ws|
    ensures WorkMove(Before(d, ws, n), ws[n])
  {
    hide WorkMove, Before;
    assert WorkMoveAt(d, ws, n);
  }

  lemma {:induction false} ChainSameEvidence(d: Durable, ws: seq<Durable>, n: nat)
    requires WorkChain(d, ws) && n < |ws|
    ensures SameEvidence(d, ws[n]) && SameUnknown(d, ws[n])
    decreases n
  {
    hide OpsEvolve, JobsEvolve, UnknownOp, UnknownJob, WorkChain;
    WorkChainAt(d, ws, n);
    if n > 0 { ChainSameEvidence(d, ws, n - 1); }
  }

  // ---------------------------------------------------------------- the engines stay

  /** The same operations run, of the same projects, with the same engines. */
  ghost predicate SameOperations(m: Mem, m': Mem) {
    && m'.engines == m.engines && m'.drafts == m.drafts && m'.direct == m.direct
    && forall o ::
         (o in m.sections && m.sections[o].stage.Operation? <==> o in m'.sections && m'.sections[o].stage.Operation?)
                   && (o in m.sections && m.sections[o].stage.Operation? ==>
                        m'.sections[o].project == m.sections[o].project)
  }

  lemma EvidenceStays(d: Durable, w: Durable, m: Mem, m': Mem)
    requires EvidenceInv(d, m) && SameEvidence(d, w) && SameOperations(m, m')
    ensures EvidenceInv(w, m')
  {
    SameCallsOk(d, w, m, m');
    hide PlanOk, TaskOk, DeployOk, DraftOk, Apart, CallsOk;
    forall o | o in m'.engines
      ensures o in m'.sections && m'.sections[o].stage.Operation? && EngineOk(w, m'.sections[o].project, m'.engines[o])
    {
      assert EngineOk(d, m.sections[o].project, m.engines[o]);
    }
  }

  lemma SameCallsOk(d: Durable, w: Durable, m: Mem, m': Mem)
    requires CallsOk(d, m) && SameEvidence(d, w) && m'.drafts == m.drafts && m'.direct == m.direct
    ensures CallsOk(w, m')
  {
    forall a | a in m'.drafts ensures DraftOk(w, m'.drafts[a]) { assert DraftOk(d, m.drafts[a]); }
  }

  lemma OpSections(c: Config, d: Durable, m: Mem, now: Time, l: OpLabel)
    requires OpEnabled(d, m, l) && !l.StartOperation? && !l.FinishOperation?
    ensures SameOperations(m, PerformOp(c, d, m, now, l).mem)
  {
    hide SameOperations;
    match l
    case RenewLease(o) => RenewTickSections(c, d, m, now, o);
    case RequestCancel(_) => SameMem(m);
    case ShutDown => SameMem(m);
    case BeginCancel(id, t) => CancelSections(d, m, id, t);
  }

  lemma RenewTickSections(c: Config, d: Durable, m: Mem, now: Time, o: Id)
    requires o in m.sections && m.sections[o].stage.Operation?
    ensures SameOperations(m, RenewTick(c, d, m, now, o).mem)
  {
    hide Renew;
  }

  lemma CancelSections(d: Durable, m: Mem, id: Id, t: Id)
    ensures SameOperations(m, CancelBegin(d, m, id, t).mem)
  {
    hide BlockingOp, CancelReplyFor, RunningJob, SameOperations, Abort, AttachedJob;
    SameMem(m);
    var m' := CancelBegin(d, m, id, t).mem;
    if m' != m {
      var j := AttachedJob(d.jobs, t);
      AbortSections(m, j);
      SameBesideCalls(m, Abort(m, j), m');
    }
  }

  lemma AbortSections(m: Mem, j: Id)
    ensures SameOperations(m, Abort(m, j))
  {
    hide SameOperations;
    if j in m.sections && m.sections[j].stage.JobLive? {
      NewSection(m, j, m.sections[j].(stage := JobLive(true)));
    } else {
      SameMem(m);
    }
  }

  lemma SameBesideCalls(m: Mem, m1: Mem, m2: Mem)
    requires SameOperations(m, m1) && m2 == m1.(cancelling := m2.cancelling)
    ensures SameOperations(m, m2)
  {}

  lemma NewSection(m: Mem, id: Id, s: Section)
    requires (id in m.sections ==> !m.sections[id].stage.Operation?) && !s.stage.Operation?
    ensures SameOperations(m, m.(sections := m.sections[id := s]))
  {}

  lemma NoSection(m: Mem, id: Id)
    requires id in m.sections ==> !m.sections[id].stage.Operation?
    ensures SameOperations(m, m.(sections := m.sections - {id}))
  {}

  /** A step that opens, closes or changes one section, which was and is no operation. */
  ghost predicate OneSection(m: Mem, m': Mem, a: Id) {
    || m' == m
    || (&& (a in m.sections ==> !m.sections[a].stage.Operation?)
        && (|| m' == m.(sections := m.sections - {a})
            || (a in m'.sections && !m'.sections[a].stage.Operation?
                && m' == m.(sections := m.sections[a := m'.sections[a]]))))
  }

  lemma OneSectionStep(m: Mem, m': Mem, a: Id)
    requires OneSection(m, m', a)
    ensures SameOperations(m, m')
  {
    hide SameOperations;
    SameMem(m);
    if m' == m { return; }
    if a in m'.sections {
      NewSection(m, a, m'.sections[a]);
    } else {
      NoSection(m, a);
    }
  }

  function SectionOf(l: JobLabel): Id {
    match l
    case BeginJob(id, _, _, _, _) => id
    case AttachJob(j, _) => j
    case ExitJob(j, _) => j
    case CleanUpJob(j) => j
    case CancelJob(j) => j
    case BeginGuarded(id, _, _) => id
    case EndGuarded(g, _) => g
  }

  lemma JobSections(c: Config, d: Durable, m: Mem, now: Time, l: JobLabel)
    requires JobEnabled(d, m, l)
    ensures SameOperations(m, PerformJob(c, d, m, now, l).mem)
  {
    hide SameOperations, MayAttach, CancelReplyFor, RequireReplayable, TakeLease, BeginKey, BeginJobKey, FailJobKey,
         JobKeyWrites, FinishKey, ReleaseLease, BeginEffect;
    var m' := PerformJob(c, d, m, now, l).mem;
    assert OneSection(m, m', SectionOf(l));
    hide PerformJob;
    OneSectionStep(m, m', SectionOf(l));
  }

  lemma SameMem(m: Mem)
    ensures SameOperations(m, m) && SameOperations(m, Shutdown(m).mem)
  {}

  lemma StartOpEvidence(c: Config, d: Durable, m: Mem, now: Time, id: Id, kind: OpKind, p: Project, task: Id,
          key: string, plan: Id)
    requires EvidenceInv(d, m) && id !in m.sections
    ensures EvidenceInv(d, StartOp(c, d, m, now, id, kind, p, task, key, EngineFor(kind, task, plan)).mem)
  {
    var r := StartOp(c, d, m, now, id, kind, p, task, key, EngineFor(kind, task, plan));
    var s, e := Section(p, SectionOwner(m.instance, id), c.opTtl, now, Operation), EngineFor(kind, task, plan);
    StartOpMem(c, d, m, now, id, kind, p, task, key, e);
    hide StartOp;
    if r.mem != m {
      assert EngineOk(d, p, e);
      hide EngineOk, RowsOk, DraftOk, EngineFor;
      StillApartNew(m.engines, id, e);
      hide Apart;
    }
  }

  lemma StillApartNew(engines: map<Id, Engine>, id: Id, e: Engine)
    requires Apart(engines) && !e.Deploying?
    ensures Apart(engines[id := e])
  {}

  /** A start leaves memory alone or adds one operation, of a task that exists. */
  lemma StartOpMem(c: Config, d: Durable, m: Mem, now: Time, id: Id, kind: OpKind, p: Project, task: Id, key: string,
          engine: Engine)
    ensures var r := StartOp(c, d, m, now, id, kind, p, task, key, engine);
            || r.mem == m
            || (task in d.tasks && m.stopping.None?
                && r.mem == m.(sections := m.sections[id := Section(p, SectionOwner(m.instance, id), c.opTtl, now,
                     Operation)], engines := m.engines[id := engine]))
  {
    hide RequireReplayable, TakeLease, BeginKey, FinishKey, ReleaseLease, OpRowWrites;
  }

  lemma FinishOpEvidence(d: Durable, m: Mem, o: Id)
    requires EvidenceInv(d, m) && o in m.sections && o in m.engines
    ensures EvidenceInv(d, m.(sections := m.sections - {o}, engines := m.engines - {o}))
  {
    hide RowsOk, DraftOk, EngineOk;
  }

  /** Work stretches keep the evidence invariant. */
  lemma WorkEvidence(c: Config, d: Durable, m: Mem, now: Time, l: Label)
    requires EvidenceInv(d, m) && WorkInv(c, d, m) && Enabled(d, m, l) && (l.OnOp? || l.OnJob?)
    ensures WorkChain(d, Perform(c, d, m, now, l).writes)
    ensures EvidenceInv(Last(d, Perform(c, d, m, now, l).writes), Perform(c, d, m, now, l).mem)
  {
    var s := Perform(c, d, m, now, l);
    if l.OnOp? {
      hide EvidenceInv, WorkChain, OpsAgree, JobsAgree, JobLimits, StopOk, SameOperations;
      OpHistory(c, d, m, now, l.o);
      match l.o {
        case StartOperation(id, kind, p, t, key, plan) =>
          hide StartOp, PerformJob, JobEnabled, SameEvidence;
          StartOpEvidence(c, d, m, now, id, kind, p, t, key, plan);
          WorkThenOps(d, s.mem, s);
        case FinishOperation(o) =>
          hide PerformJob, JobEnabled, SameEvidence;
          FinishOpEvidence(d, m, o);
          WorkThenOps(d, s.mem, s);
        case _ =>
          hide PerformOp, PerformJob, JobEnabled, SameEvidence;
          OpSections(c, d, m, now, l.o);
          WorkThenOps(d, m, s);
      }
    } else {
      hide EvidenceInv, WorkChain, OpsAgree, JobsAgree, JobLimits, StopOk, SameOperations, PerformOp, PerformJob,
           OpEnabled, SameEvidence;
      JobHistory(c, d, m, now, l.j);
      JobSections(c, d, m, now, l.j);
      WorkThenOps(d, m, s);
    }
  }

  lemma WorkThenOps(d: Durable, m: Mem, s: Stretch)
    requires EvidenceInv(d, m) && WorkChain(d, s.writes) && SameOperations(m, s.mem)
    ensures EvidenceInv(Last(d, s.writes), s.mem)
  {
    hide EvidenceInv, WorkChain, SameOperations;
    if s.writes != [] { ChainSameEvidence(d, s.writes, |s.writes| - 1); }
    EvidenceStays(d, Last(d, s.writes), m, s.mem);
  }
}
