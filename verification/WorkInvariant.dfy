/** Work rows and memory agree over every run: an operation row is RUNNING exactly while its
    executor lives, a job row exactly while its controller does, and the job limits hold. */
module WorkInvariant {
  import opened Prelude
  import opened KeyTable
  import opened Store
  import opened Runtime
  import opened Agent
  import opened Frame

  ghost predicate OpsAgree(ops: map<Id, OpRow>, sections: map<Id, Section>) {
    forall o :: (o in ops && ops[o].status.OpRunning?) <==> (o in sections && sections[o].stage.Operation?)
  }

  ghost predicate JobsAgree(jobs: map<Id, JobRow>, sections: map<Id, Section>) {
    && (forall j :: (j in jobs && jobs[j].status.JobRunning?) <==> (j in sections && sections[j].stage.JobLive?))
    && (forall j | j in sections && sections[j].stage.JobOpening? :: j !in jobs)
  }

  /** At most the configured number of jobs runs, and at most one per task. */
  ghost predicate JobLimits(jobs: map<Id, JobRow>, maxJobs: nat) {
    && |RunningJobs(jobs)| <= maxJobs
    && forall i, j | i in RunningJobs(jobs) && j in RunningJobs(jobs) && jobs[i].attached.Some?
       && jobs[i].attached == jobs[j].attached :: i == j
  }

  ghost predicate StopOk(m: Mem) { m.stopping.Some? ==> ActiveOps(m) <= m.stopping.value }

  ghost predicate WorkInv(c: Config, d: Durable, m: Mem) {
    && OpsAgree(d.ops, m.sections)
    && JobsAgree(d.jobs, m.sections)
    && JobLimits(d.jobs, c.maxJobs)
    && StopOk(m)
  }

  ghost predicate WorkAfter(c: Config, d: Durable, s: Stretch) { WorkInv(c, Last(d, s.writes), s.mem) }

  // ---------------------------------------------------------------- one row or section at a time

  lemma OpStarts(ops: map<Id, OpRow>, jobs: map<Id, JobRow>, sections: map<Id, Section>, id: Id, row: OpRow, s: Section)
    requires OpsAgree(ops, sections) && JobsAgree(jobs, sections) && id !in sections && id !in jobs
    requires row.status.OpRunning? && s.stage.Operation?
    ensures OpsAgree(ops[id := row], sections[id := s]) && JobsAgree(jobs, sections[id := s])
  {}

  lemma SectionOpens(ops: map<Id, OpRow>, jobs: map<Id, JobRow>, sections: map<Id, Section>, id: Id, s: Section)
    requires OpsAgree(ops, sections) && JobsAgree(jobs, sections) && id !in sections && id !in ops && id !in jobs
    requires s.stage.JobOpening? || s.stage.Guarding?
    ensures OpsAgree(ops, sections[id := s]) && JobsAgree(jobs, sections[id := s])
  {}

  lemma SameActive(m: Mem, id: Id, s: Section)
    requires StopOk(m) && !s.stage.Operation?
    ensures StopOk(m.(sections := m.sections[id := s]))
  {}

  lemma JobStarts(ops: map<Id, OpRow>, jobs: map<Id, JobRow>, sections: map<Id, Section>, j: Id, row: JobRow)
    requires OpsAgree(ops, sections) && JobsAgree(jobs, sections) && j in sections && sections[j].stage.JobOpening?
    requires row.status.JobRunning?
    ensures OpsAgree(ops, sections[j := sections[j].(stage := JobLive(false))])
    ensures JobsAgree(jobs[j := row], sections[j := sections[j].(stage := JobLive(false))])
  {}

  // ---------------------------------------------------------------- stretches

  lemma StartOpWork(c: Config, d: Durable, m: Mem, now: Time, id: Id, kind: OpKind, p: Project, task: Id, key: string,
          engine: Engine)
    requires WorkInv(c, d, m) && id !in m.sections && id !in d.ops && id !in d.jobs
    ensures WorkAfter(c, d, StartOp(c, d, m, now, id, kind, p, task, key, engine))
  {
    var k, fp, owner := KeyId(OpScope(kind, p), key), OpPrint(kind, p, task), SectionOwner(m.instance, id);
    hide BeginKey, TakeLease, RequireReplayable, JobLimits, OpsAgree, JobsAgree, StopOk, LeaseRefused, RowRefused,
         OpStarted, WorkAfter;
    if m.stopping.None? && RequireReplayable(d.keys, k, fp).Absent? {
      var d1 := BeginKey(d, k, fp, now);
      var leased := TakeLease(d1, p, "persistent-" + KindText(kind), owner, c.opTtl, now);
      if leased.None? {
        LeaseRefusedWork(c, d, d1, m, k, now);
      } else if !Referenced(d, p, task) {
        RowRefusedWork(c, d, d1, leased.value, m, k, p, owner, now);
      } else {
        OpStartedWork(c, d, d1, leased.value, m, now, k, id, OpRow(task, p, kind, OpRunning, false),
            Section(p, owner, c.opTtl, now, Operation), engine);
      }
    } else {
      QuietWork(c, d, m);
    }
  }

  lemma QuietWork(c: Config, d: Durable, m: Mem)
    requires WorkInv(c, d, m)
    ensures WorkAfter(c, d, Quiet(m))
  {
    hide JobLimits, OpsAgree, JobsAgree, StopOk;
  }

  lemma LeaseRefusedWork(c: Config, d: Durable, d1: Durable, m: Mem, k: KeyId, now: Time)
    requires WorkInv(c, d1, m)
    ensures WorkAfter(c, d, LeaseRefused(d1, m, k, now))
  {
    hide JobLimits, OpsAgree, JobsAgree, StopOk, FinishKey;
  }

  lemma RowRefusedWork(c: Config, d: Durable, d1: Durable, d2: Durable, m: Mem, k: KeyId, p: Project, owner: Owner,
          now: Time)
    requires WorkInv(c, d2, m)
    ensures WorkAfter(c, d, RowRefused(d1, d2, m, k, p, owner, now))
  {
    hide JobLimits, OpsAgree, JobsAgree, StopOk, FinishKey, ReleaseLease;
  }

  lemma OpStartedWork(c: Config, d: Durable, d1: Durable, d2: Durable, m: Mem, now: Time, k: KeyId, id: Id, row: OpRow,
          s: Section, engine: Engine)
    requires WorkInv(c, d2, m) && id !in m.sections && id !in d2.jobs && row.status.OpRunning? && s.stage.Operation?
             && m.stopping.None?
    ensures WorkAfter(c, d, OpStarted(d1, d2, m, now, k, id, row, s, engine))
  {
    OpStarts(d2.ops, d2.jobs, m.sections, id, row, s);
    hide JobLimits, OpsAgree, JobsAgree, FinishKey, BeginEffect;
    var d' := Last(d, OpStarted(d1, d2, m, now, k, id, row, s, engine).writes);
    assert d'.ops == d2.ops[id := row] && d'.jobs == d2.jobs;
  }

  lemma FinishOpWork(c: Config, d: Durable, m: Mem, o: Id)
    requires WorkInv(c, d, m) && o in m.sections && m.sections[o].stage.Operation? && o in m.engines
             && m.engines[o].Returned? && o in d.ops
    ensures WorkAfter(c, d, FinishOp(d, m, o))
  {
    OpEnds(d, m, o, OpOutcome(m.engines[o].succeeded), m.engines[o].target);
    NotLive(d.jobs, m.sections, o);
    hide ReleaseLease, JobLimits, JobsAgree, OpsAgree, StopOk, OpOutcome;
  }

  lemma OpEnds(d: Durable, m: Mem, o: Id, status: OpStatus, target: Target)
    requires OpsAgree(d.ops, m.sections) && StopOk(m) && o in d.ops && !status.OpRunning?
    ensures OpsAgree(SetOp(d, o, status, target).ops, m.sections - {o})
    ensures StopOk(m.(sections := m.sections - {o}, engines := m.engines - {o}))
  {}

  lemma NotLive(jobs: map<Id, JobRow>, sections: map<Id, Section>, a: Id)
    requires JobsAgree(jobs, sections) && a in sections && !sections[a].stage.JobLive?
    ensures JobsAgree(jobs, sections - {a})
  {}

  lemma RenewTickWork(c: Config, d: Durable, m: Mem, now: Time, o: Id)
    requires WorkInv(c, d, m) && o in m.sections && m.sections[o].stage.Operation?
    ensures WorkAfter(c, d, RenewTick(c, d, m, now, o))
  {
    var s := m.sections[o].(since := now, ttl := c.opTtl);
    RenewedSection(d.ops, d.jobs, m, o, s);
    hide Renew, JobLimits, OpsAgree, JobsAgree, StopOk;
  }

  lemma RenewedSection(ops: map<Id, OpRow>, jobs: map<Id, JobRow>, m: Mem, o: Id, s: Section)
    requires OpsAgree(ops, m.sections) && JobsAgree(jobs, m.sections) && StopOk(m) && o in m.sections
    requires m.sections[o].stage.Operation? && s.stage.Operation?
    ensures OpsAgree(ops, m.sections[o := s]) && JobsAgree(jobs, m.sections[o := s])
            && StopOk(m.(sections := m.sections[o := s]))
  {}

  lemma RequestCancellationWork(c: Config, d: Durable, m: Mem, o: Id)
    requires WorkInv(c, d, m)
    ensures WorkAfter(c, d, RequestCancellation(d, m, o)) && WorkAfter(c, d, Shutdown(m))
  {
    hide JobLimits;
  }

  lemma AbortWork(c: Config, d: Durable, m: Mem, j: Id)
    requires WorkInv(c, d, m)
    ensures WorkInv(c, d, Abort(m, j))
  {
    hide JobLimits;
  }

  lemma CancelBeginWork(c: Config, d: Durable, m: Mem, id: Id, t: Id)
    requires WorkInv(c, d, m)
    ensures WorkAfter(c, d, CancelBegin(d, m, id, t))
  {
    hide OpsAgree, JobsAgree, JobLimits, Abort, BlockingOp, CancelReplyFor;
    if RunningJob(d.jobs, t) { AbortWork(c, d, m, AttachedJob(d.jobs, t)); }
  }

  lemma JobBeginWork(c: Config, d: Durable, m: Mem, now: Time, id: Id, p: Project, command: string,
          attached: Option<Id>, key: Option<string>)
    requires WorkInv(c, d, m) && id !in m.sections && id !in d.ops && id !in d.jobs
    ensures WorkAfter(c, d, JobBegin(c, d, m, now, id, p, command, attached, key))
  {
    var fp, owner := JobPrint(p, command, attached), SectionOwner(m.instance, id);
    var k := if key.None? then None else Some(KeyId(JobScope(p), key.value));
    hide BeginJobKey, TakeLease, RequireReplayable, FailJobKey, Opens, WorkInv, WorkAfter;
    var r := JobBegin(c, d, m, now, id, p, command, attached, key);
    if k.Some? && !RequireReplayable(d.keys, k.value, fp).Absent? {
      assert r == Quiet(m);
      QuietWork(c, d, m);
      return;
    }
    var d1 := BeginJobKey(d, k, fp, now);
    SameRowsWork(c, d, d1, m);
    var leased := TakeLease(d1, p, "command:" + command, owner, c.jobTtl, now);
    if leased.None? {
      assert r == Stretch([d1] + FailJobKey(d1, k, now), m);
      LetGoWork(c, d, d1, m, k, now);
      return;
    }
    var s := Section(p, owner, c.jobTtl, now, JobOpening(attached, k));
    assert r == Opens([d1, leased.value], m, id, s);
    SameRowsWork(c, d, leased.value, m);
    OpensWork(c, d, [d1, leased.value], m, id, s);
  }

  lemma SameRowsWork(c: Config, d: Durable, w: Durable, m: Mem)
    requires WorkInv(c, d, m) && w.ops == d.ops && w.jobs == d.jobs
    ensures WorkInv(c, w, m)
  {
    hide JobLimits, OpsAgree, JobsAgree, StopOk;
  }

  lemma LetGoWork(c: Config, d: Durable, d1: Durable, m: Mem, key: Option<KeyId>, now: Time)
    requires WorkInv(c, d1, m)
    ensures WorkAfter(c, d, Stretch([d1] + FailJobKey(d1, key, now), m))
  {
    hide JobLimits, OpsAgree, JobsAgree, StopOk, FinishKey;
  }

  lemma OpensWork(c: Config, d: Durable, writes: seq<Durable>, m: Mem, id: Id, s: Section)
    requires WorkInv(c, Last(d, writes), m) && id !in m.sections && id !in Last(d, writes).ops
             && id !in Last(d, writes).jobs
    requires s.stage.JobOpening? || s.stage.Guarding?
    ensures WorkAfter(c, d, Opens(writes, m, id, s))
  {
    var w := Last(d, writes);
    SectionOpens(w.ops, w.jobs, m.sections, id, s);
    SameActive(m, id, s);
    hide JobLimits, OpsAgree, JobsAgree, StopOk;
  }

  lemma NewRunningJob(jobs: map<Id, JobRow>, j: Id, row: JobRow)
    requires j !in jobs && row.status.JobRunning?
    ensures RunningJobs(jobs[j := row]) == RunningJobs(jobs) + {j} && j !in RunningJobs(jobs)
  {}

  ghost predicate RunsIn(d: Durable, p: Project, t: Id) {
    t in d.tasks && d.tasks[t].project == p && d.tasks[t].status == RUNNING
  }

  /** The checks before a job row is inserted are exact: they pass when the project has a row, both
      limits will still hold with the new one in the table, and the task it is attached to, if any,
      runs in its project. */
  lemma AdmittedIff(c: Config, d: Durable, j: Id, p: Project, attached: Option<Id>)
    requires JobLimits(d.jobs, c.maxJobs) && j !in d.jobs
    ensures MayAttach(c, d, p, attached) <==>
            && p in d.projects
            && JobLimits(d.jobs[j := JobRow(attached, p, JobRunning)], c.maxJobs)
            && (attached.Some? ==> RunsIn(d, p, attached.value))
  {
    var after := d.jobs[j := JobRow(attached, p, JobRunning)];
    NewRunningJob(d.jobs, j, JobRow(attached, p, JobRunning));
    if attached.Some? && RunningJob(d.jobs, attached.value) {
      var i :| i in d.jobs && d.jobs[i].status.JobRunning? && d.jobs[i].attached == attached;
      assert i in RunningJobs(after) && j in RunningJobs(after) && after[i].attached == after[j].attached;
      assert !JobLimits(after, c.maxJobs);
    }
  }

  lemma JobAdmittedWork(c: Config, d: Durable, m: Mem, now: Time, j: Id)
    requires WorkInv(c, d, m) && j in m.sections && m.sections[j].stage.JobOpening?
    requires MayAttach(c, d, m.sections[j].project, m.sections[j].stage.attached)
    ensures WorkAfter(c, d, JobAdmitted(d, m, now, j))
  {
    var s := m.sections[j];
    var row, live := JobRow(s.stage.attached, s.project, JobRunning), s.(stage := JobLive(false));
    assert j !in d.jobs;
    AdmittedIff(c, d, j, s.project, s.stage.attached);
    JobStarts(d.ops, d.jobs, m.sections, j, row);
    SameActive(m, j, live);
    hide MayAttach, JobLimits, OpsAgree, StopOk, JobsAgree;
    var d1 := d.(jobs := d.jobs[j := row]);
    JobKeyWritesWork(d1, s.stage.jobKey, j, now);
    hide JobKeyWrites;
  }

  lemma JobKeyWritesWork(d1: Durable, key: Option<KeyId>, j: Id, now: Time)
    ensures Last(d1, [d1] + JobKeyWrites(d1, key, j, now)).ops == d1.ops
            && Last(d1, [d1] + JobKeyWrites(d1, key, j, now)).jobs == d1.jobs
  {
    hide FinishKey, BeginEffect;
  }

  lemma JobRefusedWork(c: Config, d: Durable, m: Mem, now: Time, j: Id)
    requires WorkInv(c, d, m) && j in m.sections && m.sections[j].stage.JobOpening?
    ensures WorkAfter(c, d, JobRefused(d, m, now, j))
  {
    var s := m.sections[j];
    NotLive(d.jobs, m.sections, j);
    SectionLeaves(d.ops, m, j);
    hide ReleaseLease, JobLimits, OpsAgree, JobsAgree, StopOk, FailJobKey;
    LetGoWork(c, d, ReleaseLease(d, s.project, s.owner), m.(sections := m.sections - {j}), s.stage.jobKey, now);
  }

  lemma SectionLeaves(ops: map<Id, OpRow>, m: Mem, a: Id)
    requires OpsAgree(ops, m.sections) && StopOk(m) && a in m.sections && !m.sections[a].stage.Operation?
    ensures OpsAgree(ops, m.sections - {a}) && StopOk(m.(sections := m.sections - {a}))
  {}

  lemma FewerRunningJobs(jobs: map<Id, JobRow>, jobs': map<Id, JobRow>, maxJobs: nat)
    requires JobLimits(jobs, maxJobs) && RunningJobs(jobs') <= RunningJobs(jobs)
    requires forall j | j in RunningJobs(jobs') :: jobs'[j] == jobs[j]
    ensures JobLimits(jobs', maxJobs)
  {
    SubsetSize(RunningJobs(jobs'), RunningJobs(jobs));
  }

  lemma JobExitWork(c: Config, d: Durable, m: Mem, j: Id, exitedCleanly: bool)
    requires WorkInv(c, d, m) && j in m.sections && m.sections[j].stage.JobLive? && j in d.jobs
    ensures WorkAfter(c, d, JobExit(d, m, j, exitedCleanly))
  {
    var s, row := m.sections[j], d.jobs[j].(status := JobOutcome(m.sections[j].stage.aborted, exitedCleanly));
    var jobs', settled := d.jobs[j := row], s.(stage := JobSettled);
    hide OpsAgree, StopOk;
    FewerRunningJobs(d.jobs, jobs', c.maxJobs);
    hide JobLimits;
    assert JobsAgree(jobs', m.sections[j := settled]);
    hide JobsAgree, JobOutcome;
    SectionEnds(d.ops, m, j, settled);
    assert JobExit(d, m, j, exitedCleanly) == Stretch([d.(jobs := jobs')], m.(sections := m.sections[j := settled]));
    hide JobExit;
  }

  lemma SectionEnds(ops: map<Id, OpRow>, m: Mem, j: Id, s: Section)
    requires OpsAgree(ops, m.sections) && StopOk(m) && j in m.sections && !m.sections[j].stage.Operation?
             && !s.stage.Operation?
    ensures OpsAgree(ops, m.sections[j := s]) && StopOk(m.(sections := m.sections[j := s]))
  {}

  lemma JobCleanupWork(c: Config, d: Durable, m: Mem, j: Id)
    requires WorkInv(c, d, m) && j in m.sections && m.sections[j].stage.JobSettled?
    ensures WorkAfter(c, d, JobCleanup(d, m, j))
  {
    NotLive(d.jobs, m.sections, j);
    SectionLeaves(d.ops, m, j);
    hide JobLimits, ReleaseLease, OpsAgree, JobsAgree, StopOk;
  }

  lemma GuardEndWork(c: Config, d: Durable, m: Mem, now: Time, g: Id, result: Option<string>)
    requires WorkInv(c, d, m) && g in m.sections && m.sections[g].stage.Guarding?
    ensures WorkAfter(c, d, GuardEnd(d, m, now, g, result))
  {
    NotLive(d.jobs, m.sections, g);
    SectionLeaves(d.ops, m, g);
    hide JobLimits, ReleaseLease, FinishKey, OpsAgree, JobsAgree, StopOk;
  }

  lemma GuardBeginWork(c: Config, d: Durable, m: Mem, now: Time, id: Id, k: KeyId, fp: Fingerprint)
    requires WorkInv(c, d, m) && id !in m.sections && id !in d.ops && id !in d.jobs && GuardScope(k.scope)
    ensures WorkAfter(c, d, GuardBegin(c, d, m, now, id, k, fp))
  {
    var owner := GuardOwner(m.instance, GuardName(k.scope), k.key);
    hide BeginKey, TakeLease, BeginEffect, RequireReplayable, JobLimits, OpsAgree, JobsAgree, StopOk, LeaseRefused,
         Opens, WorkAfter;
    if RequireReplayable(d.keys, k, fp).Absent? {
      var d1 := BeginKey(d, k, fp, now);
      var leased := TakeLease(d1, k.scope.project, GuardLease(k.scope), owner, c.guardTtl, now);
      if leased.None? {
        LeaseRefusedWork(c, d, d1, m, k, now);
      } else {
        OpensWork(c, d, [d1, leased.value, BeginEffect(leased.value, k)], m, id,
            Section(k.scope.project, owner, c.guardTtl, now, Guarding(k)));
      }
    } else {
      QuietWork(c, d, m);
    }
  }

  lemma OpWork(c: Config, d: Durable, m: Mem, now: Time, l: OpLabel)
    requires WorkInv(c, d, m) && OpEnabled(d, m, l)
    ensures WorkAfter(c, d, PerformOp(c, d, m, now, l))
  {
    hide WorkInv, WorkAfter, StartOp, FinishOp, RenewTick, RequestCancellation, Shutdown, CancelBegin;
    match l
    case StartOperation(id, kind, p, t, key, plan) =>
      StartOpWork(c, d, m, now, id, kind, p, t, key, EngineFor(kind, t, plan));
    case FinishOperation(o) => FinishOpWork(c, d, m, o);
    case RenewLease(o) => RenewTickWork(c, d, m, now, o);
    case RequestCancel(o) => RequestCancellationWork(c, d, m, o);
    case ShutDown => RequestCancellationWork(c, d, m, 0);
    case BeginCancel(id, t) => CancelBeginWork(c, d, m, id, t);
  }

  lemma JobCancelWork(c: Config, d: Durable, m: Mem, j: Id)
    requires WorkInv(c, d, m)
    ensures WorkAfter(c, d, JobCancel(d, m, j))
  {
    hide WorkInv, Abort;
    AbortWork(c, d, m, j);
  }

  lemma JobWork(c: Config, d: Durable, m: Mem, now: Time, l: JobLabel)
    requires WorkInv(c, d, m) && JobEnabled(d, m, l)
    ensures WorkAfter(c, d, PerformJob(c, d, m, now, l))
  {
    hide WorkInv, WorkAfter, JobBegin, JobAdmitted, JobRefused, JobExit, JobCancel, JobCleanup, GuardBegin, GuardEnd,
         MayAttach;
    match l
    case BeginJob(id, p, command, attached, key) => JobBeginWork(c, d, m, now, id, p, command, attached, key);
    case AttachJob(j, filesOpen) =>
      JobRefusedWork(c, d, m, now, j);
      if MayAttach(c, d, m.sections[j].project, m.sections[j].stage.attached) { JobAdmittedWork(c, d, m, now, j); }
    case ExitJob(j, clean) => JobExitWork(c, d, m, j, clean);
    case CleanUpJob(j) => JobCleanupWork(c, d, m, j);
    case CancelJob(j) => JobCancelWork(c, d, m, j);
    case BeginGuarded(id, k, fp) => GuardBeginWork(c, d, m, now, id, k, fp);
    case EndGuarded(g, result) => GuardEndWork(c, d, m, now, g, result);
  }

  lemma EngineKeepsWork(c: Config, d: Durable, m: Mem, s: Stretch)
    requires WorkInv(c, d, m) && EngineOnly(d, m, s)
    ensures WorkAfter(c, d, s)
  {
    hide OpsAgree, JobsAgree, JobLimits;
    if s.writes != [] { assert SameWork(d, Last(d, s.writes)); }
  }

  lemma WorkStep(c: Config, d: Durable, m: Mem, now: Time, l: Label)
    requires WorkInv(c, d, m) && Enabled(d, m, l) && (EngineLabel(l) ==> EngineOnly(d, m, Perform(c, d, m, now, l)))
    ensures WorkAfter(c, d, Perform(c, d, m, now, l))
  {
    hide WorkInv, PerformOp, PerformJob, OpEnabled, JobEnabled, WorkAfter, EngineOnly;
    match l
    case OnOp(o) => OpWork(c, d, m, now, o);
    case OnJob(j) => JobWork(c, d, m, now, j);
    case _ => EngineKeepsWork(c, d, m, Perform(c, d, m, now, l));
  }

  // ---------------------------------------------------------------- what it gives

  /** The branch of `cancel` for a RUNNING row that this process does not run is dead. */
  lemma NotAttachedIsUnreachable(c: Config, d: Durable, m: Mem, j: Id)
    requires WorkInv(c, d, m)
    ensures CancelReplyFor(d, m, j) != NotAttached
    ensures j in d.jobs && d.jobs[j].status.JobRunning? <==> CancelReplyFor(d, m, j) == Aborted
  {
    assert JobsAgree(d.jobs, m.sections);
  }

  /** Once the promises `shutdown` waits for have settled, no operation row is RUNNING. */
  lemma ShutdownLeavesNothingRunning(c: Config, d: Durable, m: Mem)
    requires WorkInv(c, d, m) && m.stopping.Some? && m.stopping.value !! ActiveOps(m)
    ensures forall o | o in d.ops :: !d.ops[o].status.OpRunning?
  {
    hide JobsAgree, JobLimits;
    forall o | o in d.ops ensures d.ops[o].status.OpRunning? ==> o in ActiveOps(m) && o in m.stopping.value {
      assert d.ops[o].status.OpRunning? <==> (o in m.sections && m.sections[o].stage.Operation?);
    }
  }
}
