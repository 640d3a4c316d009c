/** Exactly when each operation does what it is for, read off the database and the memory before it
    and off what the outside world answered: one lemma an operation, in both directions. */
module Conditions {
  import opened Prelude
  import opened KeyTable
  import opened Store
  import opened Runtime
  import opened Agent

  // ---------------------------------------------------------------- keys and leases

  /** The key is free, and so is the lease. */
  predicate MayBegin(t: Table, k: KeyId, p: Project, owner: Owner, ttl: int, now: Time) {
    k !in t && Leasable(t, p, owner, ttl, now)
  }

  /** A completed record of this very call. */
  predicate RecordOf(t: Table, k: KeyId, fp: Fingerprint, result: Payload) {
    k in t && t[k].fingerprint == fp && t[k].status == Completed && t[k].result == result
  }

  lemma BegunLeases(d: Durable, k: KeyId, fp: Fingerprint, p: Project, operation: string, owner: Owner, ttl: int,
          now: Time)
    requires k !in d.keys && !k.scope.LeaseScope?
    ensures BeginKey(d, k, fp, now) == SetKeys(d, d.keys[k := Row(fp, InProgress, NoResult, now)])
    ensures TakeLease(BeginKey(d, k, fp, now), p, operation, owner, ttl, now) ==
              if Leasable(d.keys, p, owner, ttl, now)
              then Some(SetKeys(d, d.keys[k := Row(fp, InProgress, NoResult, now)][LeaseKey(p) :=
                   Row(OwnerPrint(owner), InProgress, LeaseData(operation, now, now + ttl), now)]))
              else None
  {
    AcquireIff(d.keys[k := Row(fp, InProgress, NoResult, now)], p, operation, owner, ttl, now);
  }

  /** The call came to nothing: its key has failed, and no row is written. */
  predicate CameToNothing(d: Durable, w: Durable, k: KeyId, fp: Fingerprint) {
    w == d.(keys := w.keys) && k in w.keys && w.keys[k].fingerprint == fp && w.keys[k].status == Failed
  }

  // ---------------------------------------------------------------- starting an operation

  /** What a started operation leaves: its lease, its RUNNING row, its completed key and its begun
      effect, and nothing else. */
  predicate Started(d: Durable, w: Durable, k: KeyId, fp: Fingerprint, id: Id, row: OpRow, owner: Owner, ttl: int,
          now: Time)
  {
    var lease := Row(OwnerPrint(owner), InProgress,
        LeaseData("persistent-" + KindText(row.kind), now, now + ttl), now);
    w == d.(keys := d.keys[LeaseKey(row.project) := lease][k := Row(fp, Completed, OpRef(id), now)],
            ops := d.ops[id := row], begun := w.begun)
    && w.begun == d.begun[k := if k in d.begun then d.begun[k] + 1 else 1]
  }

  /** What `start` needs for a new operation. */
  predicate MayStart(c: Config, d: Durable, m: Mem, now: Time, id: Id, kind: OpKind, p: Project, task: Id, key: string)
  {
    && m.stopping.None?
    && MayBegin(d.keys, KeyId(OpScope(kind, p), key), p, SectionOwner(m.instance, id), c.opTtl, now)
    && task in d.tasks && p in d.projects
  }

  lemma LeaseRefusedFails(d: Durable, m: Mem, k: KeyId, fp: Fingerprint, now: Time)
    requires k !in d.keys
    ensures CameToNothing(d, Last(d, LeaseRefused(BeginKey(d, k, fp, now), m, k, now).writes), k, fp)
  {}

  lemma RowRefusedFails(d: Durable, d1: Durable, d2: Durable, m: Mem, k: KeyId, fp: Fingerprint, p: Project,
          owner: Owner,
          now: Time)
    requires d2 == d.(keys := d2.keys) && !k.scope.LeaseScope?
    requires k in d2.keys && d2.keys[k].fingerprint == fp && d2.keys[k].status.InProgress?
    ensures CameToNothing(d, Last(d, RowRefused(d1, d2, m, k, p, owner, now).writes), k, fp)
  {}

  lemma OpStartedWrites(d: Durable, d1: Durable, d2: Durable, m: Mem, now: Time, k: KeyId, fp: Fingerprint, id: Id,
          row: OpRow, s: Section, engine: Engine, operation: string)
    requires k.scope == OpScope(row.kind, row.project) && operation == "persistent-" + KindText(row.kind)
    requires d2 == SetKeys(d, d.keys[k := Row(fp, InProgress, NoResult, now)][LeaseKey(row.project) :=
               Row(OwnerPrint(s.owner), InProgress, LeaseData(operation, now, now + s.ttl), now)])
    ensures Started(d, Last(d, OpStarted(d1, d2, m, now, k, id, row, s, engine).writes), k, fp, id, row, s.owner, s.ttl,
              now)
  {
    var lease := Row(OwnerPrint(s.owner), InProgress, LeaseData(operation, now, now + s.ttl), now);
    var d3 := d2.(ops := d2.ops[id := row]);
    KeySettles(d, d3, k, LeaseKey(row.project), fp, lease, OpRef(id), now);
    hide FinishKey;
    assert Last(d, [d1, d2] + OpRowWrites(d2, k, id, row, now)) ==
           BeginEffect(FinishKey(d3, k, Completed, OpRef(id), now), k);
  }

  lemma KeySettles(d: Durable, d3: Durable, k: KeyId, other: KeyId, fp: Fingerprint, lease: Row, result: Payload,
          now: Time)
    requires k != other && d3.keys == d.keys[k := Row(fp, InProgress, NoResult, now)][other := lease]
    ensures FinishKey(d3, k, Completed, result, now) ==
            SetKeys(d3, d.keys[other := lease][k := Row(fp, Completed, result, now)])
  {}

  /** A new operation starts exactly when it may. Otherwise nothing is written, when the agent is
      stopping or the key on record, or the call comes to nothing. */
  lemma StartIff(c: Config, d: Durable, m: Mem, now: Time, id: Id, kind: OpKind, p: Project, task: Id, key: string,
          engine: Engine)
    requires id !in m.sections
    ensures
      var s, k, fp := StartOp(c, d, m, now, id, kind, p, task, key, engine), KeyId(OpScope(kind, p), key),
          OpPrint(kind, p, task);
      var owner, w := SectionOwner(m.instance, id), Last(d, s.writes);
      if MayStart(c, d, m, now, id, kind, p, task, key) then
        && Started(d, w, k, fp, id, OpRow(task, p, kind, OpRunning, false), owner, c.opTtl, now)
        && s.mem == m.(sections := m.sections[id := Section(p, owner, c.opTtl, now, Operation)],
             engines := m.engines[id := engine])
      else
        && s.mem == m
        && if m.stopping.Some? || k in d.keys then s.writes == [] else CameToNothing(d, w, k, fp)
  {
    var k, fp, owner, operation := KeyId(OpScope(kind, p), key), OpPrint(kind, p, task), SectionOwner(m.instance, id),
        "persistent-" + KindText(kind);
    if m.stopping.None? && k !in d.keys {
      BegunLeases(d, k, fp, p, operation, owner, c.opTtl, now);
      var d1 := BeginKey(d, k, fp, now);
      var leased := TakeLease(d1, p, operation, owner, c.opTtl, now);
      hide BeginKey, TakeLease, LeaseRefused, RowRefused, OpStarted, Leasable, Started, CameToNothing, KindText;
      if leased.None? {
        LeaseRefusedFails(d, m, k, fp, now);
      } else if !Referenced(d, p, task) {
        RowRefusedFails(d, d1, leased.value, m, k, fp, p, owner, now);
      } else {
        OpStartedWrites(d, d1, leased.value, m, now, k, fp, id, OpRow(task, p, kind, OpRunning, false),
            Section(p, owner, c.opTtl, now, Operation), engine, operation);
      }
    } else {
      hide BeginKey, TakeLease, LeaseRefused, RowRefused, OpStarted, Leasable, Started, CameToNothing, KindText;
    }
  }

  /** `start` answers x exactly when x is the id of the completed record of this call, whose row is
      there, or the id just drawn, with the key and the lease free and task and project on record;
      in every other case it throws. */
  lemma StartReplyIff(c: Config, d: Durable, m: Mem, now: Time, id: Id, kind: OpKind, p: Project, task: Id,
          key: string, engine: Engine, x: Id)
    requires id !in m.sections
    ensures StartReply(c, d, m, now, id, kind, p, task, key, engine) == Returns(x) <==>
      || (m.stopping.None? && x in d.ops
           && RecordOf(d.keys, KeyId(OpScope(kind, p), key), OpPrint(kind, p, task), OpRef(x)))
      || (x == id && MayStart(c, d, m, now, id, kind, p, task, key))
  {
    StartIff(c, d, m, now, id, kind, p, task, key, engine);
    hide StartOp;
  }

  // ---------------------------------------------------------------- the end of an operation

  /** The row of a callback that returned becomes SUCCEEDED exactly when it reported success, and
      FAILED otherwise; the lease is given back. */
  lemma SettleIff(d: Durable, m: Mem, o: Id)
    requires o in m.sections && o in m.engines && m.engines[o].Returned? && o in d.ops
    ensures var s := FinishOp(d, m, o);
            var w := Last(d, s.writes);
            && (w.ops[o].status == OpSucceeded <==> m.engines[o].succeeded)
            && (w.ops[o].status == OpFailed <==> !m.engines[o].succeeded)
            && w == d.(keys := w.keys, ops := d.ops[o := w.ops[o]])
            && w.ops[o] == d.ops[o].(status := w.ops[o].status, target := m.engines[o].target)
            && !Owns(w.keys, m.sections[o].project, m.sections[o].owner)
            && o !in s.mem.sections
  {}

  /** A cancellation request marks a RUNNING operation, and nothing else. */
  lemma RequestIff(d: Durable, m: Mem, o: Id, x: Id)
    requires x in d.ops
    ensures var w := Last(d, RequestCancellation(d, m, o).writes);
            x in w.ops && (w.ops[x].cancelRequested
                <==> d.ops[x].cancelRequested || (x == o && d.ops[x].status == OpRunning))
  {}

  /** A tick renews exactly the lease the operation still holds. */
  lemma RenewIff(c: Config, d: Durable, m: Mem, now: Time, o: Id)
    requires o in m.sections && ValidConfig(c)
    ensures var s, section := RenewTick(c, d, m, now, o), m.sections[o];
            var k := LeaseKey(section.project);
            s.writes != [] <==>
              k in d.keys && d.keys[k].result.LeaseData? && d.keys[k].fingerprint == OwnerPrint(section.owner)
    ensures var s, section := RenewTick(c, d, m, now, o), m.sections[o];
            var k := LeaseKey(section.project);
            s.writes != [] ==>
              s.writes == [SetKeys(d, d.keys[k :=
                d.keys[k].(status := InProgress, updated := now,
                  result := LeaseData(d.keys[k].result.operation, now, now + c.opTtl))])]
  {}

  // ---------------------------------------------------------------- jobs

  predicate MayBeginJob(c: Config, d: Durable, m: Mem, now: Time, id: Id, p: Project, key: Option<string>) {
    && (key.Some? ==> KeyId(JobScope(p), key.value) !in d.keys)
    && Leasable(d.keys, p, SectionOwner(m.instance, id), c.jobTtl, now)
  }

  lemma JobBeginIff(c: Config, d: Durable, m: Mem, now: Time, id: Id, p: Project, command: string,
          attached: Option<Id>, key: Option<string>)
    requires id !in m.sections
    ensures
      var s, k := JobBegin(c, d, m, now, id, p, command, attached, key),
          if key.None? then None else Some(KeyId(JobScope(p), key.value));
      if MayBeginJob(c, d, m, now, id, p, key) then
        s.mem == m.(sections := m.sections[id :=
          Section(p, SectionOwner(m.instance, id), c.jobTtl, now, JobOpening(attached, k))])
      else
        && s.mem == m
        && (k.Some? ==>
             if k.value in d.keys then s.writes == []
             else CameToNothing(d, Last(d, s.writes), k.value, JobPrint(p, command, attached)))
  {
    var k, fp := if key.None? then None else Some(KeyId(JobScope(p), key.value)), JobPrint(p, command, attached);
    var owner := SectionOwner(m.instance, id);
    if k.None? {
      AcquireIff(d.keys, p, "command:" + command, owner, c.jobTtl, now);
    } else if k.value !in d.keys {
      BegunLeases(d, k.value, fp, p, "command:" + command, owner, c.jobTtl, now);
      JobKeyFails(d, k.value, fp, now);
    }
    hide BeginKey, Acquire, Leasable, FailJobKey, CameToNothing;
  }

  lemma JobKeyFails(d: Durable, k: KeyId, fp: Fingerprint, now: Time)
    requires k !in d.keys
    ensures var d1 := BeginKey(d, k, fp, now);
            CameToNothing(d, Last(d, [d1] + FailJobKey(d1, Some(k), now)), k, fp)
  {}

  /** A job's `start` goes on exactly when its key, if it has one, and the lease are free. It answers
      x exactly when x is the job of the completed record of this call. */
  lemma JobBeginReplyIff(c: Config, d: Durable, m: Mem, now: Time, id: Id, p: Project, command: string,
          attached: Option<Id>, key: Option<string>, x: Id)
    requires id !in m.sections
    ensures JobBeginReply(c, d, m, now, id, p, command, attached, key) == Waits <==>
            MayBeginJob(c, d, m, now, id, p, key)
    ensures JobBeginReply(c, d, m, now, id, p, command, attached, key) == Recalls(x) <==>
            && key.Some? && x in d.jobs
            && RecordOf(d.keys, KeyId(JobScope(p), key.value), JobPrint(p, command, attached), JobRef(x))
  {
    JobBeginIff(c, d, m, now, id, p, command, attached, key);
    hide JobBegin, Leasable;
  }

  /** The limits and the task a new job is admitted under. */
  predicate Admissible(c: Config, d: Durable, p: Project, attached: Option<Id>) {
    && p in d.projects
    && |set j | j in d.jobs && d.jobs[j].status == JobRunning| < c.maxJobs
    && (attached.Some? ==>
          && attached.value in d.tasks && d.tasks[attached.value].project == p
          && d.tasks[attached.value].status == TaskStatus.RUNNING
          && forall j | j in d.jobs && d.jobs[j].attached == attached :: d.jobs[j].status != JobRunning)
  }

  lemma MayAttachIff(c: Config, d: Durable, p: Project, attached: Option<Id>)
    ensures MayAttach(c, d, p, attached) <==> Admissible(c, d, p, attached)
  {
    assert RunningJobs(d.jobs) == set j | j in d.jobs && d.jobs[j].status == JobRunning;
  }

  /** The job runs, and its key answers with it, exactly when its log files opened and it is
      admissible; otherwise its key fails and its lease is given back. */
  lemma AttachIff(c: Config, d: Durable, m: Mem, now: Time, j: Id, filesOpen: bool)
    requires j in m.sections && m.sections[j].stage.JobOpening? && j !in d.jobs
    requires var k := m.sections[j].stage.jobKey;
             k.Some? ==> k.value in d.keys && d.keys[k.value].status == InProgress && !k.value.scope.LeaseScope?
    ensures
      var section, k, s := m.sections[j], m.sections[j].stage.jobKey, JobAttach(c, d, m, now, j, filesOpen);
      var w := Last(d, s.writes);
      if filesOpen && Admissible(c, d, section.project, section.stage.attached) then
        && w.jobs == d.jobs[j := JobRow(section.stage.attached, section.project, JobRunning)]
        && j in s.mem.sections && s.mem.sections[j].stage == JobLive(false)
        && (k.Some? ==> w.keys == d.keys[k.value := d.keys[k.value].(status := Completed, result := JobRef(j),
             updated := now)])
      else
        && w.jobs == d.jobs && j !in s.mem.sections
        && !Owns(w.keys, section.project, section.owner)
        && (k.Some? ==> k.value in w.keys && w.keys[k.value].status == Failed)
  {
    MayAttachIff(c, d, m.sections[j].project, m.sections[j].stage.attached);
    AdmittedWrites(d, m, now, j);
    RefusedWrites(d, m, now, j);
    hide MayAttach, Admissible, JobAdmitted, JobRefused;
  }

  lemma AdmittedWrites(d: Durable, m: Mem, now: Time, j: Id)
    requires j in m.sections && m.sections[j].stage.JobOpening? && j !in d.jobs
    requires var k := m.sections[j].stage.jobKey; k.Some? ==> k.value in d.keys && d.keys[k.value].status.InProgress?
    ensures
      var section, k, s := m.sections[j], m.sections[j].stage.jobKey, JobAdmitted(d, m, now, j);
      var w := Last(d, s.writes);
      && w.jobs == d.jobs[j := JobRow(section.stage.attached, section.project, JobRunning)]
      && j in s.mem.sections && s.mem.sections[j].stage == JobLive(false)
      && (k.Some? ==> w.keys == d.keys[k.value := d.keys[k.value].(status := Completed, result := JobRef(j),
           updated := now)])
  {}

  lemma RefusedWrites(d: Durable, m: Mem, now: Time, j: Id)
    requires j in m.sections && m.sections[j].stage.JobOpening?
    requires var k := m.sections[j].stage.jobKey;
             k.Some? ==> k.value in d.keys && d.keys[k.value].status.InProgress? && !k.value.scope.LeaseScope?
    ensures
      var section, k, s := m.sections[j], m.sections[j].stage.jobKey, JobRefused(d, m, now, j);
      var w := Last(d, s.writes);
      && w.jobs == d.jobs && j !in s.mem.sections && !Owns(w.keys, section.project, section.owner)
      && (k.Some? ==> k.value in w.keys && w.keys[k.value].status == Failed)
  {}

  /** A settled job is COMPLETED exactly when it exited cleanly and nobody aborted it, CANCELLED
      exactly when somebody did, and FAILED otherwise. */
  lemma ExitIff(d: Durable, m: Mem, j: Id, exitedCleanly: bool)
    requires j in m.sections && m.sections[j].stage.JobLive? && j in d.jobs
    ensures var w, aborted := Last(d, JobExit(d, m, j, exitedCleanly).writes), m.sections[j].stage.aborted;
            && w == d.(jobs := d.jobs[j := d.jobs[j].(status := w.jobs[j].status)])
            && (w.jobs[j].status == JobCompleted <==> exitedCleanly && !aborted)
            && (w.jobs[j].status == JobFailed <==> !exitedCleanly && !aborted)
            && (w.jobs[j].status == JobCancelled <==> aborted)
  {}

  /** `cancel` aborts exactly a RUNNING job that this process runs, and no other job. */
  lemma AbortIff(d: Durable, m: Mem, j: Id, x: Id)
    requires x in m.sections && m.sections[x].stage.JobLive?
    ensures var m' := JobCancel(d, m, j).mem;
            && x in m'.sections && m'.sections[x].stage.JobLive?
            && (m'.sections[x].stage.aborted <==>
                 m.sections[x].stage.aborted || (x == j && j in d.jobs && d.jobs[j].status == JobRunning))
  {}

  // ---------------------------------------------------------------- guarded effects

  /** The effect of a guarded call begins exactly when its key and the lease are free. Otherwise
      nothing is written, when the key is on record, or the call comes to nothing. */
  lemma GuardBeginIff(c: Config, d: Durable, m: Mem, now: Time, id: Id, k: KeyId, fp: Fingerprint)
    requires id !in m.sections && GuardScope(k.scope)
    ensures
      var s, owner := GuardBegin(c, d, m, now, id, k, fp), GuardOwner(m.instance, GuardName(k.scope), k.key);
      var w := Last(d, s.writes);
      if MayBegin(d.keys, k, k.scope.project, owner, c.guardTtl, now) then
        && s.mem == m.(sections := m.sections[id := Section(k.scope.project, owner, c.guardTtl, now, Guarding(k))])
        && k in w.begun && w.begun[k] == (if k in d.begun then d.begun[k] + 1 else 1)
        && k in w.keys && w.keys[k] == Row(fp, InProgress, NoResult, now)
      else
        && s.mem == m
        && if k in d.keys then s.writes == [] else CameToNothing(d, w, k, fp) && w.begun == d.begun
  {
    if k !in d.keys {
      var owner := GuardOwner(m.instance, GuardName(k.scope), k.key);
      BegunLeases(d, k, fp, k.scope.project, GuardLease(k.scope), owner, c.guardTtl, now);
      LeaseRefusedFails(d, m, k, fp, now);
      hide BeginKey, TakeLease, Leasable, LeaseRefused, GuardLease, GuardName;
    } else {
      hide Leasable, GuardLease, GuardName;
    }
  }

  /** The key of a guarded call is COMPLETED exactly when its effect returned, with the result it
      returned, and FAILED exactly when it threw. A retry is answered that result exactly in the
      first case, and refused in the second. */
  lemma GuardEndIff(d: Durable, m: Mem, now: Time, g: Id, result: Option<string>, fp: Fingerprint, r: string)
    requires g in m.sections && m.sections[g].stage.Guarding?
    requires var k := m.sections[g].stage.key; k in d.keys && d.keys[k].status.InProgress? && !k.scope.LeaseScope?
    ensures
      var k, w := m.sections[g].stage.key, Last(d, GuardEnd(d, m, now, g, result).writes);
      && k in w.keys
      && (w.keys[k].status == Completed <==> result.Some?) && (w.keys[k].status == Failed <==> result.None?)
      && (result.Some? ==> w.keys[k].result == Value(result.value))
      && w.keys[k].fingerprint == d.keys[k].fingerprint
      && k in w.outcomes && w.outcomes[k] == result
      && (RequireReplayable(w.keys, k, fp) == Replayed(Value(r)) <==> fp == d.keys[k].fingerprint && result == Some(r))
      && (RequireReplayable(w.keys, k, fp) == Refused <==> fp != d.keys[k].fingerprint || result.None?)
      && !Owns(w.keys, m.sections[g].project, m.sections[g].owner)
  {}

  // ---------------------------------------------------------------- tasks

  /** A task is created exactly for a project that has a row: PENDING, resumable, with nothing yet. */
  lemma CreateIff(d: Durable, m: Mem, id: Id, p: Project)
    requires id !in d.tasks
    ensures Last(d, CreateTask(d, m, id, p).writes) ==
            if p in d.projects then d.(tasks := d.tasks[id := TaskRow(p, PENDING, true, None, NoState, 0)]) else d
    ensures Last(d, RegisterProject(d, m, p).writes) == d.(projects := d.projects + {p})
  {
    if p in d.projects { assert d.projects + {p} == d.projects; }
  }

  /** Every job and operation of the task has settled. */
  ghost predicate NothingOpen(d: Durable, t: Id) {
    && (forall j | j in d.jobs && d.jobs[j].attached == Some(t) ::
         d.jobs[j].status in {JobCompleted, JobFailed, JobCancelled})
    && (forall o | o in d.ops && d.ops[o].task == t :: d.ops[o].status in {OpSucceeded, OpFailed})
  }

  lemma NothingOpenIff(d: Durable, t: Id)
    ensures NothingOpen(d, t) <==> !BlockingWork(d, t)
  {
    if NothingOpen(d, t) {
    } else if exists j | j in d.jobs && d.jobs[j].attached == Some(t) :: d.jobs[j].status !in {JobCompleted, JobFailed,
        JobCancelled} {
      var j :| j in d.jobs && d.jobs[j].attached == Some(t)
        && d.jobs[j].status !in {JobCompleted, JobFailed, JobCancelled};
      assert d.jobs[j].status.JobRunning? || d.jobs[j].status.JobUnknown?;
    } else {
      var o :| o in d.ops && d.ops[o].task == t && d.ops[o].status !in {OpSucceeded, OpFailed};
      assert d.ops[o].status.OpRunning? || d.ops[o].status.OpUnknown?;
    }
  }

  /** `resume` sets a task RUNNING exactly when it is resumable, stands where a task may start,
      nothing of it is open and, after a restart, its latest decision was to resume. */
  lemma ResumeIff(d: Durable, m: Mem, t: Id)
    ensures
      var w, may := Last(d, Resume(d, m, t).writes),
          && t in d.tasks && d.tasks[t].resumable && NothingOpen(d, t)
          && (d.tasks[t].status in {PENDING, PAUSED, FAILED, WAITING_FOR_USER}
              || (d.tasks[t].status == RECOVERY_REQUIRED && ResumeVerified(d.runs, t)));
      w == if may then d.(tasks := d.tasks[t := d.tasks[t].(status := TaskStatus.RUNNING,
                 recoveryAttempts := d.tasks[t].recoveryAttempts + if d.tasks[t].status == RECOVERY_REQUIRED then 1
                   else 0)])
           else d
  {
    NothingOpenIff(d, t);
    hide NothingOpen, BlockingWork, ResumeVerified;
  }

  lemma PauseIff(d: Durable, m: Mem, t: Id)
    ensures Last(d, Pause(d, m, t).writes) ==
            if t in d.tasks && d.tasks[t].status == TaskStatus.RUNNING && NothingOpen(d, t)
            then d.(tasks := d.tasks[t := d.tasks[t].(status := PAUSED)]) else d
  {
    NothingOpenIff(d, t);
    hide NothingOpen, BlockingWork;
  }

  /** The task has no running job: `cancel` ends it exactly when it is not over and nothing of it is
      open. */
  lemma CancelNowIff(d: Durable, m: Mem, t: Id)
    requires forall j | j in d.jobs && d.jobs[j].attached == Some(t) :: d.jobs[j].status != JobRunning
    ensures Last(d, CancelNow(d, m, t).writes) ==
            if t in d.tasks && d.tasks[t].status !in {COMPLETED, ROLLED_BACK, CANCELLED} && NothingOpen(d, t)
            then d.(tasks := d.tasks[t := d.tasks[t].(status := CANCELLED)]) else d
  {
    NothingOpenIff(d, t);
    hide NothingOpen;
  }

  /** The task has a running job: `cancel` aborts one and waits for it exactly when the task is not
      over, no operation of it is open and this process runs the job. */
  lemma CancelBeginIff(d: Durable, m: Mem, id: Id, t: Id) returns (j: Id)
    requires id !in m.cancelling && RunningJob(d.jobs, t)
    ensures j in d.jobs && d.jobs[j].attached == Some(t) && d.jobs[j].status == JobRunning
    ensures
      var s := CancelBegin(d, m, id, t);
      && s.writes == []
      && (id in s.mem.cancelling <==>
           && t in d.tasks && d.tasks[t].status !in {COMPLETED, ROLLED_BACK, CANCELLED}
           && (forall o | o in d.ops && d.ops[o].task == t :: d.ops[o].status in {OpSucceeded, OpFailed})
           && j in m.sections && m.sections[j].stage.JobLive?)
      && (id in s.mem.cancelling ==>
           && s.mem.cancelling[id] == Cancelling(t, j)
           && s.mem.sections == m.sections[j := m.sections[j].(stage := JobLive(true))])
  {
    j := AttachedJob(d.jobs, t);
    assert !BlockingOp(d.ops, t) <==> forall o | o in d.ops && d.ops[o].task == t ::
             d.ops[o].status in {OpSucceeded, OpFailed} by {
      if BlockingOp(d.ops, t) {
        var o :| o in d.ops && d.ops[o].task == t && (d.ops[o].status.OpRunning? || d.ops[o].status.OpUnknown?);
        assert d.ops[o].status !in {OpSucceeded, OpFailed};
      }
    }
    hide BlockingOp;
  }

  /** After the wait the task is CANCELLED exactly when no job of it is UNKNOWN and it is not over
      in another way. */
  lemma CancelEndIff(d: Durable, m: Mem, id: Id)
    requires id in m.cancelling && m.cancelling[id].task in d.tasks
    ensures var t, w := m.cancelling[id].task, Last(d, CancelEnd(d, m, id).writes);
            w == if (forall j | j in d.jobs && d.jobs[j].attached == Some(t) :: d.jobs[j].status != JobUnknown)
                    && d.tasks[t].status !in {COMPLETED, ROLLED_BACK}
                 then d.(tasks := d.tasks[t := d.tasks[t].(status := CANCELLED)]) else d
  {}

  // ---------------------------------------------------------------- startup and retention

  /** The store after the four parts of startup that look for what was lost. */
  function Restarted(d: Durable): Durable {
    AfterPart(AfterPart(AfterPart(AfterPart(d, BootOps), BootJobs), BootInterrupted), BootUnknown)
  }

  /** Work of the task was lost: it ran when the process died, or was lost before. */
  ghost predicate LostWork(d: Durable, t: Id) {
    || (exists o | o in d.ops :: d.ops[o].task == t && d.ops[o].status in {OpRunning, OpUnknown})
    || (exists j | j in d.jobs :: d.jobs[j].attached == Some(t) && d.jobs[j].status in {JobRunning, JobUnknown})
  }

  lemma LostIsUnknown(d: Durable, w: Durable, t: Id)
    requires w.ops == ReconcileOps(d.ops) && w.jobs == ReconcileJobs(d.jobs)
    ensures UnknownWork(w, t) <==> LostWork(d, t)
  {
    if LostWork(d, t) {
      if exists o | o in d.ops :: d.ops[o].task == t && d.ops[o].status in {OpRunning, OpUnknown} {
        var o :| o in d.ops && d.ops[o].task == t && d.ops[o].status in {OpRunning, OpUnknown};
        assert w.ops[o].task == t && w.ops[o].status.OpUnknown?;
      } else {
        var j :| j in d.jobs && d.jobs[j].attached == Some(t) && d.jobs[j].status in {JobRunning, JobUnknown};
        assert w.jobs[j].attached == Some(t) && w.jobs[j].status.JobUnknown?;
      }
    }
    if UnknownWork(w, t) {
      if UnknownOp(w.ops, t) {
        var o :| o in w.ops && w.ops[o].task == t && w.ops[o].status.OpUnknown?;
        assert d.ops[o].task == t && d.ops[o].status in {OpRunning, OpUnknown};
      } else {
        var j :| j in w.jobs && w.jobs[j].attached == Some(t) && w.jobs[j].status.JobUnknown?;
        assert d.jobs[j].attached == Some(t) && d.jobs[j].status in {JobRunning, JobUnknown};
      }
    }
  }

  /** Startup leaves a task in RECOVERY_REQUIRED exactly when it stood there, was interrupted, or is
      not over and work of it was lost; every other task keeps its status. No work is RUNNING. */
  lemma RestartIff(d: Durable, t: Id)
    requires t in d.tasks
    ensures
      var w, before := Restarted(d), d.tasks[t].status;
      && t in w.tasks
      && w.tasks[t] == d.tasks[t].(status :=
           if before in {TaskStatus.RUNNING, DEPLOYING, HEALTH_CHECKING, RECOVERING, ROLLING_BACK}
              || (before !in {COMPLETED, ROLLED_BACK, CANCELLED} && LostWork(d, t))
           then RECOVERY_REQUIRED else before)
  {
    var d2 := AfterPart(AfterPart(d, BootOps), BootJobs);
    LostIsUnknown(d, AfterPart(d2, BootInterrupted), t);
    hide UnknownWork, LostWork, ReconcileOps, ReconcileJobs;
  }

  lemma RestartedWork(d: Durable, a: Id)
    ensures
      var w := Restarted(d);
      && (a in w.ops <==> a in d.ops) && (a in w.jobs <==> a in d.jobs)
      && (a in d.ops ==> w.ops[a] == d.ops[a].(status :=
            if d.ops[a].status == OpRunning then OpUnknown else d.ops[a].status))
      && (a in d.jobs ==> w.jobs[a] == d.jobs[a].(status :=
            if d.jobs[a].status == JobRunning then JobUnknown else d.jobs[a].status))
  {
    hide MarkUnknown, MarkInterrupted;
  }

  /** Retention drops exactly the settled keys last updated before the cutoff, with their history,
      and exactly the finished runs of finished tasks that ended before it and are not the latest. */
  lemma RetentionIff(d: Durable, cutoff: Time, k: KeyId, r: RunId)
    ensures var w := AfterPart(d, BootKeys(cutoff));
            (k in w.keys <==> k in d.keys && (d.keys[k].status == InProgress || cutoff <= d.keys[k].updated))
            && (k in w.begun <==> k in d.begun && k in w.keys) && (k in w.outcomes <==> k in d.outcomes && k in w.keys)
    ensures var w := AfterPart(d, BootRuns(cutoff));
            r in w.runs <==>
              && r in d.runs
              && (|| d.runs[r].finished.None? || cutoff <= d.runs[r].finished.value
                  || r.task !in d.tasks || d.tasks[r.task].status !in {COMPLETED, ROLLED_BACK, CANCELLED}
                  || forall q | q in d.runs && q.task == r.task :: q.attempt <= r.attempt)
  {}
}
