/** `JobManager`: each method is the stretch the model gives it. */
module Jobs {
  import opened Prelude
  import opened KeyTable
  import opened Store
  import opened Runtime
  import opened Database
  import opened Stores

  predicate JobStage(s: Stage) { s.JobOpening? || s.JobLive? || s.JobSettled? }

  ghost predicate Attending(sections: map<Id, Section>, active: map<Id, Section>) {
    && (forall j :: j in active <==> j in sections && JobStage(sections[j].stage))
    && (forall j | j in active :: active[j] == sections[j])
  }

  lemma AttendingOneMore(sections: map<Id, Section>, active: map<Id, Section>, j: Id, s: Section)
    requires Attending(sections, active) && JobStage(s.stage)
    ensures Attending(sections[j := s], active[j := s])
  {}

  lemma AttendingOneLess(sections: map<Id, Section>, active: map<Id, Section>, j: Id)
    requires Attending(sections, active)
    ensures Attending(sections - {j}, active - {j})
  {}

  lemma JobBeginUnfolds(c: Config, d: Durable, m: Mem, now: Time, id: Id, p: Project, command: string,
          attached: Option<Id>, key: Option<string>, k: Option<KeyId>)
    requires k == if key.None? then None else Some(KeyId(JobScope(p), key.value))
    requires k.Some? ==> k.value !in d.keys
    ensures
      var owner := SectionOwner(m.instance, id);
      var d1 := BeginJobKey(d, k, JobPrint(p, command, attached), now);
      var leased := TakeLease(d1, p, "command:" + command, owner, c.jobTtl, now);
      JobBegin(c, d, m, now, id, p, command, attached, key) ==
        if leased.None? then Stretch([d1] + FailJobKey(d1, k, now), m)
        else Opens([d1, leased.value], m, id, Section(p, owner, c.jobTtl, now, JobOpening(attached, k)))
  {
    if k.Some? { assert RequireReplayable(d.keys, k.value, JobPrint(p, command, attached)).Absent?; }
  }

  class JobManager {
    const db: StateDb
    const idempotency: IdempotencyStore
    const leases: OperationLeaseStore
    const instanceId: nat
    const maxConcurrentJobs: nat
    const leaseTtlMs: int
    /** `controllers` and `active` as one map, with the calls still opening their log files. */
    var active: map<Id, Section>

    ghost predicate Wired() { idempotency.db == db && leases.db == db }

    ghost predicate Shows(m: Mem)
      reads this
    {
      m.instance == instanceId && Attending(m.sections, active)
    }

    constructor (db: StateDb, idempotency: IdempotencyStore, leases: OperationLeaseStore, instanceId: nat,
            maxConcurrentJobs: nat, leaseTtlMs: int)
      requires idempotency.db == db && leases.db == db
      ensures Wired() && Shows(Boot(instanceId))
      ensures this.db == db && this.maxConcurrentJobs == maxConcurrentJobs && this.leaseTtlMs == leaseTtlMs
    {
      this.db, this.idempotency, this.leases := db, idempotency, leases;
      this.instanceId, this.maxConcurrentJobs, this.leaseTtlMs := instanceId, maxConcurrentJobs, leaseTtlMs;
      active := map[];
    }

    /** `start` up to `await mkdir`. Without a key the store is left out. */
    method Begin(ghost c: Config, ghost m: Mem, now: Time, id: Id, p: Project, command: string, attached: Option<Id>,
            key: Option<string>)
      returns (reply: JobReply)
      requires Wired() && Shows(m) && leaseTtlMs == c.jobTtl && id !in m.sections
      modifies this, db
      ensures db.Wrote(JobBegin(c, old(db.Contents()), m, now, id, p, command, attached, key).writes)
      ensures Shows(JobBegin(c, old(db.Contents()), m, now, id, p, command, attached, key).mem)
      ensures reply == JobBeginReply(c, old(db.Contents()), m, now, id, p, command, attached, key)
      ensures reply.Waits? <==> id in active
    {
      var fp := JobPrint(p, command, attached);
      var k := if key.None? then None else Some(KeyId(JobScope(p), key.value));
      if k.Some? {
        var replay := idempotency.RequireReplayable(k.value, fp);
        if replay.Refused? { return Rejects; }
        if replay.Replayed? {
          return if replay.result.JobRef? && replay.result.job in db.jobs then Recalls(replay.result.job) else Rejects;
        }
      }
      var waits := BeginAbsent(c, m, now, id, p, command, attached, key, k);
      return if waits then Waits else Rejects;
    }

    method BeginAbsent(ghost c: Config, ghost m: Mem, now: Time, id: Id, p: Project, command: string,
            attached: Option<Id>, ghost key: Option<string>, k: Option<KeyId>)
      returns (waits: bool)
      requires Wired() && Shows(m) && leaseTtlMs == c.jobTtl && id !in m.sections
      requires k == if key.None? then None else Some(KeyId(JobScope(p), key.value))
      requires k.Some? ==> k.value !in db.keys
      modifies this, db
      ensures db.Wrote(JobBegin(c, old(db.Contents()), m, now, id, p, command, attached, key).writes)
      ensures Shows(JobBegin(c, old(db.Contents()), m, now, id, p, command, attached, key).mem)
      ensures waits <==> id in active
    {
      var owner := SectionOwner(instanceId, id);
      AttendingOneMore(m.sections, active, id, Section(p, owner, leaseTtlMs, now, JobOpening(attached, k)));
      JobBeginUnfolds(c, db.Contents(), m, now, id, p, command, attached, key, k);
      hide Attending, JobBegin, KeyTable.RequireReplayable;
      BeginKeyOf(k, JobPrint(p, command, attached), now);
      ghost var d1 := db.Contents();
      hide BeginJobKey;
      var leaseHeld := leases.Acquire(p, "command:" + command, owner, leaseTtlMs, now);
      if leaseHeld {
        active := active[id := Section(p, owner, leaseTtlMs, now, JobOpening(attached, k))];
        return true;
      }
      FailKeyOf(k, now);
      Then(old(db.journal), old(db.Contents()), [d1], FailJobKey(d1, k, now));
      return false;
    }

    method BeginKeyOf(k: Option<KeyId>, fp: Fingerprint, now: Time)
      requires Wired() && (k.Some? ==> k.value !in db.keys)
      modifies db
      ensures db.Wrote([BeginJobKey(old(db.Contents()), k, fp, now)])
      ensures k.Some? ==> k.value in db.keys && db.keys[k.value].status.InProgress?
    {
      if k.Some? {
        var _, _ := idempotency.Begin(k.value, fp, now);
      } else {
        db.Skips();
      }
    }

    method FailKeyOf(k: Option<KeyId>, now: Time)
      requires Wired() && (k.Some? ==> k.value in db.keys && db.keys[k.value].status.InProgress?)
      modifies db
      ensures db.Wrote(FailJobKey(old(db.Contents()), k, now))
    {
      if k.Some? {
        idempotency.FailIfInProgress(k.value, Value("job"), now);
      }
    }

    /** The checks inside the transaction, the foreign key of its INSERT last. */
    method Admits(ghost c: Config, p: Project, attached: Option<Id>) returns (ok: bool)
      requires maxConcurrentJobs == c.maxJobs
      ensures ok <==> MayAttach(c, db.Contents(), p, attached)
    {
      if |RunningJobs(db.jobs)| >= maxConcurrentJobs { return false; }
      if attached.Some? {
        var t := attached.value;
        if t !in db.tasks || db.tasks[t].project != p { return false; }
        if db.tasks[t].status != RUNNING { return false; }
        if RunningJob(db.jobs, t) { return false; }
      }
      return p in db.projects;
    }

    /** The rest of `start`. */
    method Attach(ghost c: Config, ghost m: Mem, now: Time, j: Id, filesOpen: bool) returns (reply: Reply)
      requires Wired() && Shows(m) && maxConcurrentJobs == c.maxJobs && j in active && active[j].stage.JobOpening?
      requires var k := active[j].stage.jobKey;
               k.Some? ==> k.value in db.keys && db.keys[k.value].status.InProgress? && !k.value.scope.LeaseScope?
      modifies this, db
      ensures db.Wrote(JobAttach(c, old(db.Contents()), m, now, j, filesOpen).writes)
      ensures Shows(JobAttach(c, old(db.Contents()), m, now, j, filesOpen).mem)
      ensures reply.Returns?
              <==> filesOpen && MayAttach(c, old(db.Contents()), old(active)[j].project, old(active)[j].stage.attached)
    {
      var s := active[j];
      var admitted := false;
      if filesOpen {
        admitted := Admits(c, s.project, s.stage.attached);
      }
      if admitted {
        Admit(m, now, j);
        return Returns(j);
      }
      Refuse(m, now, j);
      return Throws;
    }

    method Admit(ghost m: Mem, now: Time, j: Id)
      requires Wired() && Shows(m) && j in active && active[j].stage.JobOpening?
      requires var k := active[j].stage.jobKey; k.Some? ==> k.value in db.keys && db.keys[k.value].status.InProgress?
      modifies this, db
      ensures db.Wrote(JobAdmitted(old(db.Contents()), m, now, j).writes)
              && Shows(JobAdmitted(old(db.Contents()), m, now, j).mem)
    {
      var s := active[j];
      AttendingOneMore(m.sections, active, j, s.(stage := JobLive(false)));
      db.PutJob(j, JobRow(s.stage.attached, s.project, JobRunning));
      ghost var d1 := db.Contents();
      active := active[j := s.(stage := JobLive(false))];
      if s.stage.jobKey.Some? {
        db.EffectBegins(s.stage.jobKey.value);
        var _ := idempotency.Complete(s.stage.jobKey.value, JobRef(j), now);
      }
      Then(old(db.journal), old(db.Contents()), [d1], JobKeyWrites(d1, s.stage.jobKey, j, now));
    }

    method Refuse(ghost m: Mem, now: Time, j: Id)
      requires Wired() && Shows(m) && j in active && active[j].stage.JobOpening?
      requires var k := active[j].stage.jobKey;
               k.Some? ==> k.value in db.keys && db.keys[k.value].status.InProgress? && !k.value.scope.LeaseScope?
      modifies this, db
      ensures db.Wrote(JobRefused(old(db.Contents()), m, now, j).writes)
              && Shows(JobRefused(old(db.Contents()), m, now, j).mem)
    {
      var s := active[j];
      AttendingOneLess(m.sections, active, j);
      var _ := leases.Release(s.project, s.owner);
      ghost var d1 := db.Contents();
      active := active - {j};
      FailKeyOf(s.stage.jobKey, now);
      Then(old(db.journal), old(db.Contents()), [d1], FailJobKey(d1, s.stage.jobKey, now));
    }

    /** The `then` or `catch` callback: the UPDATE that no status guards. */
    method Exit(ghost m: Mem, j: Id, exitedCleanly: bool)
      requires Shows(m) && j in active && active[j].stage.JobLive? && j in db.jobs
      modifies this, db
      ensures db.Wrote(JobExit(old(db.Contents()), m, j, exitedCleanly).writes)
              && Shows(JobExit(old(db.Contents()), m, j, exitedCleanly).mem)
    {
      var s := active[j];
      AttendingOneMore(m.sections, active, j, s.(stage := JobSettled));
      var status := if s.stage.aborted then JobCancelled else if exitedCleanly then JobCompleted else JobFailed;
      db.PutJob(j, db.jobs[j].(status := status));
      active := active[j := s.(stage := JobSettled)];
    }

    /** The `finally` callback. */
    method CleanUp(ghost m: Mem, j: Id)
      requires Wired() && Shows(m) && j in active
      modifies this, db
      ensures db.Wrote(JobCleanup(old(db.Contents()), m, j).writes) && Shows(JobCleanup(old(db.Contents()), m, j).mem)
    {
      AttendingOneLess(m.sections, active, j);
      var _ := leases.Release(active[j].project, active[j].owner);
      active := active - {j};
    }

    method Cancel(ghost m: Mem, j: Id) returns (reply: CancelReply)
      requires Shows(m)
      modifies this
      ensures reply == CancelReplyFor(db.Contents(), m, j)
      ensures Shows(JobCancel(db.Contents(), m, j).mem) && JobCancel(db.Contents(), m, j).writes == []
    {
      if j !in db.jobs || !db.jobs[j].status.JobRunning? { return NotRunning; }
      if !(j in active && active[j].stage.JobLive?) { return NotAttached; }
      AttendingOneMore(m.sections, active, j, active[j].(stage := JobLive(true)));
      active := active[j := active[j].(stage := JobLive(true))];
      return Aborted;
    }

    method ReconcileAfterRestart() returns (changes: nat)
      modifies db
      ensures db.Wrote([Agent.AfterPart(old(db.Contents()), Agent.BootJobs)])
      ensures changes == |set j | j in old(db.jobs) && old(db.jobs)[j].status.JobRunning?|
    {
      changes := |set j | j in db.jobs && db.jobs[j].status.JobRunning?|;
      db.ReplaceJobs(map j | j in db.jobs :: if db.jobs[j].status.JobRunning? then db.jobs[j].(status := JobUnknown)
          else db.jobs[j]);
    }
  }
}
