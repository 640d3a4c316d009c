/** `TaskEngine`: each method is the stretch the model gives it. */
module Tasks {
  import opened Prelude
  import opened KeyTable
  import opened Store
  import opened Runtime
  import opened Database
  import opened Jobs
  import Agent

  /** What blocks a task, as the error message names it. */
  datatype Blocking = Job(id: Id, jobStatus: JobStatus) | Operation(id: Id, status: OpStatus)

  predicate JobsSettled(jobs: map<Id, JobRow>, t: Id) {
    forall j | j in jobs && jobs[j].attached == Some(t) :: jobs[j].status in {JobCompleted, JobFailed, JobCancelled}
  }

  predicate OpsSettled(ops: map<Id, OpRow>, t: Id) {
    forall o | o in ops && ops[o].task == t :: ops[o].status in {OpSucceeded, OpFailed}
  }

  /** `cancel` up to its first await, or to its end when there is nothing to wait for. */
  ghost function CancelStart(d: Durable, m: Mem, id: Id, t: Id): Stretch {
    if RunningJob(d.jobs, t) then CancelBegin(d, m, id, t) else CancelNow(d, m, t)
  }

  class TaskEngine {
    const db: StateDb
    /** The `cancel` calls waiting for an attached job. */
    var cancelling: map<Id, Cancelling>

    constructor (db: StateDb)
      ensures this.db == db && cancelling == map[]
    {
      this.db := db;
      cancelling := map[];
    }

    method Create(ghost m: Mem, id: Id, p: Project) returns (ok: bool)
      modifies db
      ensures ok <==> p in old(db.projects)
      ensures db.Wrote(CreateTask(old(db.Contents()), m, id, p).writes)
    {
      if p !in db.projects { return false; }
      ok := true;
      db.PutTask(id, TaskRow(p, PENDING, true, None, NoState, 0));
    }

    /** False is the ConflictError or the missing task. */
    method SetStatus(t: Id, s: TaskStatus) returns (ok: bool)
      modifies db
      ensures ok <==> Store.SetStatus(old(db.Contents()), t, s).Some?
      ensures ok ==> db.Wrote([Store.SetStatus(old(db.Contents()), t, s).value])
      ensures !ok ==> db.Wrote([])
    {
      if t !in db.tasks { return false; }
      var current := db.tasks[t];
      if current.status == s {
        db.Skips();
        return true;
      }
      if s !in Allowed(current.status) { return false; }
      db.PutTask(t, current.(status := s));
      return true;
    }

    method RecordError(t: Id) returns (ok: bool)
      modifies db
      ensures ok <==> Store.RecordError(old(db.Contents()), t).Some?
      ensures ok ==> db.Wrote([Store.RecordError(old(db.Contents()), t).value])
      ensures !ok ==> db.Wrote([])
    {
      if t !in db.tasks { return false; }
      var current := db.tasks[t];
      if current.status != FAILED && FAILED !in Allowed(current.status) { return false; }
      assert current.status == FAILED ==> db.tasks[t := current] == db.tasks;
      db.PutTask(t, current.(status := FAILED));
      return true;
    }

    method SetDeployment(t: Id, dep: Id)
      requires t in db.tasks
      modifies db
      ensures db.Wrote([old(db.Contents()).(tasks := old(db.tasks)[t := old(db.tasks)[t].(deployment := Some(dep))])])
    {
      db.PutTask(t, db.tasks[t].(deployment := Some(dep)));
    }

    method SetRollbackState(t: Id, state: RollbackState)
      requires t in db.tasks
      modifies db
      ensures db.Wrote([old(db.Contents()).(tasks := old(db.tasks)[t := old(db.tasks)[t].(rollback := state)])])
    {
      db.PutTask(t, db.tasks[t].(rollback := state));
    }

    /** The work that stands in the way: a running job before an UNKNOWN one, any job before an
        operation. Null means that every job and operation of the task has settled. */
    method BlockingWork(t: Id) returns (blocking: Option<Blocking>)
      ensures blocking.None? <==> JobsSettled(db.jobs, t) && OpsSettled(db.ops, t)
      ensures blocking.None? <==> !Store.BlockingWork(db.Contents(), t)
      ensures blocking.Some? && blocking.value.Job? ==>
                var j := blocking.value.id;
                j in db.jobs && db.jobs[j].attached == Some(t) && db.jobs[j].status == blocking.value.jobStatus
                && (blocking.value.jobStatus == JobRunning
                     || (blocking.value.jobStatus == JobUnknown && !RunningJob(db.jobs, t)))
      ensures blocking.Some? && blocking.value.Operation? ==>
                var o := blocking.value.id;
                o in db.ops && db.ops[o].task == t && db.ops[o].status == blocking.value.status
                && blocking.value.status in {OpRunning, OpUnknown} && JobsSettled(db.jobs, t)
    {
      if RunningJob(db.jobs, t) {
        var j :| j in db.jobs && db.jobs[j].attached == Some(t) && db.jobs[j].status.JobRunning?;
        return Some(Job(j, JobRunning));
      }
      if UnknownJob(db.jobs, t) {
        var j :| j in db.jobs && db.jobs[j].attached == Some(t) && db.jobs[j].status.JobUnknown?;
        return Some(Job(j, JobUnknown));
      }
      if BlockingOp(db.ops, t) {
        var o :| o in db.ops && db.ops[o].task == t && (db.ops[o].status.OpRunning? || db.ops[o].status.OpUnknown?);
        return Some(Blocking.Operation(o, db.ops[o].status));
      }
      return None;
    }

    /** SELECT ... ORDER BY attempt DESC LIMIT 1, as a scan of the task's decided runs. */
    method HasVerifiedResumeDecision(t: Id) returns (verified: bool)
      ensures verified <==> ResumeVerified(db.runs, t)
    {
      var todo := set r | r in db.runs && r.task == t && db.runs[r].decision.Some?;
      ghost var all := todo;
      var latest: Option<RunId> := None;
      while todo != {}
        invariant todo <= all
        invariant latest.Some? ==> latest.value in all && forall q | q in all - todo ::
                    q.attempt <= latest.value.attempt
        invariant latest.None? ==> todo == all
        decreases |todo|
      {
        var r :| r in todo;
        todo := todo - {r};
        if latest.None? || latest.value.attempt < r.attempt {
          latest := Some(r);
        }
      }
      assert forall r | r in db.runs && r.task == t && db.runs[r].decision.Some? :: r in all;
      if latest.None? { return false; }
      verified := db.runs[latest.value].decision == Some(ResumeRecommended);
      LatestDecides(db.runs, t, latest.value);
    }

    method Resume(ghost m: Mem, t: Id) returns (ok: bool)
      modifies db
      ensures ok <==> MayResume(old(db.Contents()), t)
      ensures db.Wrote(Runtime.Resume(old(db.Contents()), m, t).writes)
    {
      hide ResumeVerified, Store.BlockingWork, JobsSettled, OpsSettled;
      if t !in db.tasks || !db.tasks[t].resumable { return false; }
      var status := db.tasks[t].status;
      if status !in RESUMABLE { return false; }
      var blocking := BlockingWork(t);
      if blocking.Some? { return false; }
      if status == RECOVERY_REQUIRED {
        var verified := HasVerifiedResumeDecision(t);
        if !verified { return false; }
        db.PutTask(t, db.tasks[t].(recoveryAttempts := db.tasks[t].recoveryAttempts + 1));
      }
      ok := SetStatus(t, RUNNING);
    }

    method Pause(ghost m: Mem, t: Id) returns (ok: bool)
      modifies db
      ensures ok <==> (t in old(db.tasks) && old(db.tasks)[t].status == RUNNING
                       && !Store.BlockingWork(old(db.Contents()), t))
      ensures db.Wrote(Runtime.Pause(old(db.Contents()), m, t).writes)
    {
      if t !in db.tasks || db.tasks[t].status != RUNNING { return false; }
      var blocking := BlockingWork(t);
      if blocking.Some? { return false; }
      ok := SetStatus(t, PAUSED);
    }

    /** `cancel` up to its wait for the attached job, or all of it when no job runs. The newest
        running job of a task is its only one. */
    method Cancel(ghost m: Mem, jobs: JobManager, id: Id, t: Id) returns (waits: bool)
      requires jobs.db == db && jobs.Shows(m) && m.cancelling == cancelling && id !in cancelling
      requires forall i, j | i in db.jobs && j in db.jobs && db.jobs[i].attached == db.jobs[j].attached == Some(t)
                             && db.jobs[i].status.JobRunning? && db.jobs[j].status.JobRunning? :: i == j
      modifies this, jobs, db
      ensures db.Wrote(CancelStart(old(db.Contents()), m, id, t).writes)
      ensures jobs.Shows(CancelStart(old(db.Contents()), m, id, t).mem)
      ensures cancelling == CancelStart(old(db.Contents()), m, id, t).mem.cancelling
      ensures waits <==> id in cancelling
    {
      if t !in db.tasks || db.tasks[t].status in {COMPLETED, ROLLED_BACK, CANCELLED} { return false; }
      if BlockingOp(db.ops, t) { return false; }
      hide Attending, AttachedJob, CancelReplyFor, Abort;
      if RunningJob(db.jobs, t) {
        var j, aborted := AbortAttached(m, jobs, t);
        if !aborted { return false; }
        cancelling := cancelling[id := Cancelling(t, j)];
        return true;
      }
      if UnknownJob(db.jobs, t) { return false; }
      var _ := SetStatus(t, CANCELLED);
      return false;
    }

    method AbortAttached(ghost m: Mem, jobs: JobManager, t: Id) returns (j: Id, aborted: bool)
      requires jobs.db == db && jobs.Shows(m) && RunningJob(db.jobs, t)
      requires forall i, j | i in db.jobs && j in db.jobs && db.jobs[i].attached == db.jobs[j].attached == Some(t)
                             && db.jobs[i].status.JobRunning? && db.jobs[j].status.JobRunning? :: i == j
      modifies jobs
      ensures j == AttachedJob(db.jobs, t)
      ensures aborted <==> CancelReplyFor(db.Contents(), m, j).Aborted?
      ensures jobs.Shows(if aborted then Abort(m, j) else m)
    {
      j :| j in db.jobs && db.jobs[j].attached == Some(t) && db.jobs[j].status.JobRunning?;
      var reply := jobs.Cancel(m, j);
      aborted := reply.Aborted?;
    }

    method EndCancel(ghost m: Mem, id: Id) returns (ok: bool)
      requires m.cancelling == cancelling && id in cancelling
      modifies this, db
      ensures db.Wrote(CancelEnd(old(db.Contents()), m, id).writes)
      ensures cancelling == CancelEnd(old(db.Contents()), m, id).mem.cancelling
    {
      var t := cancelling[id].task;
      cancelling := cancelling - {id};
      if UnknownJob(db.jobs, t) { return false; }
      ok := SetStatus(t, CANCELLED);
    }

    method MarkInterruptedForRecovery() returns (changes: nat)
      modifies db
      ensures db.Wrote([Agent.AfterPart(old(db.Contents()), Agent.BootInterrupted)])
      ensures changes == |set t | t in old(db.tasks) && Interrupted(old(db.tasks)[t].status)|
    {
      changes := |set t | t in db.tasks && Interrupted(db.tasks[t].status)|;
      var rows := map t | t in db.tasks ::
        if db.tasks[t].status in {RUNNING, DEPLOYING, HEALTH_CHECKING, RECOVERING, ROLLING_BACK}
        then db.tasks[t].(status := RECOVERY_REQUIRED) else db.tasks[t];
      assert rows == Agent.MarkInterrupted(db.tasks);
      db.ReplaceTasks(rows);
    }

    method MarkUnknownWorkForRecovery() returns (changes: nat)
      modifies db
      ensures db.Wrote([Agent.AfterPart(old(db.Contents()), Agent.BootUnknown)])
      ensures changes == |set t | t in old(db.tasks) && !Terminal(old(db.tasks)[t].status)
              && UnknownWork(old(db.Contents()), t)|
    {
      var lost := set t | t in db.tasks && !Terminal(db.tasks[t].status)
        && (UnknownOp(db.ops, t) || UnknownJob(db.jobs, t));
      assert lost == set t | t in db.tasks && !Terminal(db.tasks[t].status) && UnknownWork(db.Contents(), t);
      changes := |lost|;
      var rows := map t | t in db.tasks ::
        if db.tasks[t].status !in {COMPLETED, ROLLED_BACK, CANCELLED}
           && (UnknownJob(db.jobs, t) || UnknownOp(db.ops, t))
        then db.tasks[t].(status := RECOVERY_REQUIRED) else db.tasks[t];
      assert rows == Agent.MarkUnknown(db.Contents());
      db.ReplaceTasks(rows);
    }
  }

  /** The decided run of the highest attempt decides. */
  lemma LatestDecides(runs: map<RunId, RunRow>, t: Id, r: RunId)
    requires r in runs && r.task == t && runs[r].decision.Some?
    requires forall q | q in runs && q.task == t && runs[q].decision.Some? :: q.attempt <= r.attempt
    ensures ResumeVerified(runs, t) <==> runs[r].decision == Some(ResumeRecommended)
  {
    if ResumeVerified(runs, t) {
      var q :| q in runs && q.task == t && runs[q].decision == Some(ResumeRecommended)
               && forall q' | q' in runs && q'.task == t && runs[q'].decision.Some? :: q'.attempt <= q.attempt;
      assert q == r;
    }
  }
}
