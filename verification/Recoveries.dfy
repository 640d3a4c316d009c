/** `RecoveryEngine`: `assess` up to its await and after it. */
module Recoveries {
  import opened Prelude
  import opened KeyTable
  import opened Store
  import opened Engines
  import opened Database
  import opened Tasks

  class RecoveryEngine {
    const db: StateDb
    const tasks: TaskEngine
    const maxAttempts: nat

    ghost predicate Wired() { tasks.db == db }

    constructor (db: StateDb, tasks: TaskEngine, maxAttempts: nat)
      requires tasks.db == db && maxAttempts >= 1
      ensures Wired() && this.db == db && this.maxAttempts == maxAttempts
    {
      this.db, this.tasks, this.maxAttempts := db, tasks, maxAttempts;
    }

    /** Up to the evidence collection: the attempt number, or None when `assess` throws. */
    method Open(task: Id, p: Project) returns (attempt: Option<nat>)
      requires Wired()
      modifies db
      ensures
        match AssessOpen(old(db.Contents()), maxAttempts, task, p)
        case Declined(writes) => attempt == None && db.Wrote(writes)
        case Admitted(d1, n) => attempt == Some(n) && db.Wrote([d1])
    {
      if task !in db.tasks || db.tasks[task].project != p { return None; }
      var row := db.tasks[task];
      if row.status in {COMPLETED, ROLLED_BACK, CANCELLED} { return None; }
      var next := CountRuns(db.runs, task) + 1;
      if next > maxAttempts {
        var _ := tasks.SetStatus(task, if row.deployment.Some? then ROLLBACK_REQUIRED else WAITING_FOR_USER);
        return None;
      }
      var moved := tasks.SetStatus(task, RECOVERING);
      return if moved then Some(next) else None;
    }

    /** After it. The run's row is inserted before the decision. */
    method Close(now: Time, task: Id, attempt: nat, verdict: Verdict) returns (succeeded: bool, target: Target)
      requires Wired()
      modifies db
      ensures db.Wrote(AssessClose(old(db.Contents()), now, task, attempt, verdict).writes)
      ensures succeeded == AssessClose(old(db.Contents()), now, task, attempt, verdict).succeeded
      ensures target == AssessClose(old(db.Contents()), now, task, attempt, verdict).target
    {
      var r := RunId(task, attempt);
      var inserted := db.InsertRun(r, RunRow(None, if verdict.NotCollected? then Some(now) else None));
      if !inserted { return false, NoTarget; }
      if verdict.NotCollected? {
        var waits := tasks.SetStatus(task, WAITING_FOR_USER);
        return false, if waits then RunTarget(r) else NoTarget;
      }
      if verdict.Undecided? { return false, NoTarget; }
      db.UpdateRun(r, RunRow(Some(verdict.decision), Some(now)));
      var moved := tasks.SetStatus(task, StatusAfter(verdict.decision));
      return moved, if moved then RunTarget(r) else NoTarget;
    }
  }
}
