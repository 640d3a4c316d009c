/** `RollbackEngine`: `plan` and `execute` as one method a stretch. `next` is where the call
    suspends, or the outcome the surrounding persistent operation sees. */
module Rollbacks {
  import opened Prelude
  import opened KeyTable
  import opened Store
  import opened Runtime
  import opened Engines
  import opened Database
  import opened Tasks

  function PlanInserted(d: Durable, plan: Id, row: PlanRow): seq<Durable>
    requires row.task in d.tasks
  {
    var d1 := d.(plans := d.plans[plan := row]);
    var d2 := SetRollback(d1, row.task, plan);
    [d1, d2] + IfMoved(SetStatus(d2, row.task, PlannedStatus(row)))
  }

  class RollbackEngine {
    const db: StateDb
    const tasks: TaskEngine
    /** The `plan` calls suspended at their reads. */
    var drafts: map<Id, Draft>

    ghost predicate Wired() { tasks.db == db }

    constructor (db: StateDb, tasks: TaskEngine)
      requires tasks.db == db
      ensures Wired() && this.db == db && drafts == map[]
    {
      this.db, this.tasks := db, tasks;
      drafts := map[];
    }

    method BeginPlan(ghost m: Mem, id: Id, task: Id, p: Project)
      requires m.drafts == drafts
      modifies this
      ensures PlanBegin(db.Contents(), m, id, task, p).writes == []
      ensures drafts == PlanBegin(db.Contents(), m, id, task, p).mem.drafts
    {
      if task !in db.tasks || db.tasks[task].project != p { return; }
      var row := db.tasks[task];
      if row.deployment.None? || row.deployment.value !in db.deployments { return; }
      var deployment := db.deployments[row.deployment.value];
      drafts := drafts[id := Draft(task, p, row.deployment.value, deployment.before, deployment.after,
          MigrationOf(row.rollback))];
    }

    /** The reasons not to plan, counted as the source collects them. */
    method Reasons(draft: Draft, noAdapter: bool, seen: Observed) returns (reasons: nat)
      ensures reasons == 0 <==> PlanIsReady(draft, noAdapter, seen)
    {
      reasons := 0;
      if draft.target.None? {
        reasons := reasons + 1;
      } else if !seen.targetExists {
        reasons := reasons + 1;
      }
      if !seen.clean { reasons := reasons + 1; }
      if draft.deployed.Some? && seen.head != draft.deployed { reasons := reasons + 1; }
      if Migration.Assess(noAdapter, draft.migration, seen.migration) != Migration.Safe { reasons := reasons + 1; }
      if !seen.configured { reasons := reasons + 1; }
    }

    method CommitPlan(ghost m: Mem, id: Id, plan: Id, noAdapter: bool, seen: Observed)
      requires Wired() && m.drafts == drafts && id in drafts && drafts[id].task in db.tasks
      modifies this, db
      ensures db.Wrote(PlanCommit(old(db.Contents()), m, id, plan, noAdapter, seen).writes)
      ensures drafts == PlanCommit(old(db.Contents()), m, id, plan, noAdapter, seen).mem.drafts
    {
      var draft := drafts[id];
      var reasons := Reasons(draft, noAdapter, seen);
      var row := PlanRow(draft.task, draft.project, draft.deployment, draft.target, seen.head,
          Migration.Recorded(noAdapter, draft.migration),
                         if reasons == 0 then PlanReady else PlanBlocked, None);
      assert row == PlannedRow(draft, noAdapter, seen);
      hide PlannedRow, PlanIsReady, Migration.Recorded;
      Insert(plan, row);
      drafts := drafts - {id};
    }

    /** The rows of a new plan and the status it asks of its task. */
    method Insert(plan: Id, row: PlanRow)
      requires Wired() && row.task in db.tasks && row.status in {PlanReady, PlanBlocked}
      modifies db
      ensures db.Wrote(PlanInserted(old(db.Contents()), plan, row))
    {
      hide Store.SetStatus;
      db.PutPlan(plan, row);
      tasks.SetRollbackState(row.task, FromPlan(plan));
      var _ := tasks.SetStatus(row.task, if row.status == PlanBlocked then WAITING_FOR_USER else ROLLBACK_REQUIRED);
    }

    /** `execute` up to `revalidate`. */
    method Open(ghost m: Mem, ghost o: Id, plan: Id, p: Project, setup: Project_) returns (next: Engine)
      requires o in m.engines && m.engines[o] == Opening(plan) && o in m.sections && m.sections[o].project == p
      ensures RollOpen(db.Contents(), m, o, setup).writes == []
              && At(m, o, next) == RollOpen(db.Contents(), m, o, setup).mem
    {
      if plan !in db.plans || db.plans[plan].project != p { return Returned(false); }
      if db.plans[plan].status != PlanReady { return Returned(false); }
      return Checking(plan, setup);
    }

    method UpdateStatus(plan: Id, status: PlanStatus)
      requires plan in db.plans
      modifies db
      ensures db.Wrote([SetPlan(old(db.Contents()), plan, status)])
    {
      db.PutPlan(plan, db.plans[plan].(status := status));
    }

    /** `revalidate` has read the world: the plan is blocked, or marked and its command run. */
    method Run(ghost m: Mem, ghost o: Id, plan: Id, seen: Check) returns (next: Engine)
      requires Wired() && o in m.engines && m.engines[o] == Checking(plan, seen.setup) && PlanAt(db.Contents(), plan)
      modifies db
      ensures db.Wrote(RollRun(old(db.Contents()), m, o, seen).writes)
      ensures At(m, o, next) == RollRun(old(db.Contents()), m, o, seen).mem
    {
      hide RollFail, Store.SetStatus, Migration.Assess;
      var row := db.plans[plan];
      if !seen.clean || seen.head != row.observed
         || Migration.Assess(seen.setup.noAdapter, row.before, seen.migration) != Migration.Safe {
        UpdateStatus(plan, PlanBlocked);
        return Returned(false);
      }
      ghost var d := db.Contents();
      UpdateStatus(plan, PlanRollingBack);
      ghost var d1 := db.Contents();
      var moved := tasks.SetStatus(row.task, ROLLING_BACK);
      if !moved { return Returned(false); }
      ghost var d2 := db.Contents();
      if row.target.None? {
        next := Fail(plan);
        Then(old(db.journal), d, [d1, d2], RollFail(d2, plan));
        return;
      }
      db.CommandRuns(plan, seen);
      return RollingBack(plan, seen.setup, RollActing);
    }

    /** The `catch` of `execute`; it throws again when the task cannot fail. */
    method Fail(plan: Id) returns (next: Engine)
      requires Wired() && PlanAt(db.Contents(), plan)
      modifies db
      ensures db.Wrote(RollFail(old(db.Contents()), plan)) && next == RollGivesUp(old(db.Contents()), plan)
    {
      var task := db.plans[plan].task;
      UpdateStatus(plan, PlanFailed);
      tasks.SetRollbackState(task, FromPlan(plan));
      var failed := tasks.RecordError(task);
      if !failed { return Returned(false); }
      var _ := tasks.SetStatus(task, WAITING_FOR_USER);
      return Returned(false, RowTarget(plan));
    }

    method Reject(ghost m: Mem, ghost o: Id, plan: Id) returns (next: Engine)
      requires Wired() && RollAt(db.Contents(), m, o) && m.engines[o].plan == plan
      modifies db
      ensures db.Wrote(RollError(old(db.Contents()), m, o).writes)
      ensures At(m, o, next) == RollError(old(db.Contents()), m, o).mem
    {
      next := Fail(plan);
    }

    /** The command has exited and HEAD been read. */
    method Acted(ghost m: Mem, ghost o: Id, plan: Id, setup: Project_, exitedCleanly: bool, head: Option<Commit>)
      returns (next: Engine)
      requires Wired() && RollAt(db.Contents(), m, o) && m.engines[o] == RollingBack(plan, setup, RollActing)
      modifies db
      ensures db.Wrote(RollActed(old(db.Contents()), m, o, exitedCleanly, head).writes)
      ensures At(m, o, next) == RollActed(old(db.Contents()), m, o, exitedCleanly, head).mem
    {
      if !exitedCleanly || head != db.plans[plan].target {
        next := Reject(m, o, plan);
        return;
      }
      return RollingBack(plan, setup, Verifying(exitedCleanly, head));
    }

    /** The record of success. */
    method Succeed(ghost m: Mem, ghost o: Id, plan: Id, result: PlanResult) returns (next: Engine)
      requires Wired() && RollAt(db.Contents(), m, o) && m.engines[o].plan == plan
      modifies db
      ensures db.Wrote(RollDone(old(db.Contents()), m, o, result).writes)
      ensures At(m, o, next) == RollDone(old(db.Contents()), m, o, result).mem
    {
      hide RollFail, Store.SetStatus;
      var task := db.plans[plan].task;
      ghost var d := db.Contents();
      db.PutPlan(plan, db.plans[plan].(status := PlanSucceeded, result := Some(result)));
      ghost var d1 := db.Contents();
      tasks.SetRollbackState(task, FromPlan(plan));
      ghost var d2 := db.Contents();
      var moved := tasks.SetStatus(task, ROLLED_BACK);
      if !moved {
        next := Fail(plan);
        Then(old(db.journal), d, [d1, d2], RollFail(d2, plan));
        return;
      }
      return Returned(true, RowTarget(plan));
    }

    /** Service state read, when there is a service. */
    method ServiceIs(ghost m: Mem, ghost o: Id, plan: Id, setup: Project_, clean: bool, head: Option<Commit>,
            active: Option<bool>)
      returns (next: Engine)
      requires Wired() && RollAt(db.Contents(), m, o)
               && m.engines[o] == RollingBack(plan, setup, Verifying(clean, head))
      modifies db
      ensures db.Wrote(RollService(old(db.Contents()), m, o, active).writes)
      ensures At(m, o, next) == RollService(old(db.Contents()), m, o, active).mem
    {
      hide RollFail, Store.SetStatus;
      if setup.service && active != Some(true) {
        next := Reject(m, o, plan);
        return;
      }
      if !setup.health {
        next := Succeed(m, o, plan, PlanResult(clean, setup, head, active, None));
        return;
      }
      ghost var d := db.Contents();
      UpdateStatus(plan, PlanChecking);
      ghost var d1 := db.Contents();
      var moved := tasks.SetStatus(db.plans[plan].task, HEALTH_CHECKING);
      if !moved {
        next := Fail(plan);
        Then(old(db.journal), d, [d1], RollFail(d1, plan));
        return;
      }
      return RollingBack(plan, setup, RollHealth(clean, head, active));
    }

    /** Health read. */
    method HealthIs(ghost m: Mem, ghost o: Id, plan: Id, setup: Project_, clean: bool, head: Option<Commit>,
            service: Option<bool>,
            health: Health)
      returns (next: Engine)
      requires Wired() && RollAt(db.Contents(), m, o)
               && m.engines[o] == RollingBack(plan, setup, RollHealth(clean, head, service))
      modifies db
      ensures db.Wrote(RollFinish(old(db.Contents()), m, o, health).writes)
      ensures At(m, o, next) == RollFinish(old(db.Contents()), m, o, health).mem
    {
      if setup.healthRequired && health != Healthy {
        next := Reject(m, o, plan);
        return;
      }
      next := Succeed(m, o, plan, PlanResult(clean, setup, head, service, Some(health)));
    }
  }
}
