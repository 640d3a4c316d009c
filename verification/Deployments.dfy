/** `DeploymentEngine`: `deploy` as one method a stretch. `next` is where the call suspends, or the
    outcome the surrounding persistent operation sees. */
module Deployments {
  import opened Prelude
  import opened KeyTable
  import opened Store
  import opened Runtime
  import opened Engines
  import opened Database
  import opened Tasks

  class DeploymentEngine {
    const db: StateDb
    const tasks: TaskEngine

    ghost predicate Wired() { tasks.db == db }

    constructor (db: StateDb, tasks: TaskEngine)
      requires tasks.db == db
      ensures Wired() && this.db == db
    {
      this.db, this.tasks := db, tasks;
    }

    /** From the end of the precheck to the deploy command. */
    method Record(ghost m: Mem, ghost o: Id, task: Id, dep: Id, setup: Project_, before: Option<Commit>,
            migration: Migration.Raw, validation: Option<bool>)
      returns (next: Engine)
      requires Wired() && o in m.engines && m.engines[o] == Precheck(task) && task in db.tasks
      modifies db
      ensures db.Wrote(DeployRecord(old(db.Contents()), m, o, dep, setup, before, migration, validation).writes)
      ensures At(m, o, next) == DeployRecord(old(db.Contents()), m, o, dep, setup, before, migration, validation).mem
    {
      hide DeployFail, Store.SetStatus, GivesUp, Recorded, RecordWrites;
      if setup.validationRequired && validation != Some(true) { return Returned(false); }
      var row := DeployRow(task, Preparing, before, None, migration, setup, validation, None, None);
      KeepRecords(dep, row);
      ghost var d1 := db.Contents();
      RecordedLast(old(db.Contents()), dep, row);
      var moved := tasks.SetStatus(task, DEPLOYING);
      if !moved {
        next := Fail(dep, task);
        Then(old(db.journal), old(db.Contents()), RecordWrites(old(db.Contents()), dep, row),
            DeployFail(d1, dep, task));
        return;
      }
      UpdateStatus(dep, DeployRunning);
      return Deploying(dep, task, setup, DeployActing);
    }

    /** The statements between the precheck and the `try`. */
    method KeepRecords(dep: Id, row: DeployRow)
      requires Wired() && row.task in db.tasks
      modifies db
      ensures db.Wrote(RecordWrites(old(db.Contents()), dep, row))
    {
      db.PutDeployment(dep, row);
      tasks.SetDeployment(row.task, dep);
      tasks.SetRollbackState(row.task, FromDeploy(row.migration));
      assert db.Contents() == Recorded(old(db.Contents()), dep, row);
    }

    method UpdateStatus(dep: Id, status: DeployStatus)
      requires dep in db.deployments
      modifies db
      ensures db.Wrote([SetDeploy(old(db.Contents()), dep, old(db.deployments)[dep].(status := status))])
    {
      db.PutDeployment(dep, db.deployments[dep].(status := status));
    }

    /** The `catch` of `deploy`; it throws again when the task cannot fail. */
    method Fail(dep: Id, task: Id) returns (next: Engine)
      requires Wired() && dep in db.deployments
      modifies db
      ensures db.Wrote(DeployFail(old(db.Contents()), dep, task)) && next == GivesUp(old(db.Contents()), task, dep)
    {
      UpdateStatus(dep, DeployFailed);
      var recorded := tasks.RecordError(task);
      return Returned(false, if recorded then RowTarget(dep) else NoTarget);
    }

    /** An await of `deploy` rejects. */
    method Reject(ghost m: Mem, ghost o: Id, dep: Id, task: Id) returns (next: Engine)
      requires Wired() && DeployAt(db.Contents(), m, o) && m.engines[o].deployment == dep && m.engines[o].task == task
      modifies db
      ensures db.Wrote(DeployError(old(db.Contents()), m, o).writes)
      ensures At(m, o, next) == DeployError(old(db.Contents()), m, o).mem
    {
      next := Fail(dep, task);
    }

    /** Command and restart done, HEAD read. */
    method Acted(ghost m: Mem, ghost o: Id, dep: Id, task: Id, setup: Project_, after: Option<Commit>)
      returns (next: Engine)
      requires DeployAt(db.Contents(), m, o) && m.engines[o] == Deploying(dep, task, setup, DeployActing)
      modifies db
      ensures db.Wrote(DeployActed(old(db.Contents()), m, o, after).writes)
      ensures At(m, o, next) == DeployActed(old(db.Contents()), m, o, after).mem
    {
      db.PutDeployment(dep, db.deployments[dep].(after := after));
      return Deploying(dep, task, setup, ServiceChecking);
    }

    /** Service state read, when there is a service. */
    method ServiceIs(ghost m: Mem, ghost o: Id, dep: Id, task: Id, setup: Project_, active: Option<bool>)
      returns (next: Engine)
      requires Wired() && DeployAt(db.Contents(), m, o) && m.engines[o] == Deploying(dep, task, setup, ServiceChecking)
      modifies db
      ensures db.Wrote(DeployService(old(db.Contents()), m, o, active).writes)
      ensures At(m, o, next) == DeployService(old(db.Contents()), m, o, active).mem
    {
      if setup.service && active != Some(true) {
        next := Reject(m, o, dep, task);
        return;
      }
      var moved := tasks.SetStatus(task, HEALTH_CHECKING);
      if !moved {
        next := Reject(m, o, dep, task);
        return;
      }
      UpdateStatus(dep, DeployChecking);
      return Deploying(dep, task, setup, DeployHealth(active));
    }

    /** Health read. */
    method HealthIs(ghost m: Mem, ghost o: Id, dep: Id, task: Id, setup: Project_, service: Option<bool>,
            health: Health)
      returns (next: Engine)
      requires Wired() && DeployAt(db.Contents(), m, o)
               && m.engines[o] == Deploying(dep, task, setup, DeployHealth(service))
      modifies db
      ensures db.Wrote(DeployFinish(old(db.Contents()), m, o, health).writes)
      ensures At(m, o, next) == DeployFinish(old(db.Contents()), m, o, health).mem
    {
      hide DeployFail, Store.SetStatus, GivesUp;
      ghost var d := db.Contents();
      db.PutDeployment(dep, db.deployments[dep].(health := Some(health)));
      ghost var d1 := db.Contents();
      if setup.healthRequired && health != Healthy {
        next := Fail(dep, task);
        Then(old(db.journal), d, [d1], DeployFail(d1, dep, task));
        return;
      }
      db.PutDeployment(dep, db.deployments[dep].(status := DeploySucceeded, service := service));
      ghost var d2 := db.Contents();
      var moved := tasks.SetStatus(task, COMPLETED);
      if !moved {
        next := Fail(dep, task);
        Then(old(db.journal), d, [d1, d2], DeployFail(d2, dep, task));
        return;
      }
      return Returned(true, RowTarget(dep));
    }
  }
}
