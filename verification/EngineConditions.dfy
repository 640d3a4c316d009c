/** Exactly when the deployment, rollback and recovery engines succeed, give up or go on: what the
    outside world must have answered, and where the task must stand. */
module EngineConditions {
  import opened Prelude
  import opened KeyTable
  import opened Store
  import opened Runtime
  import opened Engines
  import opened Database

  /** The statuses from which a task may be set to `s`: the state machine read backwards. */
  function Into(s: TaskStatus): set<TaskStatus> {
    match s
    case PENDING => {PENDING}
    case RUNNING => {TaskStatus.RUNNING, PENDING, PAUSED, FAILED, WAITING_FOR_USER, RECOVERY_REQUIRED, RECOVERING}
    case PAUSED => {PAUSED, TaskStatus.RUNNING}
    case FAILED => {FAILED, PENDING, TaskStatus.RUNNING, PAUSED, WAITING_FOR_USER, RECOVERY_REQUIRED, DEPLOYING,
                    HEALTH_CHECKING, RECOVERING, ROLLBACK_REQUIRED, ROLLING_BACK}
    case WAITING_FOR_USER => {WAITING_FOR_USER, PENDING, TaskStatus.RUNNING, PAUSED, FAILED, RECOVERY_REQUIRED,
                              RECOVERING, ROLLBACK_REQUIRED, ROLLING_BACK}
    case RECOVERY_REQUIRED => {RECOVERY_REQUIRED, PENDING, TaskStatus.RUNNING, PAUSED, FAILED, WAITING_FOR_USER,
                               DEPLOYING, HEALTH_CHECKING, RECOVERING}
    case DEPLOYING => {DEPLOYING, PENDING, TaskStatus.RUNNING}
    case HEALTH_CHECKING => {HEALTH_CHECKING, TaskStatus.RUNNING, DEPLOYING, ROLLING_BACK}
    case RECOVERING => {RECOVERING, PENDING, TaskStatus.RUNNING, PAUSED, FAILED, WAITING_FOR_USER, RECOVERY_REQUIRED}
    case ROLLBACK_REQUIRED => {ROLLBACK_REQUIRED, PENDING, TaskStatus.RUNNING, PAUSED, FAILED, WAITING_FOR_USER,
                               RECOVERY_REQUIRED, DEPLOYING, HEALTH_CHECKING, RECOVERING}
    case ROLLING_BACK => {ROLLING_BACK, TaskStatus.RUNNING, ROLLBACK_REQUIRED}
    case COMPLETED => {COMPLETED, TaskStatus.RUNNING, HEALTH_CHECKING, RECOVERING}
    case ROLLED_BACK => {ROLLED_BACK, TaskStatus.RUNNING, HEALTH_CHECKING, ROLLING_BACK}
    case CANCELLED => {CANCELLED, PENDING, TaskStatus.RUNNING, PAUSED, FAILED, WAITING_FOR_USER, RECOVERY_REQUIRED,
                       DEPLOYING, HEALTH_CHECKING, RECOVERING, ROLLBACK_REQUIRED, ROLLING_BACK}
  }

  /** The task is there and may be set to `s`. */
  predicate Accepts(d: Durable, t: Id, s: TaskStatus) { t in d.tasks && d.tasks[t].status in Into(s) }

  function Moved(d: Durable, t: Id, s: TaskStatus): Durable
    requires t in d.tasks
  {
    d.(tasks := d.tasks[t := d.tasks[t].(status := s)])
  }

  /** A status is set exactly when the task accepts it. */
  lemma MoveIff(d: Durable, t: Id, s: TaskStatus)
    ensures SetStatus(d, t, s) == if Accepts(d, t, s) then Some(Moved(d, t, s)) else None
  {
    if t in d.tasks {
      IntoIff(d.tasks[t].status, s);
      hide Into, Allowed;
      if d.tasks[t].status == s { assert d.tasks[t := d.tasks[t]] == d.tasks; }
    }
  }

  lemma IntoIff(from: TaskStatus, to: TaskStatus)
    ensures from in Into(to) <==> from == to || to in Allowed(from)
  {
    hide Into, Allowed;
    match from
    case PENDING => FromIdle(from, to);
    case PAUSED => FromIdle(from, to);
    case FAILED => FromIdle(from, to);
    case WAITING_FOR_USER => FromIdle(from, to);
    case RECOVERY_REQUIRED => FromIdle(from, to);
    case ROLLBACK_REQUIRED => FromIdle(from, to);
    case RUNNING => FromBusy(from, to);
    case DEPLOYING => FromBusy(from, to);
    case HEALTH_CHECKING => FromBusy(from, to);
    case RECOVERING => FromBusy(from, to);
    case ROLLING_BACK => FromBusy(from, to);
    case _ => FromOver(from, to);
  }

  lemma FromIdle(from: TaskStatus, to: TaskStatus)
    requires from.PENDING? || from.PAUSED? || from.FAILED? || from.WAITING_FOR_USER? || from.RECOVERY_REQUIRED?
             || from.ROLLBACK_REQUIRED?
    ensures from in Into(to) <==> from == to || to in Allowed(from)
  {
    match from
    case PENDING =>
    case PAUSED =>
    case FAILED =>
    case WAITING_FOR_USER =>
    case RECOVERY_REQUIRED =>
    case ROLLBACK_REQUIRED =>
  }

  lemma FromBusy(from: TaskStatus, to: TaskStatus)
    requires from.RUNNING? || from.DEPLOYING? || from.HEALTH_CHECKING? || from.RECOVERING? || from.ROLLING_BACK?
    ensures from in Into(to) <==> from == to || to in Allowed(from)
  {
    match from
    case RUNNING =>
    case DEPLOYING =>
    case HEALTH_CHECKING =>
    case RECOVERING =>
    case ROLLING_BACK =>
  }

  lemma FromOver(from: TaskStatus, to: TaskStatus)
    requires from.COMPLETED? || from.ROLLED_BACK? || from.CANCELLED?
    ensures from in Into(to) <==> from == to || to in Allowed(from)
  {
    match from
    case COMPLETED =>
    case ROLLED_BACK =>
    case CANCELLED =>
  }

  lemma FailsUnlessOver(d: Durable, t: Id)
    ensures Accepts(d, t, FAILED) <==> t in d.tasks && d.tasks[t].status !in {COMPLETED, ROLLED_BACK, CANCELLED}
  {
    if t in d.tasks {
      var s := d.tasks[t].status;
      assert s in Into(FAILED) <==> !s.COMPLETED? && !s.ROLLED_BACK? && !s.CANCELLED?;
    }
  }

  // ---------------------------------------------------------------- deployment

  /** How a deployment ends: the row's status, and the task's if it accepts that one too. */
  ghost predicate Ended(d: Durable, s: Stretch, o: Id, dep: Id, status: DeployStatus, t: Id, to: TaskStatus)
    requires dep in d.deployments
  {
    var w := Last(d, s.writes);
    && dep in w.deployments && w.deployments[dep].status == status
    && w.deployments[dep].after == d.deployments[dep].after
    && (Accepts(d, t, to) ==> w.tasks == Moved(d, t, to).tasks)
    && (!Accepts(d, t, to) ==> w.tasks == d.tasks)
    && o in s.mem.engines
    && s.mem.engines[o] == Returned(status.DeploySucceeded?, if Accepts(d, t, to) then RowTarget(dep) else NoTarget)
  }

  lemma DeployFailIs(d: Durable, dep: Id, t: Id)
    requires dep in d.deployments
    ensures var w := Last(d, DeployFail(d, dep, t));
            && w.deployments == d.deployments[dep := d.deployments[dep].(status := DeployFailed)]
            && w.tasks == if Accepts(d, t, FAILED) then Moved(d, t, FAILED).tasks else d.tasks
    ensures GivesUp(d, t, dep) == Returned(false, if Accepts(d, t, FAILED) then RowTarget(dep) else NoTarget)
  {
    MoveIff(SetDeploy(d, dep, d.deployments[dep].(status := DeployFailed)), t, FAILED);
    MoveIff(d, t, FAILED);
    hide Into, SetStatus;
  }

  /** The catch block after these writes, which left the tasks alone. */
  lemma DeployFailEnds(d: Durable, d1: Durable, first: seq<Durable>, m: Mem, o: Id, dep: Id, t: Id)
    requires dep in d1.deployments && d1.tasks == d.tasks && Last(d, first) == d1
    requires dep in d.deployments && d1.deployments[dep].after == d.deployments[dep].after
    ensures Ended(d, Stretch(first + DeployFail(d1, dep, t), At(m, o, GivesUp(d1, t, dep))), o, dep, DeployFailed, t,
              FAILED)
    ensures [] + DeployFail(d1, dep, t) == DeployFail(d1, dep, t)
  {
    DeployFailIs(d1, dep, t);
    var rest, e := DeployFail(d1, dep, t), GivesUp(d1, t, dep);
    Then([], d, first, rest);
    hide DeployFail, GivesUp, Into, Last;
  }

  /** The record-keeping of `deploy` is done: the row is in, and the task points at it. */
  ghost predicate OnRecord(d: Durable, w: Durable, dep: Id, t: Id, before: Option<Commit>, migration: Migration.Raw) {
    && dep in w.deployments && w.deployments[dep].task == t && w.deployments[dep].before == before
    && w.deployments[dep].migration == migration
    && t in w.tasks && w.tasks[t].deployment == Some(dep) && w.tasks[t].rollback == FromDeploy(migration)
  }

  /** The task accepts DEPLOYING: the deploy command runs. */
  lemma RecordBegins(d: Durable, m: Mem, o: Id, dep: Id, setup: Project_, before: Option<Commit>,
          migration: Migration.Raw, validation: Option<bool>)
    requires o in m.engines && m.engines[o].Precheck? && m.engines[o].task in d.tasks
    requires setup.validationRequired ==> validation == Some(true)
    requires d.tasks[m.engines[o].task].status in {DEPLOYING, PENDING, TaskStatus.RUNNING}
    ensures
      var t, s := m.engines[o].task, DeployRecord(d, m, o, dep, setup, before, migration, validation);
      var w := Last(d, s.writes);
      && OnRecord(d, w, dep, t, before, migration)
      && s.mem == At(m, o, Deploying(dep, t, setup, DeployActing))
      && w.deployments[dep].status == DeployRunning && w.tasks[t].status == DEPLOYING
  {
    var t := m.engines[o].task;
    var row := DeployRow(t, Preparing, before, None, migration, setup, validation, None, None);
    var d1 := Recorded(d, dep, row);
    MoveIff(d1, t, DEPLOYING);
    Then([], d, RecordWrites(d, dep, row), DeployBegins(Moved(d1, t, DEPLOYING), dep));
    hide SetStatus, DeployFail, GivesUp, RecordWrites;
  }

  /** It does not: the row fails, and so does the task, unless it is over. */
  lemma RecordFails(d: Durable, m: Mem, o: Id, dep: Id, setup: Project_, before: Option<Commit>,
          migration: Migration.Raw, validation: Option<bool>)
    requires o in m.engines && m.engines[o].Precheck? && m.engines[o].task in d.tasks
    requires setup.validationRequired ==> validation == Some(true)
    requires d.tasks[m.engines[o].task].status !in {DEPLOYING, PENDING, TaskStatus.RUNNING}
    ensures
      var t, s := m.engines[o].task, DeployRecord(d, m, o, dep, setup, before, migration, validation);
      var w := Last(d, s.writes);
      && OnRecord(d, w, dep, t, before, migration)
      && o in s.mem.engines && s.mem.engines[o].Returned? && !s.mem.engines[o].succeeded
      && w.deployments[dep].status == DeployFailed
      && w.tasks[t].status == if d.tasks[t].status in {COMPLETED, ROLLED_BACK, CANCELLED} then d.tasks[t].status
         else FAILED
  {
    var t := m.engines[o].task;
    var row := DeployRow(t, Preparing, before, None, migration, setup, validation, None, None);
    var d1 := Recorded(d, dep, row);
    MoveIff(d1, t, DEPLOYING);
    hide SetStatus, DeployFail, RecordWrites;
    assert GivesUp(d1, t, dep).Returned? && !GivesUp(d1, t, dep).succeeded;
    hide GivesUp;
    assert DeployRecord(d, m, o, dep, setup, before, migration, validation) ==
           Stretch(RecordWrites(d, dep, row) + DeployFail(d1, dep, t), At(m, o, GivesUp(d1, t, dep)));
    hide DeployRecord, Recorded;
    RecordedFails(d, dep, row);
  }

  lemma RecordedFails(d: Durable, dep: Id, row: DeployRow)
    requires row.task in d.tasks
    ensures
      var d1 := Recorded(d, dep, row);
      && dep in d1.deployments
      && var w := Last(d, RecordWrites(d, dep, row) + DeployFail(d1, dep, row.task));
      && OnRecord(d, w, dep, row.task, row.before, row.migration)
      && w.deployments[dep].status == DeployFailed
      && w.tasks[row.task].status == if d.tasks[row.task].status in {COMPLETED, ROLLED_BACK, CANCELLED}
         then d.tasks[row.task].status else FAILED
  {
    var d1 := Recorded(d, dep, row);
    RecordedLast(d, dep, row);
    DeployFailIs(d1, dep, row.task);
    FailsUnlessOver(d1, row.task);
    Then([], d, RecordWrites(d, dep, row), DeployFail(d1, dep, row.task));
    hide DeployFail, GivesUp, RecordWrites, Last, Accepts, Into;
  }

  /** Nothing is written when a required validation did not pass. Otherwise the row is in, and the
      deploy command runs exactly when the task accepts DEPLOYING; else the deployment fails. */
  lemma RecordIff(d: Durable, m: Mem, o: Id, dep: Id, setup: Project_, before: Option<Commit>, migration: Migration.Raw,
          validation: Option<bool>)
    requires o in m.engines && m.engines[o].Precheck? && m.engines[o].task in d.tasks
    ensures
      var t, s := m.engines[o].task, DeployRecord(d, m, o, dep, setup, before, migration, validation);
      var w := Last(d, s.writes);
      && (s == Stretch([], At(m, o, Returned(false))) <==> setup.validationRequired && validation != Some(true))
      && (s.writes != [] ==> OnRecord(d, w, dep, t, before, migration))
      && (s.mem.engines[o].Deploying? <==>
           (setup.validationRequired ==> validation == Some(true))
           && d.tasks[t].status in {DEPLOYING, PENDING, TaskStatus.RUNNING})
      && (s.writes != [] && !s.mem.engines[o].Deploying? ==> w.deployments[dep].status == DeployFailed)
  {
    hide OnRecord;
    if !(setup.validationRequired && validation != Some(true)) {
      if d.tasks[m.engines[o].task].status in {DEPLOYING, PENDING, TaskStatus.RUNNING} {
        RecordBegins(d, m, o, dep, setup, before, migration, validation);
      } else {
        RecordFails(d, m, o, dep, setup, before, migration, validation);
      }
      RecordWritesSome(d, m, o, dep, setup, before, migration, validation);
      hide DeployRecord;
    }
  }

  lemma RecordWritesSome(d: Durable, m: Mem, o: Id, dep: Id, setup: Project_, before: Option<Commit>,
          migration: Migration.Raw, validation: Option<bool>)
    requires o in m.engines && m.engines[o].Precheck? && m.engines[o].task in d.tasks
    requires setup.validationRequired ==> validation == Some(true)
    ensures DeployRecord(d, m, o, dep, setup, before, migration, validation).writes != []
  {
    hide SetStatus, DeployFail, DeployBegins, GivesUp, Recorded;
  }

  /** On to the health check. */
  ghost predicate ToDeployHealth(d: Durable, s: Stretch, m: Mem, o: Id, active: Option<bool>)
    requires DeployAt(d, m, o)
  {
    var e, w := m.engines[o], Last(d, s.writes);
    && s.mem == At(m, o, Deploying(e.deployment, e.task, e.setup, DeployHealth(active)))
    && w.deployments == d.deployments[e.deployment := d.deployments[e.deployment].(status := DeployChecking)]
    && e.task in d.tasks && w.tasks == Moved(d, e.task, HEALTH_CHECKING).tasks
  }

  lemma ServiceGoesOn(d: Durable, m: Mem, o: Id, active: Option<bool>)
    requires DeployAt(d, m, o) && m.engines[o].deployStage.ServiceChecking?
    requires (m.engines[o].setup.service ==> active == Some(true)) && Accepts(d, m.engines[o].task, HEALTH_CHECKING)
    ensures ToDeployHealth(d, DeployService(d, m, o, active), m, o, active)
  {
    MoveIff(d, m.engines[o].task, HEALTH_CHECKING);
    hide SetStatus, Into, DeployError;
  }

  lemma ServiceFails(d: Durable, m: Mem, o: Id, active: Option<bool>)
    requires DeployAt(d, m, o) && m.engines[o].deployStage.ServiceChecking?
    requires !((m.engines[o].setup.service ==> active == Some(true)) && Accepts(d, m.engines[o].task, HEALTH_CHECKING))
    ensures Ended(d, DeployService(d, m, o, active), o, m.engines[o].deployment, DeployFailed, m.engines[o].task,
              FAILED)
  {
    var e := m.engines[o];
    MoveIff(d, e.task, HEALTH_CHECKING);
    DeployFailEnds(d, d, [], m, o, e.deployment, e.task);
    hide SetStatus, Accepts, DeployFail, GivesUp, Ended;
  }

  /** The health check follows exactly when the service is active, where there is one, and the task
      accepts HEALTH_CHECKING; else the deployment fails. */
  lemma DeployServiceIff(d: Durable, m: Mem, o: Id, active: Option<bool>)
    requires DeployAt(d, m, o) && m.engines[o].deployStage.ServiceChecking?
    ensures
      var e, s := m.engines[o], DeployService(d, m, o, active);
      if (e.setup.service ==> active == Some(true)) && Accepts(d, e.task, HEALTH_CHECKING)
      then ToDeployHealth(d, s, m, o, active)
      else Ended(d, s, o, e.deployment, DeployFailed, e.task, FAILED)
  {
    hide DeployService, Accepts, ToDeployHealth, Ended;
    if (m.engines[o].setup.service ==> active == Some(true)) && Accepts(d, m.engines[o].task, HEALTH_CHECKING) {
      ServiceGoesOn(d, m, o, active);
    } else {
      ServiceFails(d, m, o, active);
    }
  }

  lemma UnhealthyEnds(d: Durable, m: Mem, o: Id, health: Health)
    requires DeployAt(d, m, o) && m.engines[o].deployStage.DeployHealth?
    requires m.engines[o].setup.healthRequired && health != Healthy
    ensures Ended(d, DeployFinish(d, m, o, health), o, m.engines[o].deployment, DeployFailed, m.engines[o].task, FAILED)
  {
    var e := m.engines[o];
    var d1 := SetDeploy(d, e.deployment, d.deployments[e.deployment].(health := Some(health)));
    DeployFailEnds(d, d1, [d1], m, o, e.deployment, e.task);
    hide DeployFail, GivesUp, Ended;
  }

  /** The row as a success, before the task is asked. */
  function AsSucceeded(d: Durable, dep: Id, service: Option<bool>, health: Health): (Durable, Durable)
    requires dep in d.deployments
  {
    var d1 := SetDeploy(d, dep, d.deployments[dep].(health := Some(health)));
    (d1, SetDeploy(d1, dep, d1.deployments[dep].(status := DeploySucceeded, service := service)))
  }

  lemma FinishUnfolds(d: Durable, m: Mem, o: Id, health: Health)
    requires DeployAt(d, m, o) && m.engines[o].deployStage.DeployHealth?
    requires m.engines[o].setup.healthRequired ==> health == Healthy
    ensures
      var e := m.engines[o];
      var (d1, d2) := AsSucceeded(d, e.deployment, e.deployStage.service, health);
      && e.deployment in d2.deployments && d2.tasks == d.tasks
      && d2.deployments[e.deployment].after == d.deployments[e.deployment].after
      && d2.deployments[e.deployment].status == DeploySucceeded
      && DeployFinish(d, m, o, health) ==
           if Accepts(d, e.task, COMPLETED)
           then Stretch([d1, d2, Moved(d2, e.task, COMPLETED)], At(m, o, Returned(true, RowTarget(e.deployment))))
           else Stretch([d1, d2] + DeployFail(d2, e.deployment, e.task), At(m, o, GivesUp(d2, e.task, e.deployment)))
  {
    var e := m.engines[o];
    MoveIff(AsSucceeded(d, e.deployment, e.deployStage.service, health).1, e.task, COMPLETED);
    hide DeployFail, GivesUp, SetStatus, Into;
  }

  /** A deployment whose health was read is SUCCEEDED, and its task COMPLETED, exactly when the
      health is good where it is required and the task accepts COMPLETED; else it fails. */
  lemma DeployFinishIff(d: Durable, m: Mem, o: Id, health: Health)
    requires DeployAt(d, m, o) && m.engines[o].deployStage.DeployHealth?
    ensures
      var e, s := m.engines[o], DeployFinish(d, m, o, health);
      if (e.setup.healthRequired ==> health == Healthy) && Accepts(d, e.task, COMPLETED)
      then Ended(d, s, o, e.deployment, DeploySucceeded, e.task, COMPLETED)
      else Ended(d, s, o, e.deployment, DeployFailed, e.task, FAILED)
  {
    var e := m.engines[o];
    hide DeployFinish, DeployFail, GivesUp, Into;
    if e.setup.healthRequired && health != Healthy {
      UnhealthyEnds(d, m, o, health);
      return;
    }
    FinishUnfolds(d, m, o, health);
    var (d1, d2) := AsSucceeded(d, e.deployment, e.deployStage.service, health);
    hide AsSucceeded;
    if Accepts(d, e.task, COMPLETED) {
      CompletedEnds(d, d1, d2, m, o, e.deployment, e.task);
    } else {
      DeployFailEnds(d, d2, [d1, d2], m, o, e.deployment, e.task);
    }
    hide Ended, Accepts, Last;
  }

  lemma CompletedEnds(d: Durable, d1: Durable, d2: Durable, m: Mem, o: Id, dep: Id, t: Id)
    requires dep in d.deployments && dep in d2.deployments && d2.deployments[dep].status == DeploySucceeded
    requires d2.deployments[dep].after == d.deployments[dep].after && d2.tasks == d.tasks && Accepts(d, t, COMPLETED)
    ensures Ended(d, Stretch([d1, d2, Moved(d2, t, COMPLETED)], At(m, o, Returned(true, RowTarget(dep)))), o, dep,
              DeploySucceeded, t, COMPLETED)
  {
    hide Into;
  }

  // ---------------------------------------------------------------- a deployment from its command to its end

  /** Between two stretches others leave the row and the status of its task alone; the operation
      resumes where it stood. */
  ghost predicate DeployResumes(d: Durable, s: Stretch, d': Durable, m': Mem, o: Id, dep: Id, t: Id) {
    var w := Last(d, s.writes);
    && dep in w.deployments && dep in d'.deployments && d'.deployments[dep] == w.deployments[dep]
    && t in w.tasks && t in d'.tasks && d'.tasks[t].status == w.tasks[t].status
    && o in s.mem.engines && o in m'.engines && m'.engines[o] == s.mem.engines[o]
  }

  ghost predicate Deploys(s: Stretch, o: Id) { o in s.mem.engines && s.mem.engines[o].Deploying? }

  /** The stretch after the service state was read, of an operation that stands there. */
  ghost function DeployServed(d: Durable, m: Mem, o: Id, active: Option<bool>): Stretch {
    if DeployAt(d, m, o) && m.engines[o].deployStage.ServiceChecking? then DeployService(d, m, o, active) else Quiet(m)
  }

  /** The stretch after the health was read, of an operation that stands there. */
  ghost function DeployExamined(d: Durable, m: Mem, o: Id, health: Health): Stretch {
    if DeployAt(d, m, o) && m.engines[o].deployStage.DeployHealth? then DeployFinish(d, m, o, health) else Quiet(m)
  }

  ghost predicate DeployEnds(w: Durable, dep: Id, after: Option<Commit>, t: Id, good: bool) {
    && dep in w.deployments && t in w.tasks && w.deployments[dep].after == after
    && w.deployments[dep].status == (if good then DeploySucceeded else DeployFailed)
    && w.tasks[t].status == (if good then COMPLETED else FAILED)
  }

  lemma EndedEnds(d: Durable, s: Stretch, o: Id, dep: Id, status: DeployStatus, t: Id, to: TaskStatus)
    requires dep in d.deployments && Ended(d, s, o, dep, status, t, to) && t in d.tasks
             && d.tasks[t].status in {DEPLOYING, HEALTH_CHECKING}
    requires (status.DeploySucceeded? && to == COMPLETED && d.tasks[t].status == HEALTH_CHECKING)
             || (status.DeployFailed? && to == FAILED)
    ensures DeployEnds(Last(d, s.writes), dep, d.deployments[dep].after, t, status.DeploySucceeded?) && !Deploys(s, o)
  {}

  /** The task stands where a deployment goes on. */
  lemma DeployAccepts(d: Durable, t: Id)
    requires t in d.tasks
    ensures d.tasks[t].status == DEPLOYING ==> Accepts(d, t, HEALTH_CHECKING)
    ensures d.tasks[t].status == HEALTH_CHECKING ==> Accepts(d, t, COMPLETED)
  {}

  lemma DeployServedEnds(d: Durable, m: Mem, o: Id, active: Option<bool>)
    requires DeployAt(d, m, o) && m.engines[o].deployStage.ServiceChecking?
    requires m.engines[o].task in d.tasks && d.tasks[m.engines[o].task].status == DEPLOYING
    ensures
      var e, s := m.engines[o], DeployServed(d, m, o, active);
      var w := Last(d, s.writes);
      if e.setup.service ==> active == Some(true) then
        && Deploys(s, o) && s.mem.engines[o] == Deploying(e.deployment, e.task, e.setup, DeployHealth(active))
        && e.deployment in w.deployments && w.deployments[e.deployment].after == d.deployments[e.deployment].after
        && e.task in w.tasks && w.tasks[e.task].status == HEALTH_CHECKING
      else !Deploys(s, o) && DeployEnds(w, e.deployment, d.deployments[e.deployment].after, e.task, false)
  {
    var e := m.engines[o];
    DeployServiceIff(d, m, o, active);
    DeployAccepts(d, e.task);
    hide DeployService, Ended, DeployEnds, Accepts, ToDeployHealth, Deploys, Last;
    if e.setup.service ==> active == Some(true) {
      DeployHealthAwaits(d, DeployService(d, m, o, active), m, o, active);
    } else {
      EndedEnds(d, DeployService(d, m, o, active), o, e.deployment, DeployFailed, e.task, FAILED);
    }
  }

  lemma DeployHealthAwaits(d: Durable, s: Stretch, m: Mem, o: Id, active: Option<bool>)
    requires DeployAt(d, m, o) && ToDeployHealth(d, s, m, o, active)
    ensures var e, w := m.engines[o], Last(d, s.writes);
            && Deploys(s, o) && s.mem.engines[o] == Deploying(e.deployment, e.task, e.setup, DeployHealth(active))
            && e.deployment in w.deployments && w.deployments[e.deployment].after == d.deployments[e.deployment].after
            && e.task in w.tasks && w.tasks[e.task].status == HEALTH_CHECKING
  {}

  lemma DeployExaminedEnds(d: Durable, m: Mem, o: Id, health: Health)
    requires DeployAt(d, m, o) && m.engines[o].deployStage.DeployHealth?
    requires m.engines[o].task in d.tasks && d.tasks[m.engines[o].task].status == HEALTH_CHECKING
    ensures
      var e := m.engines[o];
      DeployEnds(Last(d, DeployExamined(d, m, o, health).writes), e.deployment, d.deployments[e.deployment].after,
        e.task, e.setup.healthRequired ==> health == Healthy)
  {
    var e, s := m.engines[o], DeployFinish(d, m, o, health);
    DeployFinishIff(d, m, o, health);
    DeployAccepts(d, e.task);
    hide DeployFinish, Ended, DeployEnds, Accepts;
    if e.setup.healthRequired ==> health == Healthy {
      EndedEnds(d, s, o, e.deployment, DeploySucceeded, e.task, COMPLETED);
    } else {
      EndedEnds(d, s, o, e.deployment, DeployFailed, e.task, FAILED);
    }
  }

  /** A deployment whose command has run, and whose row and task others leave alone, ends SUCCEEDED
      with the task COMPLETED exactly when the service is active where there is one and the health
      good where it is required. If either is missing it ends FAILED, and the task FAILED. Either way
      the row keeps the HEAD that was read after the command. */
  lemma DeploymentEndsIff(d0: Durable, m0: Mem, o: Id, after: Option<Commit>, d1: Durable, m1: Mem,
          active: Option<bool>, d2: Durable, m2: Mem, health: Health)
    requires DeployAt(d0, m0, o) && m0.engines[o].deployStage.DeployActing?
    requires m0.engines[o].task in d0.tasks && d0.tasks[m0.engines[o].task].status == DEPLOYING
    requires DeployResumes(d0, DeployActed(d0, m0, o, after), d1, m1, o, m0.engines[o].deployment, m0.engines[o].task)
    requires Deploys(DeployServed(d1, m1, o, active), o) ==>
               DeployResumes(d1, DeployServed(d1, m1, o, active), d2, m2, o, m0.engines[o].deployment,
                   m0.engines[o].task)
    ensures
      var e, s := m0.engines[o], DeployServed(d1, m1, o, active);
      var w := if Deploys(s, o) then Last(d2, DeployExamined(d2, m2, o, health).writes) else Last(d1, s.writes);
      DeployEnds(w, e.deployment, after, e.task,
        (e.setup.service ==> active == Some(true)) && (e.setup.healthRequired ==> health == Healthy))
  {
    DeployServedEnds(d1, m1, o, active);
    hide DeployServed, DeployExamined, DeployEnds, Deploys;
    if m0.engines[o].setup.service ==> active == Some(true) { DeployExaminedEnds(d2, m2, o, health); }
  }

  // ---------------------------------------------------------------- rollback plans

  /** A draft is made exactly when the task of the project names a deployment on record. It notes the
      commits before and after it, and the migration state the task keeps of it. */
  lemma PlanBeginIff(d: Durable, m: Mem, id: Id, task: Id, p: Project)
    requires id !in m.drafts
    ensures
      id in PlanBegin(d, m, id, task, p).mem.drafts <==>
        && task in d.tasks && d.tasks[task].project == p
        && d.tasks[task].deployment.Some? && d.tasks[task].deployment.value in d.deployments
    ensures
      var drafts := PlanBegin(d, m, id, task, p).mem.drafts;
      id in drafts ==>
        var dep, kept := d.tasks[task].deployment.value, d.tasks[task].rollback;
        drafts[id] == Draft(task, p, dep, d.deployments[dep].before, d.deployments[dep].after,
          if kept.FromDeploy? then kept.migration else Migration.NotAnObject)
  {}

  /** Both migration snapshots are known and of one version. */
  predicate SameMigration(noAdapter: bool, before: Migration.Raw, current: Migration.Raw) {
    noAdapter
    || (Migration.Known(before) && Migration.Known(current) && Migration.SameVersion(before, current))
  }

  /** A plan is READY exactly when its target is known and still there, the tree is clean, HEAD is
      where the deployment left it, the migration version is the recorded one and the rollback
      command is configured; else it is BLOCKED. The task is asked to stand accordingly. */
  lemma PlanIff(d: Durable, m: Mem, id: Id, plan: Id, noAdapter: bool, seen: Observed)
    requires id in m.drafts && m.drafts[id].task in d.tasks
    ensures
      var draft, w := m.drafts[id], Last(d, PlanCommit(d, m, id, plan, noAdapter, seen).writes);
      var ready :=
        && draft.target.Some? && seen.targetExists && seen.clean && seen.configured
        && (draft.deployed.None? || seen.head == draft.deployed)
        && SameMigration(noAdapter, draft.migration, seen.migration);
      var to := if ready then ROLLBACK_REQUIRED else WAITING_FOR_USER;
      && plan in w.plans && w.plans[plan].status == (if ready then PlanReady else PlanBlocked)
      && w.plans[plan].target == draft.target && w.plans[plan].observed == seen.head
      && w.plans[plan].task == draft.task && w.plans[plan].project == draft.project
      && w.plans[plan].deployment == draft.deployment
      && w.tasks == d.tasks[draft.task := d.tasks[draft.task].(rollback := FromPlan(plan),
           status := if Accepts(d, draft.task, to) then to else d.tasks[draft.task].status)]
  {
    var draft := m.drafts[id];
    var row := PlannedRow(draft, noAdapter, seen);
    Migration.SafeMeansSameKnownVersion(noAdapter, draft.migration, seen.migration);
    MoveIff(SetRollback(d.(plans := d.plans[plan := row]), draft.task, plan), draft.task, PlannedStatus(row));
    hide SetStatus, Migration.Assess, Migration.Known, Migration.SameVersion, Migration.Recorded, Into;
  }

  // ---------------------------------------------------------------- rollback execution

  lemma RollFailIs(d: Durable, plan: Id)
    requires PlanAt(d, plan)
    ensures
      var t, w := d.plans[plan].task, Last(d, RollFail(d, plan));
      && w.plans == d.plans[plan := d.plans[plan].(status := PlanFailed)] && w.commands == d.commands
      && t in w.tasks
      && w.tasks[t].status == if d.tasks[t].status in {COMPLETED, ROLLED_BACK, CANCELLED} then d.tasks[t].status
         else WAITING_FOR_USER
    ensures var t := d.plans[plan].task;
            RollGivesUp(d, plan) == Returned(false,
              if d.tasks[t].status in {COMPLETED, ROLLED_BACK, CANCELLED} then NoTarget else RowTarget(plan))
  {
    var t := d.plans[plan].task;
    var d2 := SetRollback(SetPlan(d, plan, PlanFailed), t, plan);
    MoveIff(d2, t, FAILED);
    FailsUnlessOver(d2, t);
    MoveIff(d, t, FAILED);
    FailsUnlessOver(d, t);
    if Accepts(d2, t, FAILED) { MoveIff(Moved(d2, t, FAILED), t, WAITING_FOR_USER); }
    hide SetStatus;
  }

  /** The rollback failed: so does its plan, and a task that is not over waits for the user. */
  ghost predicate RolledToNothing(d: Durable, s: Stretch, o: Id, plan: Id)
    requires PlanAt(d, plan)
  {
    var t, w := d.plans[plan].task, Last(d, s.writes);
    && plan in w.plans && w.plans[plan] == d.plans[plan].(status := PlanFailed, result := w.plans[plan].result)
    && t in w.tasks
    && w.tasks[t].status == (if d.tasks[t].status in {COMPLETED, ROLLED_BACK, CANCELLED} then d.tasks[t].status
       else WAITING_FOR_USER)
    && o in s.mem.engines && s.mem.engines[o].Returned? && !s.mem.engines[o].succeeded
  }

  /** The catch block after these writes, which left the status of the task alone. */
  lemma RollFailEnds(d: Durable, d1: Durable, first: seq<Durable>, m: Mem, o: Id, plan: Id)
    requires PlanAt(d, plan) && PlanAt(d1, plan) && Last(d, first) == d1
    requires d1.plans[plan] == d.plans[plan].(status := d1.plans[plan].status, result := d1.plans[plan].result)
    requires d1.tasks[d.plans[plan].task].status == d.tasks[d.plans[plan].task].status
    ensures RolledToNothing(d, Stretch(first + RollFail(d1, plan), At(m, o, RollGivesUp(d1, plan))), o, plan)
    ensures [] + RollFail(d1, plan) == RollFail(d1, plan)
  {
    RollFailIs(d1, plan);
    Then([], d, first, RollFail(d1, plan));
    hide RollFail, RollGivesUp, Last;
  }

  /** A command may be prepared exactly for a READY plan of the project. */
  lemma RollOpenIff(d: Durable, m: Mem, o: Id, setup: Project_)
    requires o in m.engines && m.engines[o].Opening? && o in m.sections
    ensures
      var s, plan := RollOpen(d, m, o, setup), m.engines[o].plan;
      && s.writes == []
      && s.mem == At(m, o, if plan in d.plans && d.plans[plan].project == m.sections[o].project
                              && d.plans[plan].status == PlanReady
                           then Checking(plan, setup) else Returned(false))
  {}

  /** The check before a command saw what planning had seen. */
  predicate StillAsPlanned(row: PlanRow, seen: Check) {
    seen.clean && seen.head == row.observed && SameMigration(seen.setup.noAdapter, row.before, seen.migration)
  }

  /** The command runs, after this check. */
  ghost predicate CommandRan(d: Durable, s: Stretch, m: Mem, o: Id, plan: Id, seen: Check)
    requires PlanAt(d, plan)
  {
    var t, w := d.plans[plan].task, Last(d, s.writes);
    && w.commands == d.commands[plan := (if plan in d.commands then d.commands[plan] else []) + [seen]]
    && w.plans == d.plans[plan := d.plans[plan].(status := PlanRollingBack)]
    && t in w.tasks && w.tasks[t].status == ROLLING_BACK
    && s.mem == At(m, o, RollingBack(plan, seen.setup, RollActing))
  }

  /** No command runs, and the plan is left like this. */
  ghost predicate CommandRefused(d: Durable, s: Stretch, o: Id, plan: Id, status: PlanStatus) {
    var w := Last(d, s.writes);
    && w.commands == d.commands
    && plan in w.plans && w.plans[plan].status == status
    && o in s.mem.engines && s.mem.engines[o].Returned? && !s.mem.engines[o].succeeded
  }

  lemma StillAsPlannedIff(row: PlanRow, seen: Check)
    ensures StillAsPlanned(row, seen) <==> CheckPasses(row, seen)
  {
    Migration.SafeMeansSameKnownVersion(seen.setup.noAdapter, row.before, seen.migration);
    hide Migration.Assess, Migration.Known, Migration.SameVersion;
  }

  lemma NoTargetFails(d: Durable, d1: Durable, m: Mem, o: Id, plan: Id)
    requires PlanAt(d1, plan) && Accepts(d1, d1.plans[plan].task, ROLLING_BACK) && d1.commands == d.commands
    ensures var d2 := Moved(d1, d1.plans[plan].task, ROLLING_BACK);
            CommandRefused(d, Stretch([d1, d2] + RollFail(d2, plan), At(m, o, RollGivesUp(d2, plan))), o, plan,
                PlanFailed)
  {
    var d2 := Moved(d1, d1.plans[plan].task, ROLLING_BACK);
    RollFailIs(d2, plan);
    Then([], d, [d1, d2], RollFail(d2, plan));
    hide RollFail, RollGivesUp, Last;
  }

  /** The command runs exactly when the world is still as planned, the task accepts ROLLING_BACK
      and the plan has a target. If the world is not, the plan is blocked; if the task does not, the
      plan stays marked; a plan without target fails. */
  lemma RunIff(d: Durable, m: Mem, o: Id, seen: Check)
    requires o in m.engines && m.engines[o].Checking? && m.engines[o].setup == seen.setup
             && PlanAt(d, m.engines[o].plan)
    ensures
      var plan, s := m.engines[o].plan, RollRun(d, m, o, seen);
      var row := d.plans[plan];
      if !StillAsPlanned(row, seen) then CommandRefused(d, s, o, plan, PlanBlocked)
      else if d.tasks[row.task].status !in {ROLLING_BACK, TaskStatus.RUNNING, ROLLBACK_REQUIRED}
      then CommandRefused(d, s, o, plan, PlanRollingBack)
      else if row.target.None? then CommandRefused(d, s, o, plan, PlanFailed)
      else CommandRan(d, s, m, o, plan, seen)
  {
    StillAsPlannedIff(d.plans[m.engines[o].plan], seen);
    hide CheckPasses, StillAsPlanned, RollRun, CommandRefused, CommandRan;
    if !CheckPasses(d.plans[m.engines[o].plan], seen) {
      RunBlocked(d, m, o, seen);
    } else if d.tasks[d.plans[m.engines[o].plan].task].status !in {ROLLING_BACK, TaskStatus.RUNNING,
        ROLLBACK_REQUIRED} {
      RunStuck(d, m, o, seen);
    } else {
      RunGoesAhead(d, m, o, seen);
    }
  }

  lemma RunBlocked(d: Durable, m: Mem, o: Id, seen: Check)
    requires o in m.engines && m.engines[o].Checking? && m.engines[o].setup == seen.setup
             && PlanAt(d, m.engines[o].plan)
             && !CheckPasses(d.plans[m.engines[o].plan], seen)
    ensures CommandRefused(d, RollRun(d, m, o, seen), o, m.engines[o].plan, PlanBlocked)
  {
    hide CheckPasses, SetStatus;
  }

  lemma RunStuck(d: Durable, m: Mem, o: Id, seen: Check)
    requires o in m.engines && m.engines[o].Checking? && m.engines[o].setup == seen.setup
             && PlanAt(d, m.engines[o].plan)
             && CheckPasses(d.plans[m.engines[o].plan], seen)
    requires d.tasks[d.plans[m.engines[o].plan].task].status !in {ROLLING_BACK, TaskStatus.RUNNING, ROLLBACK_REQUIRED}
    ensures CommandRefused(d, RollRun(d, m, o, seen), o, m.engines[o].plan, PlanRollingBack)
  {
    var plan := m.engines[o].plan;
    var d1 := SetPlan(d, plan, PlanRollingBack);
    MoveIff(d1, d.plans[plan].task, ROLLING_BACK);
    RollingAccepts(d1, d.plans[plan].task);
    hide CheckPasses, SetStatus, Accepts;
    assert RollRun(d, m, o, seen) == Stretch([d1], At(m, o, Returned(false)));
    hide RollRun;
  }

  lemma RollingAccepts(d: Durable, t: Id)
    requires t in d.tasks
    ensures Accepts(d, t, ROLLING_BACK) <==> d.tasks[t].status in {ROLLING_BACK, TaskStatus.RUNNING, ROLLBACK_REQUIRED}
  {}

  lemma RunGoesAhead(d: Durable, m: Mem, o: Id, seen: Check)
    requires o in m.engines && m.engines[o].Checking? && m.engines[o].setup == seen.setup
             && PlanAt(d, m.engines[o].plan)
             && CheckPasses(d.plans[m.engines[o].plan], seen)
    requires d.tasks[d.plans[m.engines[o].plan].task].status in {ROLLING_BACK, TaskStatus.RUNNING, ROLLBACK_REQUIRED}
    ensures var plan, s := m.engines[o].plan, RollRun(d, m, o, seen);
            if d.plans[plan].target.None? then CommandRefused(d, s, o, plan, PlanFailed)
            else CommandRan(d, s, m, o, plan, seen)
  {
    var plan := m.engines[o].plan;
    var d1 := SetPlan(d, plan, PlanRollingBack);
    MoveIff(d1, d.plans[plan].task, ROLLING_BACK);
    RollingAccepts(d1, d.plans[plan].task);
    hide CheckPasses, SetStatus, RollFail, RollGivesUp, CommandRefused, CommandRan, Accepts;
    if d.plans[plan].target.None? {
      NoTargetFails(d, d1, m, o, plan);
    } else {
      CommandStretch(d, m, o, plan, seen);
      hide Moved, SetPlan;
    }
  }

  lemma CommandStretch(d: Durable, m: Mem, o: Id, plan: Id, seen: Check)
    requires PlanAt(d, plan)
    ensures
      var d1 := SetPlan(d, plan, PlanRollingBack);
      var d2 := Moved(d1, d.plans[plan].task, ROLLING_BACK);
      var ran := (if plan in d.commands then d.commands[plan] else []) + [seen];
      CommandRan(d, Stretch([d1, d2, d2.(commands := d.commands[plan := ran])],
          At(m, o, RollingBack(plan, seen.setup, RollActing))), m, o, plan, seen)
  {}

  /** The engine goes on to verify exactly when the command exited cleanly and HEAD is the target;
      else the rollback fails. */
  lemma ActedIff(d: Durable, m: Mem, o: Id, exitedCleanly: bool, head: Option<Commit>)
    requires RollAt(d, m, o) && m.engines[o].rollStage.RollActing?
    ensures
      var e, s := m.engines[o], RollActed(d, m, o, exitedCleanly, head);
      if exitedCleanly && head == d.plans[e.plan].target then
        s == Stretch([], At(m, o, RollingBack(e.plan, e.setup, Verifying(true, head))))
      else RolledToNothing(d, s, o, e.plan)
  {
    RollFailEnds(d, d, [], m, o, m.engines[o].plan);
    hide RolledToNothing, RollFail, RollGivesUp;
  }

  /** The rollback succeeded: its plan and its task say so. */
  ghost predicate RolledThrough(d: Durable, s: Stretch, o: Id, plan: Id, result: PlanResult)
    requires PlanAt(d, plan)
  {
    var t, w := d.plans[plan].task, Last(d, s.writes);
    && plan in w.plans && w.plans[plan] == d.plans[plan].(status := PlanSucceeded, result := Some(result))
    && t in w.tasks && w.tasks[t].status == ROLLED_BACK
    && o in s.mem.engines && s.mem.engines[o] == Returned(true, RowTarget(plan))
  }

  lemma DoneIff(d: Durable, m: Mem, o: Id, result: PlanResult)
    requires RollAt(d, m, o)
    ensures
      var plan, s := m.engines[o].plan, RollDone(d, m, o, result);
      if Accepts(d, d.plans[plan].task, ROLLED_BACK) then RolledThrough(d, s, o, plan, result)
      else RolledToNothing(d, s, o, plan)
  {
    var plan := m.engines[o].plan;
    var t := d.plans[plan].task;
    var d1 := SetPlanDone(d, plan, result);
    var d2 := SetRollback(d1, t, plan);
    MoveIff(d2, t, ROLLED_BACK);
    RollFailEnds(d, d2, [d1, d2], m, o, plan);
    hide RolledToNothing, RollFail, RollGivesUp, SetStatus, Into;
  }

  lemma InactiveFails(d: Durable, m: Mem, o: Id, active: Option<bool>)
    requires RollAt(d, m, o) && m.engines[o].rollStage.Verifying?
    requires m.engines[o].setup.service && active != Some(true)
    ensures RolledToNothing(d, RollService(d, m, o, active), o, m.engines[o].plan)
  {
    RollFailEnds(d, d, [], m, o, m.engines[o].plan);
    hide RolledToNothing, RollFail, RollGivesUp;
  }

  lemma UncheckedEnds(d: Durable, m: Mem, o: Id, active: Option<bool>)
    requires RollAt(d, m, o) && m.engines[o].rollStage.Verifying?
    requires (m.engines[o].setup.service ==> active == Some(true)) && !m.engines[o].setup.health
    ensures var e, s := m.engines[o], RollService(d, m, o, active);
            if Accepts(d, d.plans[e.plan].task, ROLLED_BACK) then
              RolledThrough(d, s, o, e.plan, PlanResult(e.rollStage.clean, e.setup, e.rollStage.head, active, None))
            else RolledToNothing(d, s, o, e.plan)
  {
    var e := m.engines[o];
    DoneIff(d, m, o, PlanResult(e.rollStage.clean, e.setup, e.rollStage.head, active, None));
    hide RolledToNothing, RolledThrough, RollDone, Accepts;
  }

  /** On to the health check. */
  ghost predicate ToHealth(d: Durable, s: Stretch, m: Mem, o: Id, plan: Id, next: RollStage)
    requires RollAt(d, m, o) && plan == m.engines[o].plan
  {
    && s.mem == At(m, o, RollingBack(plan, m.engines[o].setup, next))
    && Last(d, s.writes).plans == d.plans[plan := d.plans[plan].(status := PlanChecking)]
    && Last(d, s.writes).tasks == Moved(d, d.plans[plan].task, HEALTH_CHECKING).tasks
  }

  lemma CheckedGoesOn(d: Durable, m: Mem, o: Id, active: Option<bool>)
    requires RollAt(d, m, o) && m.engines[o].rollStage.Verifying?
    requires (m.engines[o].setup.service ==> active == Some(true)) && m.engines[o].setup.health
    ensures var e, s := m.engines[o], RollService(d, m, o, active);
            if Accepts(d, d.plans[e.plan].task, HEALTH_CHECKING) then
              ToHealth(d, s, m, o, e.plan, RollHealth(e.rollStage.clean, e.rollStage.head, active))
            else RolledToNothing(d, s, o, e.plan)
  {
    var e := m.engines[o];
    var d1 := SetPlan(d, e.plan, PlanChecking);
    MoveIff(d1, d.plans[e.plan].task, HEALTH_CHECKING);
    RollFailEnds(d, d1, [d1], m, o, e.plan);
    hide RolledToNothing, RollFail, RollGivesUp, SetStatus, Into;
  }

  /** A service that is not active fails the rollback. Without a health check it succeeds then and
      there, if the task accepts ROLLED_BACK; with one it goes on, if it accepts HEALTH_CHECKING. */
  lemma RollServiceIff(d: Durable, m: Mem, o: Id, active: Option<bool>)
    requires RollAt(d, m, o) && m.engines[o].rollStage.Verifying?
    ensures
      var e, s, t := m.engines[o], RollService(d, m, o, active), d.plans[m.engines[o].plan].task;
      if e.setup.service && active != Some(true) then RolledToNothing(d, s, o, e.plan)
      else if !e.setup.health && Accepts(d, t, ROLLED_BACK) then
        RolledThrough(d, s, o, e.plan, PlanResult(e.rollStage.clean, e.setup, e.rollStage.head, active, None))
      else if e.setup.health && Accepts(d, t, HEALTH_CHECKING) then
        ToHealth(d, s, m, o, e.plan, RollHealth(e.rollStage.clean, e.rollStage.head, active))
      else RolledToNothing(d, s, o, e.plan)
  {
    hide RolledToNothing, RolledThrough, RollService, Accepts, ToHealth;
    if m.engines[o].setup.service && active != Some(true) {
      InactiveFails(d, m, o, active);
    } else if !m.engines[o].setup.health {
      UncheckedEnds(d, m, o, active);
    } else {
      CheckedGoesOn(d, m, o, active);
    }
  }

  /** With the health read the rollback succeeds exactly when it is good where it is required and
      the task accepts ROLLED_BACK; else it fails. */
  lemma RollFinishIff(d: Durable, m: Mem, o: Id, health: Health)
    requires RollAt(d, m, o) && m.engines[o].rollStage.RollHealth?
    ensures
      var e, s := m.engines[o], RollFinish(d, m, o, health);
      if (e.setup.healthRequired ==> health == Healthy) && Accepts(d, d.plans[e.plan].task, ROLLED_BACK) then
        RolledThrough(d, s, o, e.plan,
          PlanResult(e.rollStage.clean, e.setup, e.rollStage.head, e.rollStage.service, Some(health)))
      else RolledToNothing(d, s, o, e.plan)
  {
    var e := m.engines[o];
    RollFailEnds(d, d, [], m, o, e.plan);
    DoneIff(d, m, o, PlanResult(e.rollStage.clean, e.setup, e.rollStage.head, e.rollStage.service, Some(health)));
    hide RolledToNothing, RolledThrough, RollFail, RollGivesUp, RollDone, Into;
  }

  // ---------------------------------------------------------------- a rollback from its command to its end

  /** Between two stretches others may do what they like, but not to this plan or the status of its
      task; the operation resumes where it stood. */
  ghost predicate RollResumes(d: Durable, s: Stretch, d': Durable, m': Mem, o: Id, plan: Id) {
    var w := Last(d, s.writes);
    && PlanAt(w, plan) && PlanAt(d', plan) && d'.plans[plan] == w.plans[plan]
    && d'.tasks[d'.plans[plan].task].status == w.tasks[w.plans[plan].task].status
    && o in s.mem.engines && o in m'.engines && m'.engines[o] == s.mem.engines[o]
  }

  ghost predicate GoesOn(s: Stretch, o: Id) { o in s.mem.engines && s.mem.engines[o].RollingBack? }

  /** The stretch after the service state was read, of an operation that stands there. */
  ghost function Served(d: Durable, m: Mem, o: Id, active: Option<bool>): Stretch {
    if RollAt(d, m, o) && m.engines[o].rollStage.Verifying? then RollService(d, m, o, active) else Quiet(m)
  }

  /** The stretch after the health was read, of an operation that stands there. */
  ghost function Examined(d: Durable, m: Mem, o: Id, health: Health): Stretch {
    if RollAt(d, m, o) && m.engines[o].rollStage.RollHealth? then RollFinish(d, m, o, health) else Quiet(m)
  }

  ghost predicate PlanEnds(w: Durable, plan: Id, t: Id, good: bool) {
    && plan in w.plans && t in w.tasks
    && w.plans[plan].status == (if good then PlanSucceeded else PlanFailed)
    && w.tasks[t].status == (if good then ROLLED_BACK else WAITING_FOR_USER)
  }

  lemma ThroughEnds(d: Durable, s: Stretch, o: Id, plan: Id, result: PlanResult)
    requires PlanAt(d, plan) && RolledThrough(d, s, o, plan, result)
    ensures PlanEnds(Last(d, s.writes), plan, d.plans[plan].task, true) && !GoesOn(s, o)
  {}

  lemma NothingEnds(d: Durable, s: Stretch, o: Id, plan: Id)
    requires PlanAt(d, plan) && RolledToNothing(d, s, o, plan)
    requires d.tasks[d.plans[plan].task].status in {ROLLING_BACK, HEALTH_CHECKING}
    ensures PlanEnds(Last(d, s.writes), plan, d.plans[plan].task, false) && !GoesOn(s, o)
  {}

  /** The task stands where a rollback may end. */
  lemma UnderwayAccepts(d: Durable, t: Id)
    requires t in d.tasks && d.tasks[t].status in {ROLLING_BACK, HEALTH_CHECKING}
    ensures Accepts(d, t, ROLLED_BACK) && Accepts(d, t, HEALTH_CHECKING)
  {}

  lemma ExaminedEnds(d: Durable, m: Mem, o: Id, health: Health)
    requires RollAt(d, m, o) && m.engines[o].rollStage.RollHealth?
    requires d.tasks[d.plans[m.engines[o].plan].task].status == HEALTH_CHECKING
    ensures var e := m.engines[o];
            PlanEnds(Last(d, Examined(d, m, o, health).writes), e.plan, d.plans[e.plan].task,
              e.setup.healthRequired ==> health == Healthy)
  {
    var e := m.engines[o];
    UnderwayAccepts(d, d.plans[e.plan].task);
    RollFinishIff(d, m, o, health);
    hide RollFinish, RolledThrough, RolledToNothing, PlanEnds, Accepts;
    if e.setup.healthRequired ==> health == Healthy {
      ThroughEnds(d, RollFinish(d, m, o, health), o, e.plan,
          PlanResult(e.rollStage.clean, e.setup, e.rollStage.head, e.rollStage.service, Some(health)));
    } else {
      NothingEnds(d, RollFinish(d, m, o, health), o, e.plan);
    }
  }

  lemma ActedEnds(d: Durable, m: Mem, o: Id, exitedCleanly: bool, head: Option<Commit>)
    requires RollAt(d, m, o) && m.engines[o].rollStage.RollActing?
    requires d.tasks[d.plans[m.engines[o].plan].task].status == ROLLING_BACK
    ensures
      var e, s := m.engines[o], RollActed(d, m, o, exitedCleanly, head);
      var w := Last(d, s.writes);
      if exitedCleanly && head == d.plans[e.plan].target then
        GoesOn(s, o) && w == d && s.mem.engines[o] == RollingBack(e.plan, e.setup, Verifying(true, head))
      else !GoesOn(s, o) && PlanEnds(w, e.plan, d.plans[e.plan].task, false)
  {
    var e, s := m.engines[o], RollActed(d, m, o, exitedCleanly, head);
    ActedIff(d, m, o, exitedCleanly, head);
    hide RollActed, RolledToNothing, PlanEnds;
    if !(exitedCleanly && head == d.plans[e.plan].target) { NothingEnds(d, s, o, e.plan); }
  }

  lemma ServedEnds(d: Durable, m: Mem, o: Id, active: Option<bool>)
    requires RollAt(d, m, o) && m.engines[o].rollStage.Verifying?
    requires d.tasks[d.plans[m.engines[o].plan].task].status == ROLLING_BACK
    ensures
      var e, s := m.engines[o], Served(d, m, o, active);
      var w, t, runs := Last(d, s.writes), d.plans[e.plan].task, e.setup.service ==> active == Some(true);
      if runs && e.setup.health then
        && GoesOn(s, o) && PlanAt(w, e.plan) && w.plans[e.plan].task == t && w.tasks[t].status == HEALTH_CHECKING
        && s.mem.engines[o] == RollingBack(e.plan, e.setup, RollHealth(e.rollStage.clean, e.rollStage.head, active))
      else !GoesOn(s, o) && PlanEnds(w, e.plan, t, runs)
  {
    var e, s := m.engines[o], RollService(d, m, o, active);
    UnderwayAccepts(d, d.plans[e.plan].task);
    RollServiceIff(d, m, o, active);
    hide RollService, RolledThrough, RolledToNothing, PlanEnds, Accepts, ToHealth, GoesOn, Last;
    if e.setup.service && active != Some(true) {
      NothingEnds(d, s, o, e.plan);
    } else if !e.setup.health {
      ThroughEnds(d, s, o, e.plan, PlanResult(e.rollStage.clean, e.setup, e.rollStage.head, active, None));
    } else {
      HealthAwaits(d, s, m, o, e.plan, RollHealth(e.rollStage.clean, e.rollStage.head, active));
    }
  }

  lemma HealthAwaits(d: Durable, s: Stretch, m: Mem, o: Id, plan: Id, next: RollStage)
    requires RollAt(d, m, o) && plan == m.engines[o].plan && ToHealth(d, s, m, o, plan, next)
    ensures var w, t := Last(d, s.writes), d.plans[plan].task;
            && GoesOn(s, o) && PlanAt(w, plan) && w.plans[plan].task == t && w.tasks[t].status == HEALTH_CHECKING
            && s.mem.engines[o] == RollingBack(plan, m.engines[o].setup, next)
  {}

  /** A rollback whose command runs, and whose plan and task others leave alone, ends SUCCEEDED with
      the task ROLLED_BACK exactly when the command exited cleanly, HEAD is the target, the service is
      active where there is one and the health good where it is checked and required. If any of
      these is missing it ends FAILED, and the task waits for the user. */
  lemma RollbackEndsIff(d0: Durable, m0: Mem, o: Id, exitedCleanly: bool, head: Option<Commit>, d1: Durable, m1: Mem,
          active: Option<bool>, d2: Durable, m2: Mem, health: Health)
    requires RollAt(d0, m0, o) && m0.engines[o].rollStage.RollActing?
    requires d0.tasks[d0.plans[m0.engines[o].plan].task].status == ROLLING_BACK
    requires GoesOn(RollActed(d0, m0, o, exitedCleanly, head), o) ==>
               RollResumes(d0, RollActed(d0, m0, o, exitedCleanly, head), d1, m1, o, m0.engines[o].plan)
    requires GoesOn(Served(d1, m1, o, active), o) ==>
               RollResumes(d1, Served(d1, m1, o, active), d2, m2, o, m0.engines[o].plan)
    ensures
      var e, s0, s1 := m0.engines[o], RollActed(d0, m0, o, exitedCleanly, head), Served(d1, m1, o, active);
      var w := if !GoesOn(s0, o) then Last(d0, s0.writes)
        else if !GoesOn(s1, o) then Last(d1, s1.writes)
        else Last(d2, Examined(d2, m2, o, health).writes);
      PlanEnds(w, e.plan, d0.plans[e.plan].task,
        && exitedCleanly && head == d0.plans[e.plan].target
        && (e.setup.service ==> active == Some(true))
        && (e.setup.health && e.setup.healthRequired ==> health == Healthy))
  {
    var e := m0.engines[o];
    ActedEnds(d0, m0, o, exitedCleanly, head);
    hide RollActed, Served, Examined, PlanEnds, GoesOn, Last;
    if exitedCleanly && head == d0.plans[e.plan].target {
      ServedEnds(d1, m1, o, active);
      if (e.setup.service ==> active == Some(true)) && e.setup.health { ExaminedEnds(d2, m2, o, health); }
    }
  }

  // ---------------------------------------------------------------- recovery

  /** An assessment begins, numbered after the task's runs, exactly when the task of the project is
      there and not over, an attempt is left and the task accepts RECOVERING. */
  lemma AssessOpenIff(d: Durable, maxAttempts: nat, task: Id, p: Project)
    ensures
      var answer := AssessOpen(d, maxAttempts, task, p);
      var runs := |set r | r in d.runs && r.task == task|;
      if task in d.tasks && d.tasks[task].project == p && runs < maxAttempts
         && d.tasks[task].status in {RECOVERING, PENDING, TaskStatus.RUNNING, PAUSED, FAILED, WAITING_FOR_USER,
                                     RECOVERY_REQUIRED}
      then answer == Admitted(Moved(d, task, RECOVERING), runs + 1)
      else answer.Declined?
  {
    assert CountRuns(d.runs, task) == |set r | r in d.runs && r.task == task|;
    MoveIff(d, task, RECOVERING);
    hide SetStatus, CountRuns;
  }

  /** Past the limit the task is sent to a rollback if it names a deployment, else to the user. */
  lemma LimitIff(d: Durable, maxAttempts: nat, task: Id, p: Project)
    requires task in d.tasks && |set r | r in d.runs && r.task == task| >= maxAttempts
    ensures
      var to := if d.tasks[task].deployment.Some? then ROLLBACK_REQUIRED else WAITING_FOR_USER;
      AssessOpen(d, maxAttempts, task, p) ==
        Declined(if d.tasks[task].project == p && d.tasks[task].status !in {COMPLETED, ROLLED_BACK, CANCELLED}
                    && Accepts(d, task, to) then [Moved(d, task, to)] else [])
  {
    assert CountRuns(d.runs, task) == |set r | r in d.runs && r.task == task|;
    MoveIff(d, task, if d.tasks[task].deployment.Some? then ROLLBACK_REQUIRED else WAITING_FOR_USER);
    hide SetStatus, CountRuns, Into;
  }

  /** The status that goes with a decision. */
  function Asks(decision: Decision): TaskStatus {
    match decision
    case RollbackRequired => ROLLBACK_REQUIRED
    case WaitingForUser => WAITING_FOR_USER
    case ResumeRecommended => RECOVERY_REQUIRED
  }

  /** An assessment whose number is taken writes nothing. Otherwise its run records whether evidence
      was collected and what was decided, and the task stands accordingly if it accepts that; with a
      `decide` that threw the task stays as it is. It succeeds exactly when it came to a decision
      and the task accepts the status that goes with it. */
  lemma AssessCloseIff(d: Durable, now: Time, task: Id, attempt: nat, verdict: Verdict)
    ensures
      var closed, r := AssessClose(d, now, task, attempt, verdict), RunId(task, attempt);
      var w := Last(d, closed.writes);
      var to := if verdict.Decided? then Asks(verdict.decision) else WAITING_FOR_USER;
      if r in d.runs then closed == Closed([], false)
      else
        && w.runs == d.runs[r :=
             match verdict
             case NotCollected => RunRow(None, Some(now))
             case Undecided => RunRow(None, None)
             case Decided(decision) => RunRow(Some(decision), Some(now))]
        && w.tasks == (if !verdict.Undecided? && Accepts(d, task, to) then Moved(d, task, to).tasks else d.tasks)
        && (closed.succeeded <==> verdict.Decided? && Accepts(d, task, to))
        && closed.target == (if !verdict.Undecided? && Accepts(d, task, to) then RunTarget(r) else NoTarget)
  {
    var r := RunId(task, attempt);
    var d1 := PutRun(d, r, RunRow(None, Some(now)));
    MoveIff(d1, task, WAITING_FOR_USER);
    if verdict.Decided? {
      var d2 := PutRun(PutRun(d, r, RunRow(None, None)), r, RunRow(Some(verdict.decision), Some(now)));
      MoveIff(d2, task, StatusAfter(verdict.decision));
      assert StatusAfter(verdict.decision) == Asks(verdict.decision);
      assert d2.runs == d.runs[r := RunRow(Some(verdict.decision), Some(now))];
    }
    hide SetStatus, Into, StatusAfter, Asks;
  }
}
