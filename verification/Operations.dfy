/** `PersistentOperationManager`: each method is the stretch the model gives it. */
module Operations {
  import opened Prelude
  import opened KeyTable
  import opened Store
  import opened Runtime
  import opened Database
  import opened Stores
  import Engines

  /** An entry of `active`: the lease the execution keeps and the callback it awaits. */
  datatype Execution = Execution(section: Section, run: Engine)

  ghost predicate Executing(m: Mem, active: map<Id, Execution>) {
    && (forall o :: o in active <==> o in m.sections && m.sections[o].stage.Operation?)
    && (forall o | o in active :: active[o].section == m.sections[o] && o in m.engines && active[o].run == m.engines[o])
  }

  lemma ExecutingOneMore(m: Mem, active: map<Id, Execution>, o: Id, s: Section, run: Engine)
    requires Executing(m, active) && s.stage.Operation?
    ensures Executing(m.(sections := m.sections[o := s], engines := m.engines[o := run]),
              active[o := Execution(s, run)])
  {}

  lemma ExecutingOneLess(m: Mem, active: map<Id, Execution>, o: Id)
    requires Executing(m, active)
    ensures Executing(m.(sections := m.sections - {o}, engines := m.engines - {o}), active - {o})
  {}

  /** The key is completed with the id of a row that exists: what any later call with it is told. */
  predicate Answers(d: Durable, k: KeyId, o: Id) {
    k in d.keys && d.keys[k].status.Completed? && d.keys[k].result == OpRef(o) && o in d.ops
  }

  class PersistentOperationManager {
    const db: StateDb
    const idempotency: IdempotencyStore
    const leases: OperationLeaseStore
    const instanceId: nat
    const leaseTtlMs: int
    var active: map<Id, Execution>
    var shuttingDown: bool

    ghost predicate Wired() { idempotency.db == db && leases.db == db }

    /** The manager's fields are the operations of the process memory `m`. */
    ghost predicate Shows(m: Mem)
      reads this
    {
      && m.instance == instanceId
      && m.stopping.Some? == shuttingDown
      && Executing(m, active)
    }

    constructor (db: StateDb, idempotency: IdempotencyStore, leases: OperationLeaseStore, instanceId: nat,
            leaseTtlMs: int)
      requires idempotency.db == db && leases.db == db
      requires 5_000 <= leaseTtlMs <= 86_400_000
      ensures Wired() && Shows(Boot(instanceId))
      ensures this.db == db && this.leaseTtlMs == leaseTtlMs
    {
      this.db, this.idempotency, this.leases := db, idempotency, leases;
      this.instanceId, this.leaseTtlMs := instanceId, leaseTtlMs;
      active, shuttingDown := map[], false;
    }

    /** `id` is the random operation id, `engine` the callback. */
    method Start(ghost c: Config, ghost m: Mem, now: Time, id: Id, kind: OpKind, p: Project, task: Id, key: string,
            engine: Engine)
      returns (reply: Reply)
      requires Wired() && Shows(m) && leaseTtlMs == c.opTtl && id !in m.sections
      modifies this, db
      ensures db.Wrote(StartOp(c, old(db.Contents()), m, now, id, kind, p, task, key, engine).writes)
      ensures Shows(StartOp(c, old(db.Contents()), m, now, id, kind, p, task, key, engine).mem)
      ensures reply == StartReply(c, old(db.Contents()), m, now, id, kind, p, task, key, engine)
      ensures reply.Returns? ==> Answers(db.Contents(), KeyId(OpScope(kind, p), key), reply.id)
    {
      if shuttingDown { return Throws; }
      var k, fp := KeyId(OpScope(kind, p), key), OpPrint(kind, p, task);
      var replay := idempotency.RequireReplayable(k, fp);
      if replay.Refused? { return Throws; }
      if replay.Replayed? {
        return if replay.result.OpRef? && replay.result.op in db.ops then Returns(replay.result.op) else Throws;
      }
      OnlyOperations(c, db.Contents(), m, now, id, kind, p, task, key, engine);
      hide StartOp;
      reply := StartAbsent(c, m, now, id, kind, p, task, key, engine);
    }

    /** `start` once it has seen that its key is free. */
    method StartAbsent(ghost c: Config, ghost m: Mem, now: Time, id: Id, kind: OpKind, p: Project, task: Id,
            key: string, engine: Engine)
      returns (reply: Reply)
      requires Wired() && Shows(m) && leaseTtlMs == c.opTtl && id !in m.sections && !shuttingDown
      requires KeyTable.RequireReplayable(db.keys, KeyId(OpScope(kind, p), key), OpPrint(kind, p, task)).Absent?
      modifies this, db
      ensures db.Wrote(StartOp(c, old(db.Contents()), m, now, id, kind, p, task, key, engine).writes)
      ensures Shows(StartOp(c, old(db.Contents()), m, now, id, kind, p, task, key, engine).mem)
      ensures reply == if id in active then Returns(id) else Throws
      ensures reply.Returns? ==> Answers(db.Contents(), KeyId(OpScope(kind, p), key), reply.id)
    {
      ghost var d := db.Contents();
      var k, row := KeyId(OpScope(kind, p), key), OpRow(task, p, kind, OpRunning, false);
      StartSplits(c, d, m, now, id, kind, p, task, key, engine);
      hide StartOp, Tried;
      var _, _ := idempotency.Begin(k, OpPrint(kind, p, task), now);
      ghost var d1 := db.Contents();
      hide BeginKey, KeyTable.RequireReplayable;
      var started := TryStart(now, id, k, "persistent-" + KindText(kind), row, engine);
      Then(old(db.journal), d, [d1],
          Tried(d1, now, id, k, "persistent-" + KindText(kind), row, instanceId, leaseTtlMs).writes);
      ExecutingOneMore(m, old(active), id, Section(p, SectionOwner(instanceId, id), leaseTtlMs, now, Operation),
          engine);
      hide Executing;
      return if started then Returns(id) else Throws;
    }

    /** The `try` and `catch` of `start`. */
    method TryStart(now: Time, id: Id, k: KeyId, operation: string, row: OpRow, engine: Engine) returns (started: bool)
      requires Wired() && k in db.keys && db.keys[k].status.InProgress? && !k.scope.LeaseScope?
      modifies this, db
      ensures started <==> Tried(old(db.Contents()), now, id, k, operation, row, instanceId, leaseTtlMs).started
      ensures db.Wrote(Tried(old(db.Contents()), now, id, k, operation, row, instanceId, leaseTtlMs).writes)
      ensures started ==> Answers(db.Contents(), k, id)
      ensures shuttingDown == old(shuttingDown)
      ensures active == if started then
                old(active)[id := Execution(Section(row.project, SectionOwner(instanceId, id), leaseTtlMs, now,
                    Operation), engine)] else old(active)
    {
      var owner := SectionOwner(instanceId, id);
      var leaseHeld := leases.Acquire(row.project, operation, owner, leaseTtlMs, now);
      if leaseHeld && row.task in db.tasks && row.project in db.projects {
        Record(now, id, k, row);
        active := active[id := Execution(Section(row.project, owner, leaseTtlMs, now, Operation), engine)];
        return true;
      }
      Abandon(now, k, row.project, owner, leaseHeld);
      return false;
    }

    method Record(now: Time, id: Id, k: KeyId, row: OpRow)
      requires Wired() && k in db.keys && db.keys[k].status.InProgress? && row.task in db.tasks
      modifies db
      ensures db.Wrote(OpRowWrites(old(db.Contents()), k, id, row, now))
      ensures Answers(db.Contents(), k, id)
    {
      var _ := db.InsertOp(id, row);
      var _ := idempotency.Complete(k, OpRef(id), now);
      db.EffectBegins(k);
    }

    method Abandon(now: Time, k: KeyId, p: Project, owner: Owner, leaseHeld: bool)
      requires Wired() && k in db.keys && db.keys[k].status.InProgress? && !k.scope.LeaseScope?
      modifies db
      ensures db.Wrote(Abandoned(old(db.Contents()), now, k, p, owner, leaseHeld))
    {
      if leaseHeld {
        var _ := leases.Release(p, owner);
      }
      idempotency.FailIfInProgress(k, Value(if leaseHeld then "row" else "lease"), now);
    }

    /** The continuation of `await run()`: the UPDATE that no status guards, then the `finally`. */
    method Settle(ghost m: Mem, o: Id)
      requires Wired() && Shows(m) && o in active && active[o].run.Returned? && o in db.ops
      modifies this, db
      ensures db.Wrote(FinishOp(old(db.Contents()), m, o).writes) && Shows(FinishOp(old(db.Contents()), m, o).mem)
      ensures o !in active
    {
      ExecutingOneLess(m, active, o);
      var execution := active[o];
      if execution.run.succeeded {
        db.UpdateOp(o, db.ops[o].(status := OpSucceeded, target := execution.run.target));
      } else {
        db.UpdateOp(o, db.ops[o].(status := OpFailed, target := execution.run.target));
      }
      var _ := leases.Release(execution.section.project, execution.section.owner);
      active := active - {o};
    }

    /** The callback of `o` goes on and suspends at `next`. */
    method Advance(ghost m: Mem, o: Id, next: Engine)
      requires Shows(m) && o in active
      modifies this
      ensures Shows(Engines.At(m, o, next))
    {
      ExecutingOneMore(m, active, o, active[o].section, next);
      assert m.sections[o := active[o].section] == m.sections;
      active := active[o := active[o].(run := next)];
    }

    /** One tick of the renewal timer; its exceptions are swallowed. */
    method Tick(ghost c: Config, ghost m: Mem, now: Time, o: Id)
      requires Wired() && Shows(m) && leaseTtlMs == c.opTtl && o in active
      modifies this, db
      ensures db.Wrote(RenewTick(c, old(db.Contents()), m, now, o).writes)
      ensures Shows(RenewTick(c, old(db.Contents()), m, now, o).mem)
    {
      var execution := active[o];
      var s := execution.section.(since := now, ttl := leaseTtlMs);
      ExecutingOneMore(m, active, o, s, execution.run);
      assert m.engines[o := execution.run] == m.engines;
      var renewed := leases.Renew(s.project, s.owner, leaseTtlMs, now);
      if renewed {
        active := active[o := execution.(section := s)];
      }
    }

    method RequestCancellation(ghost m: Mem, o: Id) returns (reply: Reply)
      requires Shows(m)
      modifies db
      ensures db.Wrote(Runtime.RequestCancellation(old(db.Contents()), m, o).writes)
      ensures reply == if o in old(db.ops) then Returns(o) else Throws
    {
      if o !in db.ops { return Throws; }
      if db.ops[o].status.OpRunning? && !db.ops[o].cancelRequested {
        db.UpdateOp(o, db.ops[o].(cancelRequested := true));
      }
      return Returns(o);
    }

    method HasBlockingTaskOperation(t: Id) returns (blocking: bool)
      ensures !blocking <==> forall o | o in db.ops && db.ops[o].task == t ::
                db.ops[o].status.OpSucceeded? || db.ops[o].status.OpFailed?
    {
      blocking := BlockingOp(db.ops, t);
    }

    method ReconcileAfterRestart() returns (changes: nat)
      modifies db
      ensures db.Wrote([Agent.AfterPart(old(db.Contents()), Agent.BootOps)])
      ensures changes == |set o | o in old(db.ops) && old(db.ops)[o].status.OpRunning?|
    {
      changes := |set o | o in db.ops && db.ops[o].status.OpRunning?|;
      db.ReplaceOps(map o | o in db.ops :: if db.ops[o].status.OpRunning? then db.ops[o].(status := OpUnknown)
          else db.ops[o]);
    }

    /** `shutdown` up to its await: it resolves when all of `awaited` have left `active`. */
    method Shutdown(ghost m: Mem) returns (awaited: set<Id>)
      requires Shows(m)
      modifies this
      ensures Shows(Runtime.Shutdown(m).mem) && Runtime.Shutdown(m).mem.stopping == Some(awaited)
    {
      shuttingDown := true;
      awaited := active.Keys;
      assert awaited == ActiveOps(m);
    }
  }

  function Abandoned(d: Durable, now: Time, k: KeyId, p: Project, owner: Owner, leaseHeld: bool): seq<Durable> {
    if !leaseHeld then [FinishKey(d, k, Failed, Value("lease"), now)]
    else
      var d1 := ReleaseLease(d, p, owner);
      [d1, FinishKey(d1, k, Failed, Value("row"), now)]
  }

  datatype Attempt = Attempt(writes: seq<Durable>, started: bool)

  /** What the statements after `begin` leave behind. */
  function Tried(d: Durable, now: Time, id: Id, k: KeyId, operation: string, row: OpRow, instance: nat,
          ttl: int): Attempt
  {
    var owner := SectionOwner(instance, id);
    var leased := TakeLease(d, row.project, operation, owner, ttl, now);
    if leased.None? then Attempt(Abandoned(d, now, k, row.project, owner, false), false)
    else if !Referenced(d, row.project, row.task) then
      Attempt([leased.value] + Abandoned(leased.value, now, k, row.project, owner, true), false)
    else Attempt([leased.value] + OpRowWrites(leased.value, k, id, row, now), true)
  }

  lemma OnlyOperations(c: Config, d: Durable, m: Mem, now: Time, id: Id, kind: OpKind, p: Project, task: Id,
          key: string, engine: Engine)
    requires id !in m.sections
    ensures var sections := StartOp(c, d, m, now, id, kind, p, task, key, engine).mem.sections;
            id in sections ==> sections[id].stage.Operation?
  {
    hide TakeLease, BeginKey, RequireReplayable;
  }

  lemma StartSplits(c: Config, d: Durable, m: Mem, now: Time, id: Id, kind: OpKind, p: Project, task: Id, key: string,
          engine: Engine)
    requires m.stopping.None? && RequireReplayable(d.keys, KeyId(OpScope(kind, p), key), OpPrint(kind, p, task)).Absent?
    ensures
      var k := KeyId(OpScope(kind, p), key);
      var d1 := BeginKey(d, k, OpPrint(kind, p, task), now);
      var tried := Tried(d1, now, id, k, "persistent-" + KindText(kind), OpRow(task, p, kind, OpRunning, false),
          m.instance, c.opTtl);
      var s := StartOp(c, d, m, now, id, kind, p, task, key, engine);
      s.writes == [d1] + tried.writes &&
      s.mem == if tried.started then
          m.(sections := m.sections[id := Section(p, SectionOwner(m.instance, id), c.opTtl, now, Operation)],
              engines := m.engines[id := engine]) else m
  {}
}
