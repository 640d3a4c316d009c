/** What a repeated call is told: over every run in which its key is not dropped, what it was told
    the first time. */
module Replays {
  import opened Prelude
  import opened KeyTable
  import opened Store
  import opened Runtime
  import opened Agent
  import opened KeyInvariant
  import opened Safety
  import opened LeaseInvariant
  import opened EngineInvariant
  import opened UnknownInvariant
  import opened RunsInvariant
  import opened Guarantees
  import opened Conditions

  /** The key is settled by a call of this fingerprint, with this answer. */
  predicate SettledAs(t: Table, k: KeyId, fp: Fingerprint, status: KeyStatus, result: Payload) {
    k in t && t[k].fingerprint == fp && t[k].status == status && t[k].result == result
  }

  /** The event s -> After(c, s, e) settles the key; the run es follows it and does not drop it. */
  ghost predicate Follows(c: Config, s: State, e: Event, es: seq<Event>, k: KeyId) {
    Fires(c, s, e) && Runs(c, After(c, s, e), es) && Drops(c, After(c, s, e), es, k) == 0
  }

  /** The state after the event and the run. */
  ghost function Later(c: Config, s: State, e: Event, es: seq<Event>): State
    requires Fires(c, s, e) && Runs(c, After(c, s, e), es)
  {
    Reached(c, After(c, s, e), es)
  }

  lemma LaterInv(c: Config, s: State, e: Event, es: seq<Event>)
    requires ValidConfig(c) && Inv(c, s) && Fires(c, s, e) && Runs(c, After(c, s, e), es)
    ensures Inv(c, After(c, s, e)) && Inv(c, Later(c, s, e, es))
  {
    hide Inv, Fires, After, Runs, Reached;
    EventKeepsInv(c, s, e);
    RunKeepsInv(c, After(c, s, e), es);
  }

  lemma SettledLasts(c: Config, s: State, e: Event, es: seq<Event>, k: KeyId, fp: Fingerprint, status: KeyStatus,
          result: Payload)
    requires ValidConfig(c) && Inv(c, s) && Follows(c, s, e, es, k) && !k.scope.LeaseScope? && !status.InProgress?
    requires SettledAs(After(c, s, e).d.keys, k, fp, status, result)
    ensures Inv(c, Later(c, s, e, es)) && SettledAs(Later(c, s, e, es).d.keys, k, fp, status, result)
  {
    LaterInv(c, s, e, es);
    hide Inv, Fires, After, Runs, Reached;
    AnswersAreStable(c, After(c, s, e), es, k);
  }

  // ---------------------------------------------------------------- operations

  lemma AfterAct(c: Config, s: State, l: Label)
    requires s.mode.Up? && Enabled(s.d, s.mode.mem, l)
    ensures var r := Perform(c, s.d, s.mode.mem, s.now, l);
            Fires(c, s, Act(l)) && After(c, s, Act(l)) == s.(d := Last(s.d, r.writes), mode := Up(r.mem))
  {
    hide Perform, Enabled;
  }

  /** `start` answered: its key says so. */
  lemma AnswerIsOnRecord(c: Config, d: Durable, m: Mem, now: Time, id: Id, kind: OpKind, p: Project, task: Id,
          key: string, engine: Engine, x: Id)
    requires id !in m.sections && StartReply(c, d, m, now, id, kind, p, task, key, engine) == Returns(x)
    ensures SettledAs(Last(d, StartOp(c, d, m, now, id, kind, p, task, key, engine).writes).keys,
              KeyId(OpScope(kind, p), key), OpPrint(kind, p, task), Completed, OpRef(x))
  {
    StartReplyIff(c, d, m, now, id, kind, p, task, key, engine, x);
    StartIff(c, d, m, now, id, kind, p, task, key, engine);
    hide StartReply, StartOp, Leasable;
  }

  lemma SettledRowExists(c: Config, s: State, k: KeyId, fp: Fingerprint, result: Payload)
    requires Inv(c, s) && SettledAs(s.d.keys, k, fp, Completed, result)
    ensures k.scope.OpScope? ==> result.OpRef? && result.op in s.d.ops
    ensures k.scope.JobScope? ==> result.JobRef? && result.job in s.d.jobs
  {
    InvParts(c, s);
    hide Inv;
    assert Answers(k, s.d.keys[k].result, s.d.outcomes, s.d.ops, s.d.jobs);
  }

  /** Once `start` has answered x, whether it began x or found it recorded, then as long as the key is
      not dropped the same call answers x again, in every later state in which the agent is up and
      not stopping, and writes nothing; and a call with the key for another task is refused. */
  lemma RepeatedStart(c: Config, s: State, id: Id, kind: OpKind, p: Project, task: Id, key: string, plan: Id, x: Id,
          es: seq<Event>, id': Id, engine': Engine, task': Id)
    requires ValidConfig(c) && Reachable(c, s) && s.mode.Up?
    requires OpEnabled(s.d, s.mode.mem, StartOperation(id, kind, p, task, key, plan))
    requires StartReply(c, s.d, s.mode.mem, s.now, id, kind, p, task, key, EngineFor(kind, task, plan)) == Returns(x)
    requires Follows(c, s, Act(OnOp(StartOperation(id, kind, p, task, key, plan))), es, KeyId(OpScope(kind, p), key))
    ensures
      var s' := Later(c, s, Act(OnOp(StartOperation(id, kind, p, task, key, plan))), es);
      s'.mode.Up? && s'.mode.mem.stopping.None? && id' !in s'.mode.mem.sections ==>
        && x in s'.d.ops
        && StartReply(c, s'.d, s'.mode.mem, s'.now, id', kind, p, task, key, engine') == Returns(x)
        && StartOp(c, s'.d, s'.mode.mem, s'.now, id', kind, p, task, key, engine') == Stretch([], s'.mode.mem)
        && (task' != task ==>
             StartReply(c, s'.d, s'.mode.mem, s'.now, id', kind, p, task', key, engine').Throws?)
  {
    var l := StartOperation(id, kind, p, task, key, plan);
    var k, fp := KeyId(OpScope(kind, p), key), OpPrint(kind, p, task);
    ReachableInv(c, s);
    assert id !in s.mode.mem.sections;
    AnswerIsOnRecord(c, s.d, s.mode.mem, s.now, id, kind, p, task, key, EngineFor(kind, task, plan), x);
    AfterAct(c, s, OnOp(l));
    hide Inv, Reachable, Fires, After, Runs, Reached, StartReply, StartOp, OpEnabled;
    SettledLasts(c, s, Act(OnOp(l)), es, k, fp, Completed, OpRef(x));
    var s' := Later(c, s, Act(OnOp(l)), es);
    hide Later, Drops;
    if s'.mode.Up? && s'.mode.mem.stopping.None? && id' !in s'.mode.mem.sections {
      SettledRowExists(c, s', k, fp, OpRef(x));
      StartReplyIff(c, s'.d, s'.mode.mem, s'.now, id', kind, p, task, key, engine', x);
      StartIff(c, s'.d, s'.mode.mem, s'.now, id', kind, p, task, key, engine');
      if task' != task { OtherTaskRefused(c, s'.d, s'.mode.mem, s'.now, id', kind, p, task, task', key, engine'); }
    }
  }

  lemma OtherTaskRefused(c: Config, d: Durable, m: Mem, now: Time, id: Id, kind: OpKind, p: Project, task: Id,
          task': Id,
          key: string, engine: Engine)
    requires id !in m.sections && task' != task && KeyId(OpScope(kind, p), key) in d.keys
             && d.keys[KeyId(OpScope(kind, p), key)].fingerprint == OpPrint(kind, p, task)
    ensures StartReply(c, d, m, now, id, kind, p, task', key, engine).Throws?
  {
    var reply := StartReply(c, d, m, now, id, kind, p, task', key, engine);
    if reply.Returns? { StartReplyIff(c, d, m, now, id, kind, p, task', key, engine, reply.id); }
  }

  // ---------------------------------------------------------------- jobs

  lemma PendingKeyIs(c: Config, s: State, a: Id)
    requires ValidConfig(c) && Inv(c, s) && s.mode.Up? && a in s.mode.mem.sections
    requires PendingKey(s.mode.mem.sections[a]).Some?
    ensures Pending(s.d, PendingKey(s.mode.mem.sections[a]).value)
    ensures s.mode.mem.sections[a].stage.JobOpening? ==> PendingKey(s.mode.mem.sections[a]).value.scope.JobScope?
    ensures s.mode.mem.sections[a].stage.Guarding? ==> GuardScope(PendingKey(s.mode.mem.sections[a]).value.scope)
  {
    InvParts(c, s);
    AliveParts(c, s.d, s.mode.mem, s.now);
    assert KeysInv(s.d, s.mode.mem);
    assert PendingOk(s.d.keys, s.d.begun, s.mode.mem.sections[a]) by { hide Inv; }
    hide Inv;
  }

  lemma AdmissionIsOnRecord(c: Config, s: State, j: Id, k: KeyId)
    requires ValidConfig(c) && Inv(c, s) && s.mode.Up? && JobEnabled(s.d, s.mode.mem, AttachJob(j, true))
    requires s.mode.mem.sections[j].stage.jobKey == Some(k)
    requires Admissible(c, s.d, s.mode.mem.sections[j].project, s.mode.mem.sections[j].stage.attached)
    ensures k in s.d.keys && !k.scope.LeaseScope? && Fires(c, s, Act(OnJob(AttachJob(j, true))))
    ensures SettledAs(After(c, s, Act(OnJob(AttachJob(j, true)))).d.keys, k, s.d.keys[k].fingerprint, Completed,
              JobRef(j))
  {
    PendingKeyIs(c, s, j);
    OpeningHasNoRow(c, s, j);
    AttachIff(c, s.d, s.mode.mem, s.now, j, true);
    PerformsAttach(c, s.d, s.mode.mem, s.now, j);
    hide Inv, Fires, After, JobAttach, Admissible, Enabled, JobEnabled, Perform;
    AfterAct(c, s, OnJob(AttachJob(j, true)));
  }

  lemma PerformsAttach(c: Config, d: Durable, m: Mem, now: Time, j: Id)
    requires JobEnabled(d, m, AttachJob(j, true))
    ensures Enabled(d, m, OnJob(AttachJob(j, true)))
    ensures Perform(c, d, m, now, OnJob(AttachJob(j, true))) == JobAttach(c, d, m, now, j, true)
  {}

  lemma OpeningHasNoRow(c: Config, s: State, j: Id)
    requires ValidConfig(c) && Inv(c, s) && s.mode.Up?
    requires j in s.mode.mem.sections && s.mode.mem.sections[j].stage.JobOpening?
    ensures j !in s.d.jobs
  {
    InvParts(c, s);
    AliveParts(c, s.d, s.mode.mem, s.now);
    hide Inv, Alive, KeysInv, LeaseInv, EvidenceInv, UnknownInv, RunsInv;
  }

  /** Once a job was admitted under a key, the same call is answered that job, as long as the key is
      not dropped, in every later state. */
  lemma RepeatedJob(c: Config, s: State, j: Id, k: KeyId, es: seq<Event>, id': Id, command: string,
          attached: Option<Id>)
    requires ValidConfig(c) && Reachable(c, s) && s.mode.Up? && JobEnabled(s.d, s.mode.mem, AttachJob(j, true))
    requires s.mode.mem.sections[j].stage.jobKey == Some(k)
    requires Admissible(c, s.d, s.mode.mem.sections[j].project, s.mode.mem.sections[j].stage.attached)
    requires Follows(c, s, Act(OnJob(AttachJob(j, true))), es, k)
    ensures k in s.d.keys
    ensures
      var s' := Later(c, s, Act(OnJob(AttachJob(j, true))), es);
      s'.mode.Up? && id' !in s'.mode.mem.sections && k.scope.JobScope?
      && s.d.keys[k].fingerprint == JobPrint(k.scope.project, command, attached) ==>
        && j in s'.d.jobs
        && JobBeginReply(c, s'.d, s'.mode.mem, s'.now, id', k.scope.project, command, attached, Some(k.key)) ==
             Recalls(j)
  {
    var l := AttachJob(j, true);
    ReachableInv(c, s);
    AdmissionIsOnRecord(c, s, j, k);
    hide Inv, Reachable, Fires, After, Runs, Reached, JobBeginReply, JobAttach, Admissible, JobEnabled;
    SettledLasts(c, s, Act(OnJob(l)), es, k, s.d.keys[k].fingerprint, Completed, JobRef(j));
    var s' := Later(c, s, Act(OnJob(l)), es);
    hide Later, Drops;
    if s'.mode.Up? && id' !in s'.mode.mem.sections && k.scope.JobScope? {
      SettledRowExists(c, s', k, s.d.keys[k].fingerprint, JobRef(j));
      JobBeginReplyIff(c, s'.d, s'.mode.mem, s'.now, id', k.scope.project, command, attached, Some(k.key), j);
    }
  }

  // ---------------------------------------------------------------- guarded effects

  lemma EndIsOnRecord(c: Config, s: State, g: Id, result: Option<string>, k: KeyId) returns (value: Payload)
    requires ValidConfig(c) && Inv(c, s) && s.mode.Up? && JobEnabled(s.d, s.mode.mem, EndGuarded(g, result))
    requires k == s.mode.mem.sections[g].stage.key
    ensures k in s.d.keys && GuardScope(k.scope) && Fires(c, s, Act(OnJob(EndGuarded(g, result))))
    ensures result.Some? ==> value == Value(result.value)
    ensures SettledAs(After(c, s, Act(OnJob(EndGuarded(g, result)))).d.keys, k, s.d.keys[k].fingerprint,
              if result.Some? then Completed else Failed, value)
  {
    PendingKeyIs(c, s, g);
    GuardEndIff(s.d, s.mode.mem, s.now, g, result, s.d.keys[k].fingerprint, "");
    PerformsEnd(c, s.d, s.mode.mem, s.now, g, result);
    hide Inv, Fires, After, GuardEnd, Enabled, JobEnabled, Perform;
    AfterAct(c, s, OnJob(EndGuarded(g, result)));
    value := Last(s.d, GuardEnd(s.d, s.mode.mem, s.now, g, result).writes).keys[k].result;
  }

  lemma PerformsEnd(c: Config, d: Durable, m: Mem, now: Time, g: Id, result: Option<string>)
    requires JobEnabled(d, m, EndGuarded(g, result))
    ensures Enabled(d, m, OnJob(EndGuarded(g, result)))
    ensures Perform(c, d, m, now, OnJob(EndGuarded(g, result))) == GuardEnd(d, m, now, g, result)
  {}

  /** Once the effect of a guarded call has ended, the same call is answered its result, or refused
      if it threw, as long as the key is not dropped, in every later state; no effect begins. */
  lemma RepeatedGuard(c: Config, s: State, g: Id, result: Option<string>, es: seq<Event>, id': Id, k: KeyId)
    requires ValidConfig(c) && Reachable(c, s) && s.mode.Up? && JobEnabled(s.d, s.mode.mem, EndGuarded(g, result))
    requires k == s.mode.mem.sections[g].stage.key
    requires Follows(c, s, Act(OnJob(EndGuarded(g, result))), es, k)
    ensures k in s.d.keys && GuardScope(k.scope)
    ensures
      var s', fp := Later(c, s, Act(OnJob(EndGuarded(g, result))), es), s.d.keys[k].fingerprint;
      && RequireReplayable(s'.d.keys, k, fp) == (if result.Some? then Replayed(Value(result.value)) else Refused)
      && (s'.mode.Up? && id' !in s'.mode.mem.sections ==>
            GuardBegin(c, s'.d, s'.mode.mem, s'.now, id', k, fp) == Stretch([], s'.mode.mem))
  {
    var l := EndGuarded(g, result);
    ReachableInv(c, s);
    var value := EndIsOnRecord(c, s, g, result, k);
    var fp := s.d.keys[k].fingerprint;
    hide Inv, Reachable, Fires, After, Runs, Reached, GuardEnd, JobEnabled;
    SettledLasts(c, s, Act(OnJob(l)), es, k, fp, if result.Some? then Completed else Failed, value);
    var s' := Later(c, s, Act(OnJob(l)), es);
    hide Later, Drops;
    if s'.mode.Up? && id' !in s'.mode.mem.sections {
      GuardBeginIff(c, s'.d, s'.mode.mem, s'.now, id', k, fp);
    }
    hide GuardBegin;
  }
}
