/** A settled key keeps its answer, and a begun effect stays begun, until retention drops the key. */
module KeyHistory {
  import opened Prelude
  import opened KeyTable
  import opened Store
  import opened Runtime
  import opened Agent
  import opened Frame
  import opened KeyInvariant

  ghost predicate AnswersKept(t: Table, t': Table) {
    forall k: KeyId | k in t && !k.scope.LeaseScope? :: k in t' && (!t[k].status.InProgress? ==> t'[k] == t[k])
  }

  ghost predicate Settles(d: Durable, w: Durable) { AnswersKept(d.keys, w.keys) && d.begun.Keys <= w.begun.Keys }

  ghost predicate SettlesAll(d: Durable, ws: seq<Durable>) { forall w | w in ws :: Settles(d, w) }

  /** The keys a stretch may end: absent or in progress when it starts. */
  predicate Unanswered(t: Table, k: KeyId) { k in t ==> t[k].status.InProgress? }

  lemma BeginAnswers(d: Durable, w: Durable, k: KeyId, fp: Fingerprint, now: Time)
    requires Settles(d, w)
    ensures Settles(d, BeginKey(w, k, fp, now))
  {}

  lemma FinishAnswers(d: Durable, w: Durable, k: KeyId, status: KeyStatus, result: Payload, now: Time)
    requires Settles(d, w) && Unanswered(d.keys, k)
    ensures Settles(d, FinishKey(w, k, status, result, now))
  {}

  lemma TakeAnswers(d: Durable, w: Durable, p: Project, operation: string, owner: Owner, ttl: int, now: Time)
    requires Settles(d, w) && TakeLease(w, p, operation, owner, ttl, now).Some?
    ensures Settles(d, TakeLease(w, p, operation, owner, ttl, now).value)
  {}

  lemma EffectAnswers(d: Durable, w: Durable, k: KeyId)
    requires Settles(d, w)
    ensures Settles(d, BeginEffect(w, k))
  {}

  lemma ReleaseAnswers(d: Durable, w: Durable, p: Project, owner: Owner)
    requires Settles(d, w)
    ensures Settles(d, ReleaseLease(w, p, owner))
  {}

  lemma RowsAside(d: Durable, w: Durable, w': Durable)
    requires Settles(d, w) && w'.keys == w.keys && w.begun.Keys <= w'.begun.Keys
    ensures Settles(d, w')
  {}

  lemma LeaseRefusedAnswers(d: Durable, d1: Durable, m: Mem, k: KeyId, now: Time)
    requires Settles(d, d1) && Unanswered(d.keys, k)
    ensures SettlesAll(d, LeaseRefused(d1, m, k, now).writes)
  {
    FinishAnswers(d, d1, k, Failed, Value("lease"), now);
    hide FinishKey, Settles, Unanswered;
  }

  lemma RowRefusedAnswers(d: Durable, d1: Durable, d2: Durable, m: Mem, k: KeyId, p: Project, owner: Owner, now: Time)
    requires Settles(d, d1) && Settles(d, d2) && Unanswered(d.keys, k)
    ensures SettlesAll(d, RowRefused(d1, d2, m, k, p, owner, now).writes)
  {
    ReleaseAnswers(d, d2, p, owner);
    FinishAnswers(d, ReleaseLease(d2, p, owner), k, Failed, Value("row"), now);
    hide FinishKey, ReleaseLease, Settles, Unanswered;
  }

  lemma OpRowWritesAnswers(d: Durable, d2: Durable, k: KeyId, id: Id, row: OpRow, now: Time)
    requires Settles(d, d2) && Unanswered(d.keys, k)
    ensures SettlesAll(d, OpRowWrites(d2, k, id, row, now))
  {
    var d3 := d2.(ops := d2.ops[id := row]);
    RowsAside(d, d2, d3);
    hide Settles, Unanswered;
    FinishAnswers(d, d3, k, Completed, OpRef(id), now);
    hide FinishKey;
    EffectAnswers(d, FinishKey(d3, k, Completed, OpRef(id), now), k);
    hide BeginEffect;
  }

  lemma StartOpAnswers(c: Config, d: Durable, m: Mem, now: Time, id: Id, kind: OpKind, p: Project, task: Id,
          key: string, engine: Engine)
    ensures SettlesAll(d, StartOp(c, d, m, now, id, kind, p, task, key, engine).writes)
  {
    var k, fp := KeyId(OpScope(kind, p), key), OpPrint(kind, p, task);
    if m.stopping.None? && RequireReplayable(d.keys, k, fp).Absent? {
      assert Settles(d, d) && Unanswered(d.keys, k);
      hide TakeLease, BeginKey, RequireReplayable, Settles, Unanswered, LeaseRefused, RowRefused, OpRowWrites;
      var owner, operation := SectionOwner(m.instance, id), "persistent-" + KindText(kind);
      var d1 := BeginKey(d, k, fp, now);
      BeginAnswers(d, d, k, fp, now);
      var leased := TakeLease(d1, p, operation, owner, c.opTtl, now);
      if leased.None? {
        LeaseRefusedAnswers(d, d1, m, k, now);
      } else {
        TakeAnswers(d, d1, p, operation, owner, c.opTtl, now);
        if !Referenced(d, p, task) {
          RowRefusedAnswers(d, d1, leased.value, m, k, p, owner, now);
        } else {
          OpRowWritesAnswers(d, leased.value, k, id, OpRow(task, p, kind, OpRunning, false), now);
        }
      }
    }
  }

  lemma FailJobKeyAnswers(d: Durable, d1: Durable, key: Option<KeyId>, now: Time)
    requires Settles(d, d1) && (key.Some? ==> Unanswered(d.keys, key.value))
    ensures SettlesAll(d, [d1] + FailJobKey(d1, key, now))
  {
    hide Settles, Unanswered;
    if key.Some? { FinishAnswers(d, d1, key.value, Failed, Value("job"), now); }
    hide FinishKey;
  }

  lemma JobKeyWritesAnswers(d: Durable, d1: Durable, key: Option<KeyId>, j: Id, now: Time)
    requires Settles(d, d1) && (key.Some? ==> Unanswered(d.keys, key.value))
    ensures SettlesAll(d, [d1] + JobKeyWrites(d1, key, j, now))
  {
    hide Settles, Unanswered;
    if key.Some? {
      EffectAnswers(d, d1, key.value);
      hide BeginEffect;
      FinishAnswers(d, BeginEffect(d1, key.value), key.value, Completed, JobRef(j), now);
    }
    hide FinishKey;
  }

  lemma JobBeginAnswers(c: Config, d: Durable, m: Mem, now: Time, id: Id, p: Project, command: string,
          attached: Option<Id>, key: Option<string>)
    ensures SettlesAll(d, JobBegin(c, d, m, now, id, p, command, attached, key).writes)
  {
    var fp := JobPrint(p, command, attached);
    var k := if key.None? then None else Some(KeyId(JobScope(p), key.value));
    if k.None? || RequireReplayable(d.keys, k.value, fp).Absent? {
      assert Settles(d, d) && (k.Some? ==> Unanswered(d.keys, k.value));
      hide TakeLease, BeginKey, RequireReplayable, Settles, Unanswered, FailJobKey;
      var owner := SectionOwner(m.instance, id);
      var d1 := BeginJobKey(d, k, fp, now);
      if k.Some? { BeginAnswers(d, d, k.value, fp, now); }
      hide BeginJobKey;
      var leased := TakeLease(d1, p, "command:" + command, owner, c.jobTtl, now);
      if leased.None? {
        FailJobKeyAnswers(d, d1, k, now);
      } else {
        TakeAnswers(d, d1, p, "command:" + command, owner, c.jobTtl, now);
      }
    }
  }

  lemma JobRefusedAnswers(d: Durable, m: Mem, now: Time, j: Id)
    requires KeysInv(d, m) && j in m.sections && m.sections[j].stage.JobOpening?
    ensures SettlesAll(d, JobRefused(d, m, now, j).writes)
  {
    var st := m.sections[j];
    var k := st.stage.jobKey;
    if k.Some? { assert PendingOk(d.keys, d.begun, st); }
    assert Settles(d, d);
    ReleaseAnswers(d, d, st.project, st.owner);
    hide KeysInv, Settles, FailJobKey, ReleaseLease;
    FailJobKeyAnswers(d, ReleaseLease(d, st.project, st.owner), k, now);
  }

  lemma JobAdmittedAnswers(d: Durable, m: Mem, now: Time, j: Id)
    requires KeysInv(d, m) && j in m.sections && m.sections[j].stage.JobOpening?
    ensures SettlesAll(d, JobAdmitted(d, m, now, j).writes)
  {
    var st := m.sections[j];
    if st.stage.jobKey.Some? { OwnKeyUnanswered(d, m, j); }
    hide KeysInv, Settles, JobKeyWrites, Unanswered;
    var d1 := d.(jobs := d.jobs[j := JobRow(st.stage.attached, st.project, JobRunning)]);
    assert Settles(d, d1) by { NothingSettled(d, d1); }
    JobKeyWritesAnswers(d, d1, st.stage.jobKey, j, now);
  }

  lemma NothingSettled(d: Durable, w: Durable)
    requires w.keys == d.keys && w.begun == d.begun
    ensures Settles(d, w)
  {}

  lemma OwnKeyUnanswered(d: Durable, m: Mem, a: Id)
    requires KeysInv(d, m) && a in m.sections && PendingKey(m.sections[a]).Some?
    ensures Unanswered(d.keys, PendingKey(m.sections[a]).value)
  {
    hide DKeys;
    assert PendingOk(d.keys, d.begun, m.sections[a]);
  }

  lemma JobAttachAnswers(c: Config, d: Durable, m: Mem, now: Time, j: Id, filesOpen: bool)
    requires KeysInv(d, m) && j in m.sections && m.sections[j].stage.JobOpening?
    ensures SettlesAll(d, JobAttach(c, d, m, now, j, filesOpen).writes)
  {
    hide KeysInv, SettlesAll, MayAttach, JobRefused, JobAdmitted;
    JobRefusedAnswers(d, m, now, j);
    JobAdmittedAnswers(d, m, now, j);
  }

  lemma GuardBeginAnswers(c: Config, d: Durable, m: Mem, now: Time, id: Id, k: KeyId, fp: Fingerprint)
    requires GuardScope(k.scope)
    ensures SettlesAll(d, GuardBegin(c, d, m, now, id, k, fp).writes)
  {
    if RequireReplayable(d.keys, k, fp).Absent? {
      assert Settles(d, d) && Unanswered(d.keys, k);
      hide TakeLease, BeginKey, BeginEffect, RequireReplayable, Settles, Unanswered, LeaseRefused;
      var owner := GuardOwner(m.instance, GuardName(k.scope), k.key);
      var d1 := BeginKey(d, k, fp, now);
      BeginAnswers(d, d, k, fp, now);
      var leased := TakeLease(d1, k.scope.project, GuardLease(k.scope), owner, c.guardTtl, now);
      if leased.None? {
        LeaseRefusedAnswers(d, d1, m, k, now);
      } else {
        TakeAnswers(d, d1, k.scope.project, GuardLease(k.scope), owner, c.guardTtl, now);
        EffectAnswers(d, leased.value, k);
      }
    }
  }

  lemma GuardEndAnswers(d: Durable, m: Mem, now: Time, g: Id, result: Option<string>)
    requires KeysInv(d, m) && g in m.sections && m.sections[g].stage.Guarding?
    ensures SettlesAll(d, GuardEnd(d, m, now, g, result).writes)
  {
    var st := m.sections[g];
    var k := st.stage.key;
    OwnKeyUnanswered(d, m, g);
    assert Settles(d, d);
    hide KeysInv, Settles, Unanswered;
    var status, value := if result.Some? then Completed else Failed, if result.Some? then Value(result.value)
      else Value("effect");
    var d1 := EndEffect(d, k, result);
    NothingSettled(d, d1);
    FinishAnswers(d, d1, k, status, value, now);
    ReleaseAnswers(d, FinishKey(d1, k, status, value, now), st.project, st.owner);
    hide FinishKey, ReleaseLease, EndEffect;
  }

  lemma RenewTickAnswers(c: Config, d: Durable, m: Mem, now: Time, o: Id)
    requires o in m.sections
    ensures SettlesAll(d, RenewTick(c, d, m, now, o).writes)
  {
    var s := m.sections[o];
    var lease := GetLease(d.keys, s.project);
    assert Settles(d, d);
    if lease.Some? && TakeLease(d, s.project, lease.value.operation, s.owner, c.opTtl, now).Some? {
      TakeAnswers(d, d, s.project, lease.value.operation, s.owner, c.opTtl, now);
    }
    hide Acquire, GetLease, Settles;
  }

  lemma JobCleanupAnswers(d: Durable, m: Mem, j: Id)
    requires j in m.sections
    ensures SettlesAll(d, JobCleanup(d, m, j).writes)
  {
    assert Settles(d, d);
    ReleaseAnswers(d, d, m.sections[j].project, m.sections[j].owner);
    hide ReleaseLease, Settles;
  }

  lemma FinishOpAnswers(d: Durable, m: Mem, o: Id)
    requires o in m.sections && o in m.engines && m.engines[o].Returned? && o in d.ops
    ensures SettlesAll(d, FinishOp(d, m, o).writes)
  {
    var s, d1 := m.sections[o], SetOp(d, o, OpOutcome(m.engines[o].succeeded), m.engines[o].target);
    assert Settles(d, d);
    RowsAside(d, d, d1);
    hide Settles, SetOp;
    ReleaseAnswers(d, d1, s.project, s.owner);
    hide ReleaseLease;
  }

  lemma OpAnswers(c: Config, d: Durable, m: Mem, now: Time, l: OpLabel)
    requires OpEnabled(d, m, l)
    ensures SettlesAll(d, PerformOp(c, d, m, now, l).writes)
  {
    match l
    case StartOperation(id, kind, p, t, key, plan) =>
      StartOpAnswers(c, d, m, now, id, kind, p, t, key, EngineFor(kind, t, plan)); hide StartOp;
    case FinishOperation(o) => FinishOpAnswers(d, m, o); hide FinishOp;
    case RenewLease(o) => RenewTickAnswers(c, d, m, now, o); hide RenewTick;
    case _ => hide BlockingOp, RunningJob, CancelReplyFor, Abort;
  }

  lemma JobAnswers(c: Config, d: Durable, m: Mem, now: Time, l: JobLabel)
    requires KeysInv(d, m) && JobEnabled(d, m, l)
    ensures SettlesAll(d, PerformJob(c, d, m, now, l).writes)
  {
    hide KeysInv, JobBegin, JobAttach, JobCleanup, GuardBegin, GuardEnd, CancelReplyFor;
    match l
    case BeginJob(id, p, command, attached, key) => JobBeginAnswers(c, d, m, now, id, p, command, attached, key);
    case AttachJob(j, filesOpen) => JobAttachAnswers(c, d, m, now, j, filesOpen);
    case CleanUpJob(j) => JobCleanupAnswers(d, m, j);
    case BeginGuarded(id, k, fp) => GuardBeginAnswers(c, d, m, now, id, k, fp);
    case EndGuarded(g, result) => GuardEndAnswers(d, m, now, g, result);
    case _ =>
  }

  /** No stretch drops a key, changes a given answer or forgets a begun effect. */
  lemma AnswersStep(c: Config, d: Durable, m: Mem, now: Time, l: Label)
    requires KeysInv(d, m) && Enabled(d, m, l) && (EngineLabel(l) ==> EngineOnly(d, m, Perform(c, d, m, now, l)))
    ensures SettlesAll(d, Perform(c, d, m, now, l).writes)
  {
    if EngineLabel(l) {
      hide KeysInv, Enabled, Perform;
    } else {
      hide KeysInv, PerformOp, PerformJob, OpEnabled, JobEnabled, SettlesAll;
      if l.OnOp? { OpAnswers(c, d, m, now, l.o); } else { JobAnswers(c, d, m, now, l.j); }
    }
  }
}
