/** Idempotency over every run: the effect behind a key begins at most once while the key exists,
    a completed key names a row that exists or the result its own effect returned, and a key fails
    only when its effect never began or threw. */
module KeyInvariant {
  import opened Prelude
  import opened KeyTable
  import opened Store
  import opened Runtime
  import opened Agent
  import opened Frame

  ghost predicate KeysOk(keys: Table, begun: map<KeyId, nat>, outcomes: map<KeyId, Option<string>>,
          ops: map<Id, OpRow>, jobs: map<Id, JobRow>)
  {
    && WellFormed(keys)
    && (forall k | k in begun :: k in keys && !k.scope.LeaseScope? && begun[k] == 1)
    && (forall k | k in outcomes :: k in begun)
    && (forall k | k in keys && keys[k].status.Completed? :: Answers(k, keys[k].result, outcomes, ops, jobs))
    && (forall k | k in keys && keys[k].status.Failed? && k in begun :: Threw(k, outcomes))
  }

  /** The stored result of a completed operation or job key is the id of an existing row; that of a
      guarded key is what its effect returned. */
  ghost predicate Answers(k: KeyId, result: Payload, outcomes: map<KeyId, Option<string>>, ops: map<Id, OpRow>,
          jobs: map<Id, JobRow>)
  {
    match k.scope
    case OpScope(_, _) => result.OpRef? && result.op in ops
    case JobScope(_) => result.JobRef? && result.job in jobs
    case _ => k in outcomes && outcomes[k].Some? && result == Value(outcomes[k].value)
  }

  predicate Threw(k: KeyId, outcomes: map<KeyId, Option<string>>) { k in outcomes && outcomes[k].None? }

  function PendingKey(s: Section): Option<KeyId> {
    match s.stage
    case JobOpening(_, k) => k
    case Guarding(k) => Some(k)
    case _ => None
  }

  /** A suspended call owns its key: in progress, and its own. */
  ghost predicate LinkKeys(keys: Table, begun: map<KeyId, nat>, sections: map<Id, Section>) {
    && (forall a | a in sections && PendingKey(sections[a]).Some? :: PendingOk(keys, begun, sections[a]))
    && (forall a, b | a in sections && b in sections && a != b && PendingKey(sections[a]).Some? ::
          PendingKey(sections[a]) != PendingKey(sections[b]))
  }

  ghost predicate PendingOk(keys: Table, begun: map<KeyId, nat>, s: Section)
    requires PendingKey(s).Some?
  {
    var k := PendingKey(s).value;
    && k in keys && keys[k].status.InProgress?
    && (s.stage.JobOpening? ==> k.scope.JobScope? && k !in begun)
    && (s.stage.Guarding? ==> GuardScope(k.scope) && k in begun)
  }

  ghost predicate DKeys(d: Durable) { KeysOk(d.keys, d.begun, d.outcomes, d.ops, d.jobs) }

  ghost predicate KeysInv(d: Durable, m: Mem) { DKeys(d) && LinkKeys(d.keys, d.begun, m.sections) }

  ghost predicate AllKeys(s: Stretch, d: Durable) {
    && (forall w | w in s.writes :: DKeys(w))
    && LinkKeys(Last(d, s.writes).keys, Last(d, s.writes).begun, s.mem.sections)
  }

  // ---------------------------------------------------------------- single writes

  /** The invariant with a given set of suspended calls. */
  ghost predicate Held(d: Durable, sections: map<Id, Section>) { DKeys(d) && LinkKeys(d.keys, d.begun, sections) }

  ghost predicate NobodyHas(k: KeyId, sections: map<Id, Section>) {
    forall a | a in sections :: PendingKey(sections[a]) != Some(k)
  }

  /** A key whose effect has not begun and that no suspended call owns. */
  ghost predicate Unbegun(d: Durable, sections: map<Id, Section>, k: KeyId) {
    !k.scope.LeaseScope? && k in d.keys && k !in d.begun && NobodyHas(k, sections)
  }

  ghost predicate Pending(d: Durable, k: KeyId) { k in d.keys && d.keys[k].status.InProgress? && !k.scope.LeaseScope? }

  lemma BeginHeld(d: Durable, sections: map<Id, Section>, k: KeyId, fp: Fingerprint, now: Time)
    requires Held(d, sections) && k !in d.keys && !k.scope.LeaseScope?
    ensures Held(BeginKey(d, k, fp, now), sections)
    ensures Unbegun(BeginKey(d, k, fp, now), sections, k) && Pending(BeginKey(d, k, fp, now), k)
  {}

  lemma TakeHeld(d: Durable, sections: map<Id, Section>, p: Project, operation: string, owner: Owner, ttl: int,
          now: Time)
    requires Held(d, sections) && TakeLease(d, p, operation, owner, ttl, now).Some?
    ensures Held(TakeLease(d, p, operation, owner, ttl, now).value, sections)
    ensures forall k ::
              Unbegun(d, sections, k) ==> Unbegun(TakeLease(d, p, operation, owner, ttl, now).value, sections, k)
    ensures forall k :: Pending(d, k) ==> Pending(TakeLease(d, p, operation, owner, ttl, now).value, k)
  {}

  lemma ReleaseHeld(d: Durable, sections: map<Id, Section>, p: Project, owner: Owner)
    requires Held(d, sections)
    ensures Held(ReleaseLease(d, p, owner), sections)
    ensures forall k :: Unbegun(d, sections, k) ==> Unbegun(ReleaseLease(d, p, owner), sections, k)
    ensures forall k :: Pending(d, k) ==> Pending(ReleaseLease(d, p, owner), k)
  {}

  lemma FinishHeld(d: Durable, sections: map<Id, Section>, k: KeyId, status: KeyStatus, result: Payload, now: Time)
    requires Held(d, sections) && Pending(d, k) && NobodyHas(k, sections)
    requires status.Completed? ==> Answers(k, result, d.outcomes, d.ops, d.jobs)
    requires status.Failed? && k in d.begun ==> Threw(k, d.outcomes)
    ensures Held(FinishKey(d, k, status, result, now), sections)
    ensures Unbegun(d, sections, k) ==> Unbegun(FinishKey(d, k, status, result, now), sections, k)
  {}

  lemma RowsHeld(d: Durable, w: Durable, sections: map<Id, Section>)
    requires Held(d, sections) && w.keys == d.keys && w.begun == d.begun && w.outcomes == d.outcomes
             && d.ops.Keys <= w.ops.Keys && d.jobs.Keys <= w.jobs.Keys
    ensures Held(w, sections)
    ensures forall k :: (Unbegun(d, sections, k) ==> Unbegun(w, sections, k)) && (Pending(d, k) ==> Pending(w, k))
  {
    forall k | k in w.keys && w.keys[k].status.Completed?
      ensures Answers(k, w.keys[k].result, w.outcomes, w.ops, w.jobs)
    {
      assert Answers(k, d.keys[k].result, d.outcomes, d.ops, d.jobs);
    }
  }

  lemma EffectHeld(d: Durable, sections: map<Id, Section>, k: KeyId)
    requires Held(d, sections) && Unbegun(d, sections, k) && !d.keys[k].status.Failed?
    ensures Held(BeginEffect(d, k), sections) && k in BeginEffect(d, k).begun
    ensures Pending(d, k) ==> Pending(BeginEffect(d, k), k)
  {}

  lemma EndEffectHeld(d: Durable, sections: map<Id, Section>, k: KeyId, result: Option<string>)
    requires Held(d, sections) && Pending(d, k) && k in d.begun && NobodyHas(k, sections)
    ensures Held(EndEffect(d, k, result), sections) && Pending(EndEffect(d, k, result), k)
    ensures result.Some? && GuardScope(k.scope) ==>
              Answers(k, Value(result.value), EndEffect(d, k, result).outcomes, d.ops, d.jobs)
    ensures result.None? ==> Threw(k, EndEffect(d, k, result).outcomes)
  {
    var w := EndEffect(d, k, result);
    forall x | x in w.keys && w.keys[x].status.Completed?
      ensures Answers(x, w.keys[x].result, w.outcomes, w.ops, w.jobs)
    {
      assert Answers(x, d.keys[x].result, d.outcomes, d.ops, d.jobs);
    }
  }

  /** Which calls are suspended only matters through the keys they own. */
  lemma SectionHeld(d: Durable, sections: map<Id, Section>, a: Id, s: Section)
    requires Held(d, sections)
    requires PendingKey(s).Some? ==> PendingOk(d.keys, d.begun, s) && NobodyHas(PendingKey(s).value, sections - {a})
    ensures Held(d, sections[a := s])
  {
    hide DKeys;
    var all := sections[a := s];
    forall x, y | x in all && y in all && x != y && PendingKey(all[x]).Some?
      ensures PendingKey(all[x]) != PendingKey(all[y])
    {
      if x == a {
        assert y in sections - {a};
      } else if y == a {
        assert x in sections - {a};
      }
    }
  }

  lemma SectionGone(d: Durable, sections: map<Id, Section>, a: Id)
    requires Held(d, sections)
    ensures Held(d, sections - {a})
    ensures a in sections && PendingKey(sections[a]).Some? ==> NobodyHas(PendingKey(sections[a]).value, sections - {a})
  {
    hide DKeys;
  }

  /** All writes hold, and the last one with the sections afterwards. */
  lemma AllHeld(d: Durable, s: Stretch)
    requires forall w | w in s.writes :: DKeys(w)
    requires Held(Last(d, s.writes), s.mem.sections)
    ensures AllKeys(s, d)
  {
    hide DKeys, LinkKeys;
  }

  // ---------------------------------------------------------------- stretches

  lemma LeaseRefusedKeys(d: Durable, d1: Durable, m: Mem, k: KeyId, now: Time)
    requires Held(d1, m.sections) && Unbegun(d1, m.sections, k) && Pending(d1, k)
    ensures AllKeys(LeaseRefused(d1, m, k, now), d)
  {
    FinishHeld(d1, m.sections, k, Failed, Value("lease"), now);
    hide DKeys, LinkKeys, FinishKey, Unbegun, Pending, AllKeys;
    AllHeld(d, LeaseRefused(d1, m, k, now));
  }

  lemma RowRefusedKeys(d: Durable, d1: Durable, d2: Durable, m: Mem, k: KeyId, p: Project, owner: Owner, now: Time)
    requires DKeys(d1) && Held(d2, m.sections) && Unbegun(d2, m.sections, k) && Pending(d2, k)
    ensures AllKeys(RowRefused(d1, d2, m, k, p, owner, now), d)
  {
    var d3 := ReleaseLease(d2, p, owner);
    ReleaseHeld(d2, m.sections, p, owner);
    FinishHeld(d3, m.sections, k, Failed, Value("row"), now);
    hide DKeys, LinkKeys, FinishKey, ReleaseLease, Unbegun, Pending, AllKeys;
    AllHeld(d, RowRefused(d1, d2, m, k, p, owner, now));
  }

  lemma OpRowWritesHeld(d: Durable, sections: map<Id, Section>, k: KeyId, id: Id, row: OpRow, now: Time)
    requires Held(d, sections) && Unbegun(d, sections, k) && Pending(d, k) && k.scope.OpScope?
    ensures forall w | w in OpRowWrites(d, k, id, row, now) :: DKeys(w)
    ensures Held(Last(d, OpRowWrites(d, k, id, row, now)), sections)
  {
    var d3 := d.(ops := d.ops[id := row]);
    RowsHeld(d, d3, sections);
    FinishHeld(d3, sections, k, Completed, OpRef(id), now);
    var d4 := FinishKey(d3, k, Completed, OpRef(id), now);
    hide FinishKey;
    EffectHeld(d4, sections, k);
    hide DKeys, LinkKeys, BeginEffect, Unbegun, Pending, Answers;
  }

  lemma OpStartedKeys(d: Durable, d1: Durable, d2: Durable, m: Mem, now: Time, k: KeyId, id: Id, row: OpRow, s: Section,
          engine: Engine)
    requires DKeys(d1) && Held(d2, m.sections) && Unbegun(d2, m.sections, k) && Pending(d2, k) && k.scope.OpScope?
             && s.stage.Operation?
    ensures AllKeys(OpStarted(d1, d2, m, now, k, id, row, s, engine), d)
  {
    hide DKeys, LinkKeys, AllKeys, OpRowWrites, Unbegun, Pending;
    var rest := OpRowWrites(d2, k, id, row, now);
    OpRowWritesHeld(d2, m.sections, k, id, row, now);
    SectionHeld(Last(d2, rest), m.sections, id, s);
    assert Last(d, [d1, d2] + rest) == Last(d2, rest);
    AllHeld(d, OpStarted(d1, d2, m, now, k, id, row, s, engine));
  }

  lemma StartOpKeys(c: Config, d: Durable, m: Mem, now: Time, id: Id, kind: OpKind, p: Project, task: Id, key: string,
          engine: Engine)
    requires KeysInv(d, m) && id !in m.sections
    ensures AllKeys(StartOp(c, d, m, now, id, kind, p, task, key, engine), d)
  {
    hide DKeys, LinkKeys, TakeLease, BeginKey, AllKeys, Unbegun, Pending, LeaseRefused, RowRefused, OpStarted;
    var k, fp := KeyId(OpScope(kind, p), key), OpPrint(kind, p, task);
    if m.stopping.None? && RequireReplayable(d.keys, k, fp).Absent? {
      var owner, operation := SectionOwner(m.instance, id), "persistent-" + KindText(kind);
      BeginHeld(d, m.sections, k, fp, now);
      var d1 := BeginKey(d, k, fp, now);
      var leased := TakeLease(d1, p, operation, owner, c.opTtl, now);
      if leased.None? {
        LeaseRefusedKeys(d, d1, m, k, now);
      } else {
        TakeHeld(d1, m.sections, p, operation, owner, c.opTtl, now);
        if !Referenced(d, p, task) {
          RowRefusedKeys(d, d1, leased.value, m, k, p, owner, now);
        } else {
          OpStartedKeys(d, d1, leased.value, m, now, k, id, OpRow(task, p, kind, OpRunning, false),
              Section(p, owner, c.opTtl, now, Operation), engine);
        }
      }
    } else {
      QuietKeys(d, m);
    }
  }

  lemma QuietKeys(d: Durable, m: Mem)
    requires KeysInv(d, m)
    ensures AllKeys(Quiet(m), d)
  {
    hide DKeys, LinkKeys;
  }

  /** The writes made hold, and so does a section opened over them. */
  lemma OpensKeys(d: Durable, writes: seq<Durable>, m: Mem, id: Id, s: Section)
    requires forall w | w in writes :: DKeys(w)
    requires Held(Last(d, writes), m.sections)
    requires PendingKey(s).Some? ==>
               PendingOk(Last(d, writes).keys, Last(d, writes).begun, s)
                 && NobodyHas(PendingKey(s).value, m.sections - {id})
    ensures AllKeys(Opens(writes, m, id, s), d)
  {
    SectionHeld(Last(d, writes), m.sections, id, s);
    hide DKeys, LinkKeys, AllKeys;
    AllHeld(d, Opens(writes, m, id, s));
  }

  lemma BeginJobKeyHeld(d: Durable, sections: map<Id, Section>, k: Option<KeyId>, fp: Fingerprint, now: Time)
    requires Held(d, sections) && (k.Some? ==> k.value !in d.keys && !k.value.scope.LeaseScope?)
    ensures Held(BeginJobKey(d, k, fp, now), sections)
    ensures k.Some? ==>
              Unbegun(BeginJobKey(d, k, fp, now), sections, k.value) && Pending(BeginJobKey(d, k, fp, now), k.value)
  {
    hide DKeys, LinkKeys, BeginKey, Unbegun, Pending;
    if k.Some? { BeginHeld(d, sections, k.value, fp, now); }
  }

  lemma JobFailedKeys(d: Durable, d1: Durable, m: Mem, k: Option<KeyId>, now: Time)
    requires Held(d1, m.sections) && (k.Some? ==> Pending(d1, k.value) && Unbegun(d1, m.sections, k.value))
    ensures AllKeys(Stretch([d1] + FailJobKey(d1, k, now), m), d)
  {
    if k.Some? { FinishHeld(d1, m.sections, k.value, Failed, Value("job"), now); }
    hide DKeys, LinkKeys, FinishKey, Pending, Unbegun, AllKeys;
    AllHeld(d, Stretch([d1] + FailJobKey(d1, k, now), m));
  }

  lemma JobBeginKeys(c: Config, d: Durable, m: Mem, now: Time, id: Id, p: Project, command: string,
          attached: Option<Id>, key: Option<string>)
    requires KeysInv(d, m) && id !in m.sections
    ensures AllKeys(JobBegin(c, d, m, now, id, p, command, attached, key), d)
  {
    hide DKeys, LinkKeys, TakeLease, BeginJobKey, AllKeys, FailJobKey, Opens, NobodyHas;
    var fp := JobPrint(p, command, attached);
    var k := if key.None? then None else Some(KeyId(JobScope(p), key.value));
    if k.None? || RequireReplayable(d.keys, k.value, fp).Absent? {
      var owner := SectionOwner(m.instance, id);
      BeginJobKeyHeld(d, m.sections, k, fp, now);
      var d1 := BeginJobKey(d, k, fp, now);
      var leased := TakeLease(d1, p, "command:" + command, owner, c.jobTtl, now);
      if leased.None? {
        JobFailedKeys(d, d1, m, k, now);
      } else {
        TakeHeld(d1, m.sections, p, "command:" + command, owner, c.jobTtl, now);
        assert m.sections - {id} == m.sections;
        OpensKeys(d, [d1, leased.value], m, id, Section(p, owner, c.jobTtl, now, JobOpening(attached, k)));
      }
    } else {
      QuietKeys(d, m);
    }
  }

  lemma JobRefusedKeys(d: Durable, m: Mem, now: Time, j: Id)
    requires KeysInv(d, m) && j in m.sections && m.sections[j].stage.JobOpening?
    ensures AllKeys(JobRefused(d, m, now, j), d)
  {
    var s := m.sections[j];
    var k, m' := s.stage.jobKey, m.(sections := m.sections - {j});
    assert k.Some? ==> PendingOk(d.keys, d.begun, s);
    SectionGone(d, m.sections, j);
    ReleaseHeld(d, m'.sections, s.project, s.owner);
    hide DKeys, LinkKeys, ReleaseLease, AllKeys, FailJobKey, NobodyHas;
    JobFailedKeys(d, ReleaseLease(d, s.project, s.owner), m', k, now);
  }

  lemma JobAdmittedKeys(d: Durable, m: Mem, now: Time, j: Id)
    requires KeysInv(d, m) && j in m.sections && m.sections[j].stage.JobOpening?
    ensures AllKeys(JobAdmitted(d, m, now, j), d)
  {
    var s := m.sections[j];
    var d1, k, rest := d.(jobs := d.jobs[j := JobRow(s.stage.attached, s.project, JobRunning)]), s.stage.jobKey,
        m.sections - {j};
    assert k.Some? ==> PendingOk(d.keys, d.begun, s);
    SectionGone(d, m.sections, j);
    RowsHeld(d, d1, rest);
    assert rest[j := s.(stage := JobLive(false))] == m.sections[j := s.(stage := JobLive(false))];
    hide DKeys, LinkKeys, AllKeys, NobodyHas;
    JobKeyWritesHeld(d1, rest, k, j, now);
    OpensKeys(d, [d1] + JobKeyWrites(d1, k, j, now), m.(sections := rest), j, s.(stage := JobLive(false)));
    hide JobKeyWrites;
  }

  lemma JobKeyWritesHeld(d1: Durable, sections: map<Id, Section>, k: Option<KeyId>, j: Id, now: Time)
    requires Held(d1, sections) && j in d1.jobs
             && (k.Some? ==> Unbegun(d1, sections, k.value) && Pending(d1, k.value) && k.value.scope.JobScope?)
    ensures forall w | w in [d1] + JobKeyWrites(d1, k, j, now) :: DKeys(w)
    ensures Held(Last(d1, [d1] + JobKeyWrites(d1, k, j, now)), sections)
  {
    if k.Some? {
      EffectHeld(d1, sections, k.value);
      FinishHeld(BeginEffect(d1, k.value), sections, k.value, Completed, JobRef(j), now);
    }
    hide DKeys, LinkKeys, FinishKey, BeginEffect, Unbegun, Pending;
  }

  lemma JobAttachKeys(c: Config, d: Durable, m: Mem, now: Time, j: Id, filesOpen: bool)
    requires KeysInv(d, m) && j in m.sections && m.sections[j].stage.JobOpening?
    ensures AllKeys(JobAttach(c, d, m, now, j, filesOpen), d)
  {
    hide KeysInv, AllKeys, JobRefused, JobAdmitted, MayAttach;
    JobRefusedKeys(d, m, now, j);
    JobAdmittedKeys(d, m, now, j);
  }

  lemma GuardBeginKeys(c: Config, d: Durable, m: Mem, now: Time, id: Id, k: KeyId, fp: Fingerprint)
    requires KeysInv(d, m) && id !in m.sections && GuardScope(k.scope)
    ensures AllKeys(GuardBegin(c, d, m, now, id, k, fp), d)
  {
    hide DKeys, LinkKeys, TakeLease, BeginKey, BeginEffect, AllKeys, LeaseRefused, Opens, NobodyHas;
    if RequireReplayable(d.keys, k, fp).Absent? {
      var p, owner := k.scope.project, GuardOwner(m.instance, GuardName(k.scope), k.key);
      BeginHeld(d, m.sections, k, fp, now);
      var d1 := BeginKey(d, k, fp, now);
      var leased := TakeLease(d1, p, GuardLease(k.scope), owner, c.guardTtl, now);
      if leased.None? {
        LeaseRefusedKeys(d, d1, m, k, now);
      } else {
        TakeHeld(d1, m.sections, p, GuardLease(k.scope), owner, c.guardTtl, now);
        EffectHeld(leased.value, m.sections, k);
        assert m.sections - {id} == m.sections;
        OpensKeys(d, [d1, leased.value, BeginEffect(leased.value, k)], m, id,
            Section(p, owner, c.guardTtl, now, Guarding(k)));
      }
    } else {
      QuietKeys(d, m);
    }
  }

  lemma GuardEndKeys(d: Durable, m: Mem, now: Time, g: Id, result: Option<string>)
    requires KeysInv(d, m) && g in m.sections && m.sections[g].stage.Guarding?
    ensures AllKeys(GuardEnd(d, m, now, g, result), d)
  {
    var s := m.sections[g];
    var k, rest := s.stage.key, m.sections - {g};
    assert PendingOk(d.keys, d.begun, s);
    SectionGone(d, m.sections, g);
    var d1 := EndEffect(d, k, result);
    EndEffectHeld(d, rest, k, result);
    var status, value := if result.Some? then Completed else Failed, if result.Some? then Value(result.value)
      else Value("effect");
    FinishHeld(d1, rest, k, status, value, now);
    hide DKeys, LinkKeys, FinishKey, EndEffect, AllKeys;
    var d2 := FinishKey(d1, k, status, value, now);
    ReleaseHeld(d2, rest, s.project, s.owner);
    hide ReleaseLease;
    AllHeld(d, GuardEnd(d, m, now, g, result));
  }

  lemma FinishOpKeys(d: Durable, m: Mem, o: Id)
    requires KeysInv(d, m) && o in m.sections && o in m.engines && m.engines[o].Returned? && o in d.ops
    ensures AllKeys(FinishOp(d, m, o), d)
  {
    var s, rest, status := m.sections[o], m.sections - {o}, OpOutcome(m.engines[o].succeeded);
    SectionGone(d, m.sections, o);
    var d1 := SetOp(d, o, status, m.engines[o].target);
    RowsHeld(d, d1, rest);
    hide DKeys, LinkKeys, AllKeys, SetOp, OpOutcome;
    ReleaseHeld(d1, rest, s.project, s.owner);
    hide ReleaseLease;
    AllHeld(d, FinishOp(d, m, o));
  }

  lemma RenewTickKeys(c: Config, d: Durable, m: Mem, now: Time, o: Id)
    requires KeysInv(d, m) && o in m.sections && m.sections[o].stage.Operation?
    ensures AllKeys(RenewTick(c, d, m, now, o), d)
  {
    hide DKeys, LinkKeys, Acquire, GetLease, AllKeys;
    var s := m.sections[o];
    var t := Renew(d.keys, s.project, s.owner, c.opTtl, now);
    if t.Some? {
      TakeHeld(d, m.sections, s.project, GetLease(d.keys, s.project).value.operation, s.owner, c.opTtl, now);
      SectionHeld(SetKeys(d, t.value), m.sections, o, s.(since := now, ttl := c.opTtl));
      AllHeld(d, RenewTick(c, d, m, now, o));
    } else {
      QuietKeys(d, m);
    }
  }

  lemma RequestCancellationKeys(d: Durable, m: Mem, o: Id)
    requires KeysInv(d, m)
    ensures AllKeys(RequestCancellation(d, m, o), d)
  {
    hide DKeys, LinkKeys, AllKeys;
    if o in d.ops { RowsHeld(d, d.(ops := d.ops[o := d.ops[o].(cancelRequested := true)]), m.sections); }
    AllHeld(d, RequestCancellation(d, m, o));
  }

  lemma JobExitKeys(d: Durable, m: Mem, j: Id, exitedCleanly: bool)
    requires KeysInv(d, m) && j in m.sections && m.sections[j].stage.JobLive? && j in d.jobs
    ensures AllKeys(JobExit(d, m, j, exitedCleanly), d)
  {
    hide DKeys, LinkKeys, AllKeys, Opens, JobOutcome;
    var s, status := m.sections[j], JobOutcome(m.sections[j].stage.aborted, exitedCleanly);
    RowsHeld(d, SetJob(d, j, status), m.sections);
    hide SetJob;
    OpensKeys(d, [SetJob(d, j, status)], m, j, s.(stage := JobSettled));
  }

  lemma JobCleanupKeys(d: Durable, m: Mem, j: Id)
    requires KeysInv(d, m) && j in m.sections
    ensures AllKeys(JobCleanup(d, m, j), d)
  {
    hide DKeys, LinkKeys, AllKeys;
    var s := m.sections[j];
    SectionGone(d, m.sections, j);
    ReleaseHeld(d, m.sections - {j}, s.project, s.owner);
    hide ReleaseLease;
    AllHeld(d, JobCleanup(d, m, j));
  }

  lemma AbortKeys(d: Durable, m: Mem, j: Id)
    requires KeysInv(d, m)
    ensures KeysInv(d, Abort(m, j))
  {
    hide DKeys, LinkKeys;
    if j in m.sections && m.sections[j].stage.JobLive? {
      SectionHeld(d, m.sections, j, m.sections[j].(stage := JobLive(true)));
    }
  }

  lemma CancelBeginKeys(d: Durable, m: Mem, id: Id, t: Id)
    requires KeysInv(d, m)
    ensures AllKeys(CancelBegin(d, m, id, t), d)
  {
    hide DKeys, LinkKeys, Abort, BlockingOp, CancelReplyFor;
    if RunningJob(d.jobs, t) { AbortKeys(d, m, AttachedJob(d.jobs, t)); }
  }

  lemma ShutdownKeys(d: Durable, m: Mem, j: Id)
    requires KeysInv(d, m)
    ensures AllKeys(Shutdown(m), d) && AllKeys(JobCancel(d, m, j), d)
  {
    hide DKeys, LinkKeys, Abort, CancelReplyFor;
    AbortKeys(d, m, j);
  }

  lemma OpKeys(c: Config, d: Durable, m: Mem, now: Time, l: OpLabel)
    requires KeysInv(d, m) && OpEnabled(d, m, l)
    ensures AllKeys(PerformOp(c, d, m, now, l), d)
  {
    hide KeysInv, StartOp, FinishOp, RenewTick, RequestCancellation, Shutdown, CancelBegin, AllKeys;
    match l
    case StartOperation(id, kind, p, t, key, plan) =>
      StartOpKeys(c, d, m, now, id, kind, p, t, key, EngineFor(kind, t, plan));
    case FinishOperation(o) => FinishOpKeys(d, m, o);
    case RenewLease(o) => RenewTickKeys(c, d, m, now, o);
    case RequestCancel(o) => RequestCancellationKeys(d, m, o);
    case ShutDown => ShutdownKeys(d, m, 0);
    case BeginCancel(id, t) => CancelBeginKeys(d, m, id, t);
  }

  lemma JobKeys(c: Config, d: Durable, m: Mem, now: Time, l: JobLabel)
    requires KeysInv(d, m) && JobEnabled(d, m, l)
    ensures AllKeys(PerformJob(c, d, m, now, l), d)
  {
    hide KeysInv, JobBegin, JobAttach, JobExit, JobCleanup, JobCancel, GuardBegin, GuardEnd, AllKeys;
    match l
    case BeginJob(id, p, command, attached, key) => JobBeginKeys(c, d, m, now, id, p, command, attached, key);
    case AttachJob(j, filesOpen) => JobAttachKeys(c, d, m, now, j, filesOpen);
    case ExitJob(j, clean) => JobExitKeys(d, m, j, clean);
    case CleanUpJob(j) => JobCleanupKeys(d, m, j);
    case CancelJob(j) => ShutdownKeys(d, m, j);
    case BeginGuarded(id, k, fp) => GuardBeginKeys(c, d, m, now, id, k, fp);
    case EndGuarded(g, result) => GuardEndKeys(d, m, now, g, result);
  }

  lemma EngineKeys(d: Durable, m: Mem, s: Stretch)
    requires KeysInv(d, m) && EngineOnly(d, m, s)
    ensures AllKeys(s, d)
  {
    hide KeysOk, LinkKeys;
    if s.writes != [] { assert SameWork(d, Last(d, s.writes)); }
  }

  /** Every stretch keeps the invariant in all the states it writes and in the one it ends in. */
  lemma KeysStep(c: Config, d: Durable, m: Mem, now: Time, l: Label)
    requires KeysInv(d, m) && Enabled(d, m, l) && (EngineLabel(l) ==> EngineOnly(d, m, Perform(c, d, m, now, l)))
    ensures AllKeys(Perform(c, d, m, now, l), d)
  {
    hide KeysInv, PerformOp, PerformJob, OpEnabled, JobEnabled, AllKeys, EngineOnly;
    match l
    case OnOp(o) => OpKeys(c, d, m, now, o);
    case OnJob(j) => JobKeys(c, d, m, now, j);
    case _ => EngineKeys(d, m, Perform(c, d, m, now, l));
  }

  /** Every part of the startup sequence keeps it too; retention drops no key in progress. */
  lemma KeysBoot(d: Durable, now: Time, n: nat, p: Part)
    requires DKeys(d) && PartFires(d, now, n, p)
    ensures DKeys(AfterPart(d, p))
    ensures forall k | k in d.keys && d.keys[k].status.InProgress? && !k.scope.LeaseScope? :: k in AfterPart(d, p).keys
  {
    match p
    case BootOps => RowsHeld(d, AfterPart(d, p), map[]); hide DKeys;
    case BootJobs => RowsHeld(d, AfterPart(d, p), map[]); hide DKeys;
    case BootKeys(cutoff) => PruneHeld(d, cutoff); hide DKeys, PruneKeys;
    case _ =>
  }

  lemma PruneHeld(d: Durable, cutoff: Time)
    requires DKeys(d)
    ensures DKeys(PruneKeys(d, cutoff))
    ensures forall k | k in d.keys && d.keys[k].status.InProgress? :: k in PruneKeys(d, cutoff).keys
  {
    var w := PruneKeys(d, cutoff);
    forall k | k in w.keys && w.keys[k].status.Completed?
      ensures Answers(k, w.keys[k].result, w.outcomes, w.ops, w.jobs)
    {
      assert Answers(k, d.keys[k].result, d.outcomes, d.ops, d.jobs);
      assert k in d.outcomes ==> k in w.outcomes;
    }
    forall k | k in w.keys && w.keys[k].status.Failed? && k in w.begun ensures Threw(k, w.outcomes) {
      assert Threw(k, d.outcomes);
    }
  }
}
