/** Mutual exclusion over every run: at most one leased section of a project is active, and the
    stored lease is always that section's, alive and its own. */
module LeaseInvariant {
  import opened Prelude
  import opened KeyTable
  import opened Store
  import opened Runtime
  import opened Agent
  import opened Frame
  import opened KeyInvariant

  ghost predicate HoldsLease(keys: Table, now: Time, s: Section) {
    && LeaseKey(s.project) in keys
    && keys[LeaseKey(s.project)].fingerprint == OwnerPrint(s.owner)
    && keys[LeaseKey(s.project)].result.LeaseData?
    && keys[LeaseKey(s.project)].result.expires == s.since + s.ttl
    && now < s.since + s.ttl
  }

  ghost predicate OwnerOk(instance: nat, a: Id, s: Section) {
    && (if s.stage.Guarding?
        then GuardScope(s.stage.key.scope) && s.stage.key.scope.project == s.project
             && s.owner == GuardOwner(instance, GuardName(s.stage.key.scope), s.stage.key.key)
        else s.owner == SectionOwner(instance, a))
    && (s.stage.Operation? ==> s.ttl >= 5_000)
  }

  ghost predicate LeasesOk(instance: nat, keys: Table, now: Time, sections: map<Id, Section>) {
    forall a | a in sections :: HoldsLease(keys, now, sections[a]) && OwnerOk(instance, a, sections[a])
  }

  ghost predicate LeaseInv(d: Durable, m: Mem, now: Time) { LeasesOk(m.instance, d.keys, now, m.sections) }

  ghost predicate Exclusive(sections: map<Id, Section>) {
    forall a, b | a in sections && b in sections && sections[a].project == sections[b].project :: a == b
  }

  /** Two active sections of one project are the same section. */
  lemma MutualExclusion(d: Durable, m: Mem, now: Time)
    requires KeysInv(d, m) && LeaseInv(d, m, now)
    ensures Exclusive(m.sections)
  {
    forall a, b | a in m.sections && b in m.sections && m.sections[a].project == m.sections[b].project
      ensures a == b
    {
      var s, t := m.sections[a], m.sections[b];
      assert HoldsLease(d.keys, now, s) && HoldsLease(d.keys, now, t);
      assert s.owner == t.owner;
      assert OwnerOk(m.instance, a, s) && OwnerOk(m.instance, b, t);
      if s.stage.Guarding? && t.stage.Guarding? {
        assert s.stage.key == t.stage.key;
        assert PendingKey(s) == PendingKey(t) && PendingKey(s).Some?;
      }
    }
  }

  ghost predicate SameLeases(t: Table, t': Table) {
    forall p :: (LeaseKey(p) in t <==> LeaseKey(p) in t') && (LeaseKey(p) in t ==> t[LeaseKey(p)] == t'[LeaseKey(p)])
  }

  lemma SameLeasesOk(instance: nat, keys: Table, keys': Table, now: Time, sections: map<Id, Section>)
    requires LeasesOk(instance, keys, now, sections) && SameLeases(keys, keys')
    ensures LeasesOk(instance, keys', now, sections)
  {
    forall a | a in sections ensures HoldsLease(keys', now, sections[a]) && OwnerOk(instance, a, sections[a]) {
      assert HoldsLease(keys, now, sections[a]);
    }
  }

  lemma BeginLeases(d: Durable, k: KeyId, fp: Fingerprint, now: Time)
    requires !k.scope.LeaseScope?
    ensures SameLeases(d.keys, BeginKey(d, k, fp, now).keys)
  {}

  lemma FinishLeases(d: Durable, k: KeyId, status: KeyStatus, result: Payload, now: Time)
    requires !k.scope.LeaseScope?
    ensures SameLeases(d.keys, FinishKey(d, k, status, result, now).keys)
  {}

  lemma OpRowWritesLeases(d: Durable, k: KeyId, id: Id, row: OpRow, now: Time)
    requires !k.scope.LeaseScope?
    ensures SameLeases(d.keys, Last(d, OpRowWrites(d, k, id, row, now)).keys)
  {
    FinishLeases(d.(ops := d.ops[id := row]), k, Completed, OpRef(id), now);
    hide FinishKey, BeginEffect, SameLeases;
  }

  lemma JobKeyWritesLeases(d: Durable, key: Option<KeyId>, j: Id, now: Time)
    requires key.Some? ==> !key.value.scope.LeaseScope?
    ensures SameLeases(d.keys, Last(d, [d] + JobKeyWrites(d, key, j, now)).keys)
  {
    if key.Some? {
      FinishLeases(BeginEffect(d, key.value), key.value, Completed, JobRef(j), now);
      hide FinishKey, BeginEffect, SameLeases;
    }
  }

  lemma FailJobKeyLeases(d: Durable, key: Option<KeyId>, now: Time)
    requires key.Some? ==> !key.value.scope.LeaseScope?
    ensures SameLeases(d.keys, Last(d, [d] + FailJobKey(d, key, now)).keys)
  {
    if key.Some? {
      FinishLeases(d, key.value, Failed, Value("job"), now);
      hide FinishKey, SameLeases;
    }
  }

  ghost predicate NobodyOn(p: Project, sections: map<Id, Section>) {
    forall a | a in sections :: sections[a].project != p
  }

  ghost predicate NobodyOwns(owner: Owner, p: Project, sections: map<Id, Section>) {
    forall a | a in sections && sections[a].project == p :: sections[a].owner != owner
  }

  /** The lease is granted only when no section of the project is active, or to its own holder. */
  lemma GrantedAlone(instance: nat, d: Durable, now: Time, sections: map<Id, Section>, p: Project, operation: string,
          owner: Owner, ttl: int)
    requires LeasesOk(instance, d.keys, now, sections) && NobodyOwns(owner, p, sections)
    requires TakeLease(d, p, operation, owner, ttl, now).Some?
    ensures NobodyOn(p, sections)
  {
    forall a | a in sections ensures sections[a].project != p {
      assert HoldsLease(d.keys, now, sections[a]);
    }
  }

  lemma GrantKeepsLeases(instance: nat, d: Durable, now: Time, sections: map<Id, Section>, p: Project,
          operation: string, owner: Owner, ttl: int,
                         a: Id, stage: Stage)
    requires LeasesOk(instance, d.keys, now, sections) && NobodyOn(p, sections - {a})
    requires TakeLease(d, p, operation, owner, ttl, now).Some?
    requires OwnerOk(instance, a, Section(p, owner, ttl, now, stage))
    ensures LeasesOk(instance, TakeLease(d, p, operation, owner, ttl, now).value.keys, now,
              sections[a := Section(p, owner, ttl, now, stage)])
  {
    var keys' := TakeLease(d, p, operation, owner, ttl, now).value.keys;
    var sections' := sections[a := Section(p, owner, ttl, now, stage)];
    forall b | b in sections' ensures HoldsLease(keys', now, sections'[b]) && OwnerOk(instance, b, sections'[b]) {
      if b != a {
        assert b in sections - {a} && HoldsLease(d.keys, now, sections[b]);
      }
    }
  }

  ghost predicate AloneOn(sections: map<Id, Section>, a: Id)
    requires a in sections
  {
    forall b | b in sections && b != a :: sections[b].project != sections[a].project
  }

  lemma OnlyOneOn(sections: map<Id, Section>, a: Id, s: Section)
    requires NobodyOn(s.project, sections)
    ensures AloneOn(sections[a := s], a)
  {}

  lemma OthersKeepLeases(instance: nat, d: Durable, now: Time, sections: map<Id, Section>, a: Id)
    requires LeasesOk(instance, d.keys, now, sections) && a in sections && AloneOn(sections, a)
    ensures LeasesOk(instance, ReleaseLease(d, sections[a].project, sections[a].owner).keys, now, sections - {a})
  {
    var keys, keys' := d.keys, ReleaseLease(d, sections[a].project, sections[a].owner).keys;
    forall b | b in sections - {a} ensures HoldsLease(keys', now, sections[b]) && OwnerOk(instance, b, sections[b]) {
      assert HoldsLease(keys, now, sections[b]);
    }
  }
  lemma StageKeepsLeases(instance: nat, keys: Table, now: Time, sections: map<Id, Section>, a: Id, s: Section)
    requires LeasesOk(instance, keys, now, sections) && a in sections
    requires !sections[a].stage.Guarding? && !s.stage.Guarding? && !s.stage.Operation?
    requires s == sections[a].(stage := s.stage)
    ensures LeasesOk(instance, keys, now, sections[a := s])
  {
    var all := sections[a := s];
    forall b | b in all ensures HoldsLease(keys, now, all[b]) && OwnerOk(instance, b, all[b]) {
      assert HoldsLease(keys, now, sections[b]) && OwnerOk(instance, b, sections[b]);
    }
  }

  /** Missing one whole renewal period still leaves the lease alive. */
  lemma OneMissedTickIsSurvived(ttl: int)
    requires ttl >= 5_000
    ensures 2 * RenewEvery(ttl) < ttl && RenewEvery(ttl) == ttl / 3
  {}

  /** Time passing under the clock assumptions expires no lease of an active section. */
  lemma PassKeepsLeases(instance: nat, keys: Table, now: Time, dt: nat, m: Mem)
    requires LeasesOk(instance, keys, now, m.sections) && InTime(m, now + dt)
    ensures LeasesOk(instance, keys, now + dt, m.sections)
  {
    forall a | a in m.sections
      ensures HoldsLease(keys, now + dt, m.sections[a]) && OwnerOk(instance, a, m.sections[a])
    {
      var s := m.sections[a];
      assert HoldsLease(keys, now, s) && OwnerOk(instance, a, s);
      if s.stage.Operation? { OneMissedTickIsSurvived(s.ttl); }
    }
  }

  // ---------------------------------------------------------------- stretches

  ghost predicate LeaseAfter(d: Durable, now: Time, s: Stretch) {
    LeasesOk(s.mem.instance, Last(d, s.writes).keys, now, s.mem.sections)
  }

  /** A new section takes its lease while nobody else is on the project. */
  lemma OpensAlone(instance: nat, d: Durable, now: Time, sections: map<Id, Section>, id: Id, operation: string,
          s: Section)
    requires LeasesOk(instance, d.keys, now, sections) && NobodyOwns(s.owner, s.project, sections) && id !in sections
             && s.since == now
    requires TakeLease(d, s.project, operation, s.owner, s.ttl, now).Some? && OwnerOk(instance, id, s)
    ensures NobodyOn(s.project, sections)
    ensures LeasesOk(instance, TakeLease(d, s.project, operation, s.owner, s.ttl, now).value.keys, now,
              sections[id := s])
  {
    hide LeasesOk, TakeLease, NobodyOwns;
    GrantedAlone(instance, d, now, sections, s.project, operation, s.owner, s.ttl);
    assert sections - {id} == sections;
    GrantKeepsLeases(instance, d, now, sections, s.project, operation, s.owner, s.ttl, id, s.stage);
  }

  lemma LeaseRefusedLeases(d: Durable, d1: Durable, m: Mem, k: KeyId, now: Time)
    requires LeasesOk(m.instance, d1.keys, now, m.sections) && !k.scope.LeaseScope?
    ensures LeaseAfter(d, now, LeaseRefused(d1, m, k, now))
  {
    FinishLeases(d1, k, Failed, Value("lease"), now);
    hide LeasesOk, FinishKey, SameLeases;
    SameLeasesOk(m.instance, d1.keys, FinishKey(d1, k, Failed, Value("lease"), now).keys, now, m.sections);
  }

  /** The lease just taken goes back; the others never notice. */
  lemma RowRefusedLeases(d: Durable, d1: Durable, d2: Durable, m: Mem, k: KeyId, id: Id, s: Section, now: Time)
    requires LeasesOk(m.instance, d2.keys, now, m.sections[id := s]) && NobodyOn(s.project, m.sections)
             && id !in m.sections && !k.scope.LeaseScope?
    ensures LeaseAfter(d, now, RowRefused(d1, d2, m, k, s.project, s.owner, now))
  {
    var sections := m.sections[id := s];
    OnlyOneOn(m.sections, id, s);
    hide LeasesOk, FinishKey, SameLeases, NobodyOn, AloneOn;
    OthersKeepLeases(m.instance, d2, now, sections, id);
    assert sections - {id} == m.sections;
    var d3 := ReleaseLease(d2, s.project, s.owner);
    hide ReleaseLease;
    FinishLeases(d3, k, Failed, Value("row"), now);
    SameLeasesOk(m.instance, d3.keys, FinishKey(d3, k, Failed, Value("row"), now).keys, now, m.sections);
  }

  lemma OpStartedLeases(d: Durable, d1: Durable, d2: Durable, m: Mem, now: Time, k: KeyId, id: Id, row: OpRow,
          s: Section, engine: Engine)
    requires LeasesOk(m.instance, d2.keys, now, m.sections[id := s]) && !k.scope.LeaseScope?
    ensures LeaseAfter(d, now, OpStarted(d1, d2, m, now, k, id, row, s, engine))
  {
    OpRowWritesLeases(d2, k, id, row, now);
    hide LeasesOk, SameLeases, OpRowWrites;
    var rest := OpRowWrites(d2, k, id, row, now);
    assert Last(d, [d1, d2] + rest) == Last(d2, rest);
    SameLeasesOk(m.instance, d2.keys, Last(d2, rest).keys, now, m.sections[id := s]);
  }

  /** A random id owns nothing yet. */
  lemma NewOwnerOwnsNothing(instance: nat, keys: Table, now: Time, sections: map<Id, Section>, id: Id, p: Project)
    requires LeasesOk(instance, keys, now, sections) && id !in sections
    ensures NobodyOwns(SectionOwner(instance, id), p, sections)
  {
    forall a | a in sections && sections[a].project == p ensures sections[a].owner != SectionOwner(instance, id) {
      assert OwnerOk(instance, a, sections[a]);
    }
  }

  lemma StartOpLeases(c: Config, d: Durable, m: Mem, now: Time, id: Id, kind: OpKind, p: Project, task: Id, key: string,
          engine: Engine)
    requires ValidConfig(c) && LeaseInv(d, m, now) && id !in m.sections
    ensures LeaseAfter(d, now, StartOp(c, d, m, now, id, kind, p, task, key, engine))
  {
    var k, fp, owner, operation := KeyId(OpScope(kind, p), key), OpPrint(kind, p, task), SectionOwner(m.instance, id),
        "persistent-" + KindText(kind);
    if m.stopping.None? && RequireReplayable(d.keys, k, fp).Absent? {
      var s := Section(p, owner, c.opTtl, now, Operation);
      assert OwnerOk(m.instance, id, s);
      hide LeasesOk, TakeLease, BeginKey, NobodyOwns, SameLeases, LeaseRefused, RowRefused, OpStarted, LeaseAfter,
           OwnerOk;
      var d1 := BeginKey(d, k, fp, now);
      BeginLeases(d, k, fp, now);
      SameLeasesOk(m.instance, d.keys, d1.keys, now, m.sections);
      var leased := TakeLease(d1, p, operation, owner, c.opTtl, now);
      if leased.None? {
        LeaseRefusedLeases(d, d1, m, k, now);
      } else {
        NewOwnerOwnsNothing(m.instance, d1.keys, now, m.sections, id, p);
        OpensAlone(m.instance, d1, now, m.sections, id, operation, s);
        if !Referenced(d, p, task) {
          RowRefusedLeases(d, d1, leased.value, m, k, id, s, now);
        } else {
          OpStartedLeases(d, d1, leased.value, m, now, k, id, OpRow(task, p, kind, OpRunning, false), s, engine);
        }
      }
    } else {
      hide LeasesOk;
    }
  }

  lemma OpensLeases(d: Durable, writes: seq<Durable>, m: Mem, now: Time, id: Id, s: Section)
    requires LeasesOk(m.instance, Last(d, writes).keys, now, m.sections[id := s])
    ensures LeaseAfter(d, now, Opens(writes, m, id, s))
  {
    hide LeasesOk;
  }

  lemma BeginJobKeyLeases(d: Durable, k: Option<KeyId>, fp: Fingerprint, now: Time)
    requires k.Some? ==> !k.value.scope.LeaseScope?
    ensures SameLeases(d.keys, BeginJobKey(d, k, fp, now).keys)
  {
    if k.Some? { BeginLeases(d, k.value, fp, now); }
  }

  lemma JobBeginLeases(c: Config, d: Durable, m: Mem, now: Time, id: Id, p: Project, command: string,
          attached: Option<Id>, key: Option<string>)
    requires LeaseInv(d, m, now) && id !in m.sections
    ensures LeaseAfter(d, now, JobBegin(c, d, m, now, id, p, command, attached, key))
  {
    var fp, owner := JobPrint(p, command, attached), SectionOwner(m.instance, id);
    var k := if key.None? then None else Some(KeyId(JobScope(p), key.value));
    if k.None? || RequireReplayable(d.keys, k.value, fp).Absent? {
      var s := Section(p, owner, c.jobTtl, now, JobOpening(attached, k));
      assert OwnerOk(m.instance, id, s);
      hide LeasesOk, TakeLease, BeginJobKey, NobodyOwns, SameLeases, FailJobKey, OwnerOk, Opens;
      var d1 := BeginJobKey(d, k, fp, now);
      BeginJobKeyLeases(d, k, fp, now);
      SameLeasesOk(m.instance, d.keys, d1.keys, now, m.sections);
      var leased := TakeLease(d1, p, "command:" + command, owner, c.jobTtl, now);
      if leased.None? {
        LetGoLeases(d, d1, m, k, now);
      } else {
        NewOwnerOwnsNothing(m.instance, d1.keys, now, m.sections, id, p);
        OpensAlone(m.instance, d1, now, m.sections, id, "command:" + command, s);
        OpensLeases(d, [d1, leased.value], m, now, id, s);
        hide LeaseAfter;
      }
    } else {
      hide LeasesOk;
    }
  }

  /** The owner text of a guarded call names its key, and nobody else has that key. */
  lemma NewGuardOwnsNothing(d: Durable, m: Mem, now: Time, k: KeyId)
    requires KeysInv(d, m) && LeaseInv(d, m, now) && GuardScope(k.scope) && k !in d.keys
    ensures NobodyOwns(GuardOwner(m.instance, GuardName(k.scope), k.key), k.scope.project, m.sections)
  {
    hide DKeys;
    forall a | a in m.sections && m.sections[a].project == k.scope.project
      ensures m.sections[a].owner != GuardOwner(m.instance, GuardName(k.scope), k.key)
    {
      assert OwnerOk(m.instance, a, m.sections[a]);
      if m.sections[a].stage.Guarding? { assert PendingOk(d.keys, d.begun, m.sections[a]); }
    }
  }

  lemma GuardBeginLeases(c: Config, d: Durable, m: Mem, now: Time, id: Id, k: KeyId, fp: Fingerprint)
    requires KeysInv(d, m) && LeaseInv(d, m, now) && id !in m.sections && GuardScope(k.scope)
    ensures LeaseAfter(d, now, GuardBegin(c, d, m, now, id, k, fp))
  {
    var p, owner := k.scope.project, GuardOwner(m.instance, GuardName(k.scope), k.key);
    if RequireReplayable(d.keys, k, fp).Absent? {
      var s := Section(p, owner, c.guardTtl, now, Guarding(k));
      assert OwnerOk(m.instance, id, s);
      NewGuardOwnsNothing(d, m, now, k);
      hide KeysInv, LeasesOk, TakeLease, BeginKey, BeginEffect, NobodyOwns, SameLeases, LeaseRefused, OwnerOk, Opens;
      var d1 := BeginKey(d, k, fp, now);
      BeginLeases(d, k, fp, now);
      SameLeasesOk(m.instance, d.keys, d1.keys, now, m.sections);
      var leased := TakeLease(d1, p, GuardLease(k.scope), owner, c.guardTtl, now);
      if leased.None? {
        LeaseRefusedLeases(d, d1, m, k, now);
      } else {
        OpensAlone(m.instance, d1, now, m.sections, id, GuardLease(k.scope), s);
        OpensLeases(d, [d1, leased.value, BeginEffect(leased.value, k)], m, now, id, s);
      }
      hide LeaseAfter;
    } else {
      hide KeysInv, LeasesOk;
    }
  }

  /** Ending a section releases its own lease and nobody else's. */
  lemma EndsLeases(d: Durable, d1: Durable, m: Mem, now: Time, a: Id)
    requires KeysInv(d, m) && LeaseInv(d, m, now) && a in m.sections && SameLeases(d.keys, d1.keys)
    ensures LeasesOk(m.instance, ReleaseLease(d1, m.sections[a].project, m.sections[a].owner).keys, now,
              m.sections - {a})
  {
    MutualExclusion(d, m, now);
    hide KeysInv, LeasesOk, SameLeases;
    SameLeasesOk(m.instance, d.keys, d1.keys, now, m.sections);
    OthersKeepLeases(m.instance, d1, now, m.sections, a);
  }

  lemma FinishOpLeases(d: Durable, m: Mem, now: Time, o: Id)
    requires KeysInv(d, m) && LeaseInv(d, m, now) && o in m.sections && o in m.engines && m.engines[o].Returned?
             && o in d.ops
    ensures LeaseAfter(d, now, FinishOp(d, m, o))
  {
    var d1 := SetOp(d, o, OpOutcome(m.engines[o].succeeded), m.engines[o].target);
    assert SameLeases(d.keys, d1.keys);
    hide KeysInv, LeaseInv, LeasesOk, ReleaseLease, SameLeases, SetOp;
    EndsLeases(d, d1, m, now, o);
  }

  lemma JobRefusedLeases(d: Durable, m: Mem, now: Time, j: Id)
    requires KeysInv(d, m) && LeaseInv(d, m, now) && j in m.sections && m.sections[j].stage.JobOpening?
    ensures LeaseAfter(d, now, JobRefused(d, m, now, j))
  {
    var s := m.sections[j];
    assert s.stage.jobKey.Some? ==> PendingOk(d.keys, d.begun, s);
    assert SameLeases(d.keys, d.keys);
    hide KeysInv, LeaseInv, LeasesOk, ReleaseLease, SameLeases, FailJobKey;
    EndsLeases(d, d, m, now, j);
    LetGoLeases(d, ReleaseLease(d, s.project, s.owner), m.(sections := m.sections - {j}), s.stage.jobKey, now);
  }

  lemma LetGoLeases(d: Durable, d1: Durable, m: Mem, key: Option<KeyId>, now: Time)
    requires LeasesOk(m.instance, d1.keys, now, m.sections) && (key.Some? ==> !key.value.scope.LeaseScope?)
    ensures LeaseAfter(d, now, Stretch([d1] + FailJobKey(d1, key, now), m))
  {
    var ws := [d1] + FailJobKey(d1, key, now);
    FailJobKeyLeases(d1, key, now);
    hide LeasesOk, SameLeases, FailJobKey;
    SameLeasesOk(m.instance, d1.keys, Last(d1, ws).keys, now, m.sections);
  }

  lemma JobAdmittedLeases(d: Durable, m: Mem, now: Time, j: Id)
    requires KeysInv(d, m) && LeaseInv(d, m, now) && j in m.sections && m.sections[j].stage.JobOpening?
    ensures LeaseAfter(d, now, JobAdmitted(d, m, now, j))
  {
    var s := m.sections[j];
    var d1, live := d.(jobs := d.jobs[j := JobRow(s.stage.attached, s.project, JobRunning)]),
        s.(stage := JobLive(false));
    assert s.stage.jobKey.Some? ==> PendingOk(d.keys, d.begun, s);
    StageKeepsLeases(m.instance, d.keys, now, m.sections, j, live);
    hide KeysInv, LeasesOk, JobKeyWrites, Opens;
    AdmittedLeases(d, d1, m, s.stage.jobKey, now, j, live);
  }

  lemma AdmittedLeases(d: Durable, d1: Durable, m: Mem, key: Option<KeyId>, now: Time, j: Id, s: Section)
    requires LeasesOk(m.instance, d1.keys, now, m.sections[j := s]) && (key.Some? ==> !key.value.scope.LeaseScope?)
    ensures LeaseAfter(d, now, Opens([d1] + JobKeyWrites(d1, key, j, now), m, j, s))
  {
    var ws := [d1] + JobKeyWrites(d1, key, j, now);
    JobKeyWritesLeases(d1, key, j, now);
    hide LeasesOk, SameLeases, JobKeyWrites;
    SameLeasesOk(m.instance, d1.keys, Last(d1, ws).keys, now, m.sections[j := s]);
    OpensLeases(d, ws, m, now, j, s);
  }

  lemma GuardEndLeases(d: Durable, m: Mem, now: Time, g: Id, result: Option<string>)
    requires KeysInv(d, m) && LeaseInv(d, m, now) && g in m.sections && m.sections[g].stage.Guarding?
    ensures LeaseAfter(d, now, GuardEnd(d, m, now, g, result))
  {
    var s := m.sections[g];
    assert PendingOk(d.keys, d.begun, s);
    hide KeysInv, LeaseInv, LeasesOk, ReleaseLease, FinishKey, SameLeases;
    var status, value := if result.Some? then Completed else Failed, if result.Some? then Value(result.value)
      else Value("effect");
    FinishLeases(d, s.stage.key, status, value, now);
    EndsLeases(d, FinishKey(d, s.stage.key, status, value, now), m, now, g);
  }

  lemma RenewTickLeases(c: Config, d: Durable, m: Mem, now: Time, o: Id)
    requires ValidConfig(c) && KeysInv(d, m) && LeaseInv(d, m, now) && o in m.sections && m.sections[o].stage.Operation?
    ensures LeaseAfter(d, now, RenewTick(c, d, m, now, o))
  {
    var s := m.sections[o];
    MutualExclusion(d, m, now);
    assert OwnerOk(m.instance, o, s);
    hide KeysInv, LeasesOk, Acquire, GetLease;
    if Renew(d.keys, s.project, s.owner, c.opTtl, now).Some? {
      GrantKeepsLeases(m.instance, d, now, m.sections, s.project, GetLease(d.keys, s.project).value.operation, s.owner,
          c.opTtl, o, Operation);
      assert s.(since := now, ttl := c.opTtl) == Section(s.project, s.owner, c.opTtl, now, Operation);
    }
  }

  /** A renewal of a live section always goes through. */
  lemma RenewalSucceeds(c: Config, d: Durable, m: Mem, now: Time, o: Id)
    requires ValidConfig(c) && LeaseInv(d, m, now) && o in m.sections && m.sections[o].stage.Operation?
    ensures Renew(d.keys, m.sections[o].project, m.sections[o].owner, c.opTtl, now).Some?
  {
    assert HoldsLease(d.keys, now, m.sections[o]);
  }

  lemma JobExitLeases(d: Durable, m: Mem, now: Time, j: Id, exitedCleanly: bool)
    requires LeaseInv(d, m, now) && j in m.sections && m.sections[j].stage.JobLive? && j in d.jobs
    ensures LeaseAfter(d, now, JobExit(d, m, j, exitedCleanly))
  {
    hide LeasesOk, Opens, JobOutcome;
    var s := m.sections[j].(stage := JobSettled);
    StageKeepsLeases(m.instance, d.keys, now, m.sections, j, s);
    OpensLeases(d, [SetJob(d, j, JobOutcome(m.sections[j].stage.aborted, exitedCleanly))], m, now, j, s);
  }

  lemma AbortLeases(d: Durable, m: Mem, now: Time, j: Id)
    requires LeaseInv(d, m, now)
    ensures LeasesOk(m.instance, d.keys, now, Abort(m, j).sections) && Abort(m, j).instance == m.instance
  {
    hide LeasesOk;
    if j in m.sections && m.sections[j].stage.JobLive? {
      StageKeepsLeases(m.instance, d.keys, now, m.sections, j, m.sections[j].(stage := JobLive(true)));
    }
  }

  lemma QuietLeases(d: Durable, m: Mem, now: Time, id: Id, t: Id)
    requires LeaseInv(d, m, now)
    ensures LeaseAfter(d, now, Shutdown(m)) && LeaseAfter(d, now, JobCancel(d, m, t))
            && LeaseAfter(d, now, RequestCancellation(d, m, t))
    ensures LeaseAfter(d, now, CancelBegin(d, m, id, t))
  {
    hide LeasesOk, Abort, BlockingOp;
    AbortLeases(d, m, now, t);
    if RunningJob(d.jobs, t) { AbortLeases(d, m, now, AttachedJob(d.jobs, t)); }
  }

  lemma OpLeases(c: Config, d: Durable, m: Mem, now: Time, l: OpLabel)
    requires ValidConfig(c) && KeysInv(d, m) && LeaseInv(d, m, now) && OpEnabled(d, m, l)
    ensures LeaseAfter(d, now, PerformOp(c, d, m, now, l))
  {
    hide KeysInv, LeaseInv, LeaseAfter, StartOp, FinishOp, RenewTick, RequestCancellation, Shutdown, CancelBegin;
    match l
    case StartOperation(id, kind, p, t, key, plan) =>
      StartOpLeases(c, d, m, now, id, kind, p, t, key, EngineFor(kind, t, plan));
    case FinishOperation(o) => FinishOpLeases(d, m, now, o);
    case RenewLease(o) => RenewTickLeases(c, d, m, now, o);
    case RequestCancel(o) => QuietLeases(d, m, now, 0, o);
    case ShutDown => QuietLeases(d, m, now, 0, 0);
    case BeginCancel(id, t) => QuietLeases(d, m, now, id, t);
  }

  lemma JobLeases(c: Config, d: Durable, m: Mem, now: Time, l: JobLabel)
    requires ValidConfig(c) && KeysInv(d, m) && LeaseInv(d, m, now) && JobEnabled(d, m, l)
    ensures LeaseAfter(d, now, PerformJob(c, d, m, now, l))
  {
    hide KeysInv, LeaseInv, LeaseAfter, JobBegin, JobAdmitted, JobRefused, JobExit, JobCancel, GuardBegin, GuardEnd,
         MayAttach;
    match l
    case BeginJob(id, p, command, attached, key) => JobBeginLeases(c, d, m, now, id, p, command, attached, key);
    case AttachJob(j, filesOpen) => JobRefusedLeases(d, m, now, j); JobAdmittedLeases(d, m, now, j);
    case ExitJob(j, clean) => JobExitLeases(d, m, now, j, clean);
    case CleanUpJob(j) => JobCleanupLeases(d, m, now, j);
    case CancelJob(j) => QuietLeases(d, m, now, 0, j);
    case BeginGuarded(id, k, fp) => GuardBeginLeases(c, d, m, now, id, k, fp);
    case EndGuarded(g, result) => GuardEndLeases(d, m, now, g, result);
  }

  lemma JobCleanupLeases(d: Durable, m: Mem, now: Time, j: Id)
    requires KeysInv(d, m) && LeaseInv(d, m, now) && j in m.sections
    ensures LeaseAfter(d, now, JobCleanup(d, m, j))
  {
    assert SameLeases(d.keys, d.keys);
    hide KeysInv, LeaseInv, LeasesOk, ReleaseLease, SameLeases;
    EndsLeases(d, d, m, now, j);
  }

  lemma EngineLeases(d: Durable, m: Mem, now: Time, s: Stretch)
    requires LeaseInv(d, m, now) && EngineOnly(d, m, s)
    ensures LeaseAfter(d, now, s)
  {
    hide LeasesOk;
    if s.writes != [] { assert SameWork(d, Last(d, s.writes)); }
  }

  lemma LeaseStep(c: Config, d: Durable, m: Mem, now: Time, l: Label)
    requires ValidConfig(c) && KeysInv(d, m) && LeaseInv(d, m, now) && Enabled(d, m, l)
    requires EngineLabel(l) ==> EngineOnly(d, m, Perform(c, d, m, now, l))
    ensures LeaseAfter(d, now, Perform(c, d, m, now, l))
  {
    hide KeysInv, LeaseInv, PerformOp, PerformJob, OpEnabled, JobEnabled, LeaseAfter, EngineOnly;
    match l
    case OnOp(o) => OpLeases(c, d, m, now, o);
    case OnJob(j) => JobLeases(c, d, m, now, j);
    case _ => EngineLeases(d, m, now, Perform(c, d, m, now, l));
  }
}
