/** `guardedWrite` of the database service and `restart` of the service manager: one pattern. */
module Guards {
  import opened Prelude
  import opened KeyTable
  import opened Store
  import opened Runtime
  import opened Database
  import opened Stores
  import opened Conditions

  datatype GuardReply = Runs | Replays(result: Payload) | Denied

  ghost predicate Guarded(sections: map<Id, Section>, pending: map<Id, Section>) {
    && (forall g :: g in pending <==> g in sections && sections[g].stage.Guarding?)
    && (forall g | g in pending :: pending[g] == sections[g])
  }

  lemma GuardedOneMore(sections: map<Id, Section>, pending: map<Id, Section>, g: Id, s: Section)
    requires Guarded(sections, pending) && s.stage.Guarding?
    ensures Guarded(sections[g := s], pending[g := s])
  {}

  lemma GuardedOneLess(sections: map<Id, Section>, pending: map<Id, Section>, g: Id)
    requires Guarded(sections, pending)
    ensures Guarded(sections - {g}, pending - {g})
  {}

  lemma GuardBeginUnfolds(c: Config, d: Durable, m: Mem, now: Time, id: Id, k: KeyId, fp: Fingerprint)
    requires GuardScope(k.scope) && k !in d.keys
    ensures
      var owner := GuardOwner(m.instance, GuardName(k.scope), k.key);
      var d1 := BeginKey(d, k, fp, now);
      var leased := TakeLease(d1, k.scope.project, GuardLease(k.scope), owner, c.guardTtl, now);
      GuardBegin(c, d, m, now, id, k, fp) ==
        if leased.None? then LeaseRefused(d1, m, k, now)
        else Opens([d1, leased.value, BeginEffect(leased.value, k)], m, id,
            Section(k.scope.project, owner, c.guardTtl, now, Guarding(k)))
  {
    assert RequireReplayable(d.keys, k, fp).Absent?;
  }

  class GuardedMutations {
    const db: StateDb
    const store: IdempotencyStore
    const leases: OperationLeaseStore
    const mutationOwner: nat
    const leaseTtlMs: int
    /** The calls suspended at the await of their effect. */
    var pending: map<Id, Section>

    ghost predicate Wired() { store.db == db && leases.db == db }

    ghost predicate Shows(m: Mem)
      reads this
    {
      m.instance == mutationOwner && Guarded(m.sections, pending)
    }

    constructor (db: StateDb, store: IdempotencyStore, leases: OperationLeaseStore, mutationOwner: nat, leaseTtlMs: int)
      requires store.db == db && leases.db == db
      ensures Wired() && Shows(Boot(mutationOwner))
      ensures this.db == db && this.leaseTtlMs == leaseTtlMs
    {
      this.db, this.store, this.leases := db, store, leases;
      this.mutationOwner, this.leaseTtlMs := mutationOwner, leaseTtlMs;
      pending := map[];
    }

    /** Up to the await of the effect. */
    method Begin(ghost c: Config, ghost m: Mem, now: Time, id: Id, k: KeyId, fp: Fingerprint)
      returns (reply: GuardReply)
      requires Wired() && Shows(m) && leaseTtlMs == c.guardTtl && id !in m.sections && GuardScope(k.scope)
      modifies this, db
      ensures db.Wrote(GuardBegin(c, old(db.Contents()), m, now, id, k, fp).writes)
      ensures Shows(GuardBegin(c, old(db.Contents()), m, now, id, k, fp).mem)
      ensures reply.Runs? <==> id in pending
      ensures reply.Runs? <==>
                var owner := GuardOwner(mutationOwner, GuardName(k.scope), k.key);
                MayBegin(old(db.keys), k, k.scope.project, owner, leaseTtlMs, now)
      ensures reply.Replays? <==> KeyTable.RequireReplayable(old(db.keys), k, fp).Replayed?
      ensures reply.Replays? ==> reply.result == old(db.keys)[k].result && db.Contents() == old(db.Contents())
    {
      GuardBeginIff(c, db.Contents(), m, now, id, k, fp);
      hide Leasable, MayBegin;
      var replay := store.RequireReplayable(k, fp);
      if replay.Refused? { return Denied; }
      if replay.Replayed? { return Replays(replay.result); }
      var runs := BeginAbsent(c, m, now, id, k, fp);
      return if runs then Runs else Denied;
    }

    method BeginAbsent(ghost c: Config, ghost m: Mem, now: Time, id: Id, k: KeyId, fp: Fingerprint) returns (runs: bool)
      requires Wired() && Shows(m) && leaseTtlMs == c.guardTtl && id !in m.sections && GuardScope(k.scope)
               && k !in db.keys
      modifies this, db
      ensures db.Wrote(GuardBegin(c, old(db.Contents()), m, now, id, k, fp).writes)
      ensures Shows(GuardBegin(c, old(db.Contents()), m, now, id, k, fp).mem)
      ensures runs <==> id in pending
    {
      var owner := GuardOwner(mutationOwner, GuardName(k.scope), k.key);
      var s := Section(k.scope.project, owner, leaseTtlMs, now, Guarding(k));
      GuardedOneMore(m.sections, pending, id, s);
      GuardBeginUnfolds(c, db.Contents(), m, now, id, k, fp);
      hide Guarded, GuardBegin, KeyTable.RequireReplayable, TakeLease, FinishKey, BeginEffect;
      var _, _ := store.Begin(k, fp, now);
      var lease := leases.Acquire(k.scope.project, GuardLease(k.scope), owner, leaseTtlMs, now);
      if !lease {
        store.FailIfInProgress(k, Value("lease"), now);
        return false;
      }
      db.EffectBegins(k);
      pending := pending[id := s];
      return true;
    }

    /** The rest: None is the effect's exception. The release is in the `finally`. */
    method End(ghost m: Mem, now: Time, g: Id, result: Option<string>)
      requires Wired() && Shows(m) && g in pending
      requires var k := pending[g].stage.key;
               k in db.keys && db.keys[k].status.InProgress? && !k.scope.LeaseScope?
      modifies this, db
      ensures db.Wrote(GuardEnd(old(db.Contents()), m, now, g, result).writes)
      ensures Shows(GuardEnd(old(db.Contents()), m, now, g, result).mem)
      ensures var k := old(pending)[g].stage.key;
              && k in db.keys
              && (if result.Some? then db.keys[k].status == Completed && db.keys[k].result == Value(result.value)
                  else db.keys[k].status == Failed)
    {
      var s := pending[g];
      GuardEndIff(db.Contents(), m, now, g, result, db.keys[s.stage.key].fingerprint, "");
      GuardedOneLess(m.sections, pending, g);
      hide Guarded;
      db.EffectEnds(s.stage.key, result);
      hide EndEffect;
      SettleKey(s.stage.key, result, now);
      hide FinishKey;
      var _ := leases.Release(s.project, s.owner);
      hide ReleaseLease;
      pending := pending - {g};
    }

    method SettleKey(k: KeyId, result: Option<string>, now: Time)
      requires Wired() && k in db.keys && db.keys[k].status.InProgress?
      modifies db
      ensures result.Some? ==> db.Wrote([FinishKey(old(db.Contents()), k, Completed, Value(result.value), now)])
      ensures result.None? ==> db.Wrote([FinishKey(old(db.Contents()), k, Failed, Value("effect"), now)])
    {
      if result.Some? {
        var _ := store.Complete(k, Value(result.value), now);
      } else {
        store.FailIfInProgress(k, Value("effect"), now);
      }
    }
  }
}
