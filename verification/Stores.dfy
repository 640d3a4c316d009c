/** The two stores that share the key table, as the classes the agent passes around. */
module Stores {
  import opened Prelude
  import opened KeyTable
  import opened Store
  import opened Runtime
  import opened Database
  import opened Agent

  class IdempotencyStore {
    const db: StateDb

    constructor (db: StateDb)
      ensures this.db == db
    {
      this.db := db;
    }

    method Get(k: KeyId) returns (r: Option<Row>)
      ensures r == if k in db.keys then Some(db.keys[k]) else None
    {
      r := if k in db.keys then Some(db.keys[k]) else None;
    }

    /** Absent is null; Refused is each of the three ConflictErrors. */
    method RequireReplayable(k: KeyId, fp: Fingerprint) returns (r: Replay)
      ensures r == KeyTable.RequireReplayable(db.keys, k, fp)
      ensures r.Absent? <==> k !in db.keys
      ensures forall answer :: r == Replayed(answer) <==>
                (k in db.keys && db.keys[k] == Row(fp, Completed, answer, db.keys[k].updated))
    {
      var record := Get(k);
      if record.None? { return Absent; }
      if record.value.fingerprint != fp { return Refused; }
      if record.value.status.InProgress? { return Refused; }
      if record.value.status.Failed? { return Refused; }
      return Replayed(record.value.result);
    }

    method Begin(k: KeyId, fp: Fingerprint, now: Time) returns (ok: bool, created: bool)
      modifies db
      ensures ok <==> KeyTable.Begin(old(db.keys), k, fp, now).Some?
      ensures created <==> k !in old(db.keys)
      ensures created ==> db.Wrote([BeginKey(old(db.Contents()), k, fp, now)])
      ensures !created ==> db.Wrote([])
    {
      var existing := Get(k);
      if existing.Some? { return existing.value.fingerprint == fp, false; }
      db.PutKey(k, Row(fp, InProgress, NoResult, now));
      return true, true;
    }

    method Complete(k: KeyId, result: Payload, now: Time) returns (ok: bool)
      modifies db
      ensures ok <==> KeyTable.Finish(old(db.keys), k, Completed, result, now).Some?
      ensures db.Wrote(if ok then [FinishKey(old(db.Contents()), k, Completed, result, now)] else [])
    {
      ok := Finish(k, Completed, result, now);
    }

    method Fail(k: KeyId, result: Payload, now: Time) returns (ok: bool)
      modifies db
      ensures ok <==> KeyTable.Finish(old(db.keys), k, Failed, result, now).Some?
      ensures db.Wrote(if ok then [FinishKey(old(db.Contents()), k, Failed, result, now)] else [])
    {
      ok := Finish(k, Failed, result, now);
    }

    method Finish(k: KeyId, status: KeyStatus, result: Payload, now: Time) returns (ok: bool)
      modifies db
      ensures ok <==> KeyTable.Finish(old(db.keys), k, status, result, now).Some?
      ensures db.Wrote(if ok then [FinishKey(old(db.Contents()), k, status, result, now)] else [])
    {
      var current := Get(k);
      if current.None? { return false; }
      if !current.value.status.InProgress? && current.value.status != status { return false; }
      db.PutKey(k, current.value.(status := status, result := result, updated := now));
      return true;
    }

    /** The catch blocks of the clients: a key still in progress fails, any other is left alone. */
    method FailIfInProgress(k: KeyId, result: Payload, now: Time)
      modifies db
      ensures k in old(db.keys) && old(db.keys)[k].status.InProgress? ==>
                db.Wrote([FinishKey(old(db.Contents()), k, Failed, result, now)])
      ensures !(k in old(db.keys) && old(db.keys)[k].status.InProgress?) ==> db.Wrote([])
    {
      var record := Get(k);
      if record.Some? && record.value.status.InProgress? {
        var _ := Fail(k, result, now);
      }
    }
  }

  class OperationLeaseStore {
    const db: StateDb

    constructor (db: StateDb)
      ensures this.db == db
    {
      this.db := db;
    }

    method Get(p: Project) returns (lease: Option<Lease>)
      ensures lease == GetLease(db.keys, p)
    {
      if LeaseKey(p) !in db.keys { return None; }
      return ParseLease(db.keys[LeaseKey(p)]);
    }

    /** False is the ValidationError of a bad TTL or the ConflictError of another live lease. */
    method Acquire(p: Project, operation: string, owner: Owner, ttl: int, now: Time) returns (ok: bool)
      modifies db
      ensures ok <==> TakeLease(old(db.Contents()), p, operation, owner, ttl, now).Some?
      ensures ok ==> db.Wrote([TakeLease(old(db.Contents()), p, operation, owner, ttl, now).value])
      ensures !ok ==> db.Wrote([])
    {
      if !ValidTtl(ttl) { return false; }
      var existing := Get(p);
      if existing.Some? && existing.value.expires > now && existing.value.owner != owner { return false; }
      db.PutKey(LeaseKey(p), LeaseRow(operation, owner, ttl, now));
      return true;
    }

    method Renew(p: Project, owner: Owner, ttl: int, now: Time) returns (ok: bool)
      modifies db
      ensures ok <==> KeyTable.Renew(old(db.keys), p, owner, ttl, now).Some?
      ensures ok ==> db.Wrote([SetKeys(old(db.Contents()), KeyTable.Renew(old(db.keys), p, owner, ttl, now).value)])
      ensures !ok ==> db.Wrote([])
    {
      var existing := Get(p);
      if existing.None? || existing.value.owner != owner { return false; }
      ok := Acquire(p, existing.value.operation, owner, ttl, now);
    }

    method Release(p: Project, owner: Owner) returns (released: bool)
      modifies db
      ensures released <==> Owns(old(db.keys), p, owner)
      ensures db.Wrote([ReleaseLease(old(db.Contents()), p, owner)])
    {
      var changes := db.DeleteKey(LeaseKey(p), OwnerPrint(owner));
      released := changes > 0;
    }

    /** Every lease that is expired or unreadable goes, one row a statement, in any order; nothing
        else does, and the result counts them. Each statement is one `BootReclaim` of the agent. */
    method ReclaimExpired(now: Time) returns (reclaimed: nat)
      modifies db
      ensures db.Contents() == SetKeys(old(db.Contents()), Reclaim(old(db.keys), now))
      ensures reclaimed == |old(db.keys)| - |db.keys|
      ensures old(db.journal) <= db.journal && |db.journal| == |old(db.journal)| + reclaimed
      ensures Reclaims(old(db.Contents()), db.journal[|old(db.journal)|..], now)
      ensures db.Contents() == Last(old(db.Contents()), db.journal[|old(db.journal)|..])
    {
      var rows := set k | k in db.keys && k.scope.LeaseScope?;
      reclaimed := 0;
      ghost var before := db.Contents();
      ghost var done: seq<Durable> := [];
      NothingSwept(before.keys, rows, now);
      assert Reclaims(before, done, now);
      hide KeyTable.Reclaimable, Reclaims, AfterPart, Swept, Reclaim;
      while rows != {}
        invariant rows <= before.keys.Keys && forall k | k in rows :: k.scope.LeaseScope?
        invariant db.Contents() == SetKeys(before, Swept(before.keys, rows, now)) == Last(before, done)
        invariant reclaimed == |before.keys| - |db.keys| == |done|
        invariant db.journal == old(db.journal) + done
        invariant Reclaims(before, done, now)
        decreases |rows|
      {
        var k :| k in rows;
        var row := db.keys[k];
        SweepOne(before.keys, rows, now, k);
        rows := rows - {k};
        var expired := Expired(row, now);
        if expired {
          var changes := DeleteRow(k, row.fingerprint, before, done, now);
          reclaimed := reclaimed + changes;
          done := done + [db.Contents()];
        }
      }
      SweepDone(before.keys, now);
      assert db.journal[|old(db.journal)|..] == done;
    }

    /** The statement inside the loop, after the statements `done` since `before`. */
    method DeleteRow(k: KeyId, fp: Fingerprint, ghost before: Durable, ghost done: seq<Durable>, now: Time)
      returns (changes: nat)
      requires k in db.keys && db.keys[k].fingerprint == fp && k.scope.LeaseScope?
               && KeyTable.Reclaimable(db.keys[k], now)
      requires Reclaims(before, done, now) && db.Contents() == Last(before, done)
      modifies db
      ensures changes == 1 && Reclaims(before, done + [db.Contents()], now)
      ensures db.Contents() == SetKeys(old(db.Contents()), old(db.keys) - {k})
      ensures forall log :: old(db.journal) == log + done ==> db.journal == log + (done + [db.Contents()])
    {
      hide Reclaims, KeyTable.Reclaimable;
      changes := db.DeleteKey(k, fp);
      ReclaimsOneMore(before, done, now, k, db.Contents());
      forall log | old(db.journal) == log + done ensures db.journal == log + (done + [db.Contents()]) {
        Then(log, before, done, [db.Contents()]);
      }
    }

    /** The test inside the loop: no readable lease, or one that has run out. */
    method Expired(row: Row, now: Time) returns (yes: bool)
      ensures yes == KeyTable.Reclaimable(row, now)
    {
      var lease := ParseLease(row);
      return lease.None? || lease.value.expires <= now;
    }
  }

  /** The table with `rows` still to be looked at. */
  ghost function Swept(t: Table, rows: set<KeyId>, now: Time): Table {
    map k | k in t && (k in rows || !(k.scope.LeaseScope? && Reclaimable(t[k], now))) :: t[k]
  }

  lemma NothingSwept(t: Table, rows: set<KeyId>, now: Time)
    requires rows == set k | k in t && k.scope.LeaseScope?
    ensures Swept(t, rows, now) == t
  {}

  lemma SweepOne(t: Table, rows: set<KeyId>, now: Time, k: KeyId)
    requires k in rows && k in t && k.scope.LeaseScope?
    ensures k in Swept(t, rows, now) && Swept(t, rows, now)[k] == t[k]
    ensures Swept(t, rows - {k}, now) == if Reclaimable(t[k], now) then Swept(t, rows, now) - {k}
            else Swept(t, rows, now)
    ensures Reclaimable(t[k], now) ==> |Swept(t, rows - {k}, now)| == |Swept(t, rows, now)| - 1
  {
    hide Reclaimable;
    if Reclaimable(t[k], now) {
      assert Swept(t, rows - {k}, now) == Swept(t, rows, now) - {k};
      assert Swept(t, rows, now) == (Swept(t, rows, now) - {k})[k := t[k]];
    }
  }

  lemma SweepDone(t: Table, now: Time)
    ensures Swept(t, {}, now) == Reclaim(t, now)
  {}

  /** A run of reclaim statements: each deletes one reclaimable lease. */
  ghost predicate Reclaims(d: Durable, writes: seq<Durable>, now: Time)
    decreases |writes|
  {
    writes == [] ||
    ((exists p :: PartFires(d, now, 0, BootReclaim(p)) && writes[0] == AfterPart(d, BootReclaim(p)))
     && Reclaims(writes[0], writes[1..], now))
  }

  lemma {:induction false} ReclaimsOneMore(d: Durable, writes: seq<Durable>, now: Time, k: KeyId, d': Durable)
    requires Reclaims(d, writes, now) && k.scope.LeaseScope?
    requires k in Last(d, writes).keys && Reclaimable(Last(d, writes).keys[k], now)
    requires d' == SetKeys(Last(d, writes), Last(d, writes).keys - {k})
    ensures Reclaims(d, writes + [d'], now)
    decreases |writes|
  {
    if writes == [] {
      assert k == LeaseKey(k.key) && PartFires(d, now, 0, BootReclaim(k.key));
      assert ([] + [d'])[1..] == [];
    } else {
      ReclaimsOneMore(writes[0], writes[1..], now, k, d');
      assert (writes + [d'])[1..] == writes[1..] + [d'];
    }
  }
}
