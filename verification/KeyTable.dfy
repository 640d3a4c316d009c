/** The `idempotency_keys` table and the two stores that share it: idempotency records and
    project leases. A lease is a row of scope `operation-lease` whose key is the project, whose
    fingerprint is the owner and whose result column holds the expiry.

    The closing part proves that the one table refines two maps that do not know of each other. */
module KeyTable {
  import opened Prelude

  type Time = int
  type Project = string
  type Id = nat

  datatype OpKind = Validation | Deployment | Rollback | Recovery

  /** The scopes the four clients of the table build, and the one reserved for leases. */
  datatype Scope =
    | LeaseScope
    | OpScope(kind: OpKind, project: Project)
    | JobScope(project: Project)
    | WriteScope(project: Project, operation: string)
    | RestartScope(project: Project)

  datatype KeyId = KeyId(scope: Scope, key: string)

  /** `${instanceId}:${operationId}` for operations and jobs; `${instanceId}:${operation}:${key}`
      for guarded database writes and service restarts. */
  datatype Owner =
    | SectionOwner(instance: nat, id: Id)
    | GuardOwner(instance: nat, operation: string, key: string)

  /** Fingerprints are digests of canonical text, hence injective in what they digest. */
  datatype Fingerprint =
    | OpPrint(kind: OpKind, project: Project, task: Id)
    | JobPrint(project: Project, command: string, attached: Option<Id>)
    | TextPrint(text: string)
    | OwnerPrint(owner: Owner)

  datatype KeyStatus = InProgress | Completed | Failed

  datatype Payload =
    | NoResult
    | LeaseData(operation: string, acquired: Time, expires: Time)
    | OpRef(op: Id)
    | JobRef(job: Id)
    | Value(text: string)

  datatype Row = Row(fingerprint: Fingerprint, status: KeyStatus, result: Payload, updated: Time)
  type Table = map<KeyId, Row>

  // ---------------------------------------------------------------- leases

  datatype Lease = Lease(operation: string, owner: Owner, acquired: Time, expires: Time)

  function LeaseKey(p: Project): KeyId { KeyId(LeaseScope, p) }

  function ParseLease(r: Row): Option<Lease> {
    if r.result.LeaseData? && r.fingerprint.OwnerPrint?
    then Some(Lease(r.result.operation, r.fingerprint.owner, r.result.acquired, r.result.expires))
    else None
  }

  function GetLease(t: Table, p: Project): Option<Lease> {
    if LeaseKey(p) in t then ParseLease(t[LeaseKey(p)]) else None
  }

  predicate ValidTtl(ttl: int) { 1_000 <= ttl <= 86_400_000 }

  function LeaseRow(operation: string, owner: Owner, ttl: int, now: Time): Row {
    Row(OwnerPrint(owner), InProgress, LeaseData(operation, now, now + ttl), now)
  }

  /** None is the error path: a bad TTL, or a live lease of another owner. */
  function Acquire(t: Table, p: Project, operation: string, owner: Owner, ttl: int, now: Time): Option<Table> {
    var existing := GetLease(t, p);
    if !ValidTtl(ttl) then None
    else if existing.Some? && existing.value.expires > now && existing.value.owner != owner then None
    else Some(t[LeaseKey(p) := LeaseRow(operation, owner, ttl, now)])
  }

  /** Nobody else holds a live lease on the project, and the TTL is within its bounds. */
  predicate Leasable(t: Table, p: Project, owner: Owner, ttl: int, now: Time) {
    && 1_000 <= ttl <= 86_400_000
    && (LeaseKey(p) in t ==>
          var row := t[LeaseKey(p)];
          row.result.LeaseData? && row.fingerprint.OwnerPrint? && now < row.result.expires ==>
            row.fingerprint.owner == owner)
  }

  lemma AcquireIff(t: Table, p: Project, operation: string, owner: Owner, ttl: int, now: Time)
    ensures Acquire(t, p, operation, owner, ttl, now).Some? <==> Leasable(t, p, owner, ttl, now)
  {}

  function Renew(t: Table, p: Project, owner: Owner, ttl: int, now: Time): Option<Table> {
    var existing := GetLease(t, p);
    if existing.None? || existing.value.owner != owner then None
    else Acquire(t, p, existing.value.operation, owner, ttl, now)
  }

  predicate Owns(t: Table, p: Project, owner: Owner) {
    LeaseKey(p) in t && t[LeaseKey(p)].fingerprint == OwnerPrint(owner)
  }

  function Release(t: Table, p: Project, owner: Owner): Table {
    if Owns(t, p, owner) then t - {LeaseKey(p)} else t
  }

  predicate Reclaimable(r: Row, now: Time) {
    var lease := ParseLease(r);
    lease.None? || lease.value.expires <= now
  }

  /** The rows `reclaimExpired` leaves: everything but the expired or unreadable leases. */
  function Reclaim(t: Table, now: Time): Table {
    map k | k in t && !(k.scope.LeaseScope? && Reclaimable(t[k], now)) :: t[k]
  }

  // ---------------------------------------------------------------- idempotency

  datatype Replay = Absent | Replayed(result: Payload) | Refused

  function RequireReplayable(t: Table, k: KeyId, fp: Fingerprint): Replay {
    if k !in t then Absent
    else if t[k].fingerprint != fp then Refused
    else if t[k].status.Completed? then Replayed(t[k].result)
    else Refused
  }

  /** None when the key exists with another fingerprint; an existing equal row is left alone. */
  function Begin(t: Table, k: KeyId, fp: Fingerprint, now: Time): Option<Table> {
    if k !in t then Some(t[k := Row(fp, InProgress, NoResult, now)])
    else if t[k].fingerprint != fp then None
    else Some(t)
  }

  /** None when the key is missing or already terminal with another status. */
  function Finish(t: Table, k: KeyId, status: KeyStatus, result: Payload, now: Time): Option<Table> {
    if k !in t then None
    else if !t[k].status.InProgress? && t[k].status != status then None
    else Some(t[k := t[k].(status := status, result := result, updated := now)])
  }

  /** Retention: rows that are no longer in progress and older than the cutoff go. */
  predicate Prunable(r: Row, cutoff: Time) { !r.status.InProgress? && r.updated < cutoff }

  function Prune(t: Table, cutoff: Time): Table {
    map k | k in t && !Prunable(t[k], cutoff) :: t[k]
  }

  // ---------------------------------------------------------------- one table, two maps

  /** Every lease row is readable and in progress. */
  ghost predicate WellFormed(t: Table) {
    forall k | k in t && k.scope.LeaseScope? ::
      t[k].status.InProgress? && t[k].result.LeaseData? && t[k].fingerprint.OwnerPrint?
  }

  datatype Action =
    | DoAcquire(project: Project, operation: string, owner: Owner, ttl: int)
    | DoRenew(project: Project, owner: Owner, ttl: int)
    | DoRelease(project: Project, owner: Owner)
    | DoReclaim
    | DoBegin(id: ClientKey, fp: Fingerprint)
    | DoFinish(id: ClientKey, status: KeyStatus, result: Payload)
    | DoPrune(cutoff: Time)

  type ClientKey = k: KeyId | !k.scope.LeaseScope? witness KeyId(JobScope(""), "")

  function OrSame<T>(o: Option<T>, otherwise: T): T { if o.Some? then o.value else otherwise }

  function Apply(t: Table, a: Action, now: Time): Table {
    match a
    case DoAcquire(p, operation, owner, ttl) => OrSame(Acquire(t, p, operation, owner, ttl, now), t)
    case DoRenew(p, owner, ttl) => OrSame(Renew(t, p, owner, ttl, now), t)
    case DoRelease(p, owner) => Release(t, p, owner)
    case DoReclaim => Reclaim(t, now)
    case DoBegin(k, fp) => OrSame(Begin(t, k, fp, now), t)
    case DoFinish(k, status, result) => OrSame(Finish(t, k, status, result, now), t)
    case DoPrune(cutoff) => Prune(t, cutoff)
  }

  type LeaseMap = map<Project, Lease>
  type RecordMap = map<KeyId, Row>

  /** The lease map on its own: no idempotency record, no retention. */
  ghost function StepLeases(m: LeaseMap, a: Action, now: Time): LeaseMap {
    match a
    case DoAcquire(p, operation, owner, ttl) =>
      if ValidTtl(ttl) && (p in m && m[p].expires > now ==> m[p].owner == owner)
      then m[p := Lease(operation, owner, now, now + ttl)] else m
    case DoRenew(p, owner, ttl) =>
      if ValidTtl(ttl) && p in m && m[p].owner == owner
      then m[p := Lease(m[p].operation, owner, now, now + ttl)] else m
    case DoRelease(p, owner) => if p in m && m[p].owner == owner then m - {p} else m
    case DoReclaim => map p | p in m && m[p].expires > now :: m[p]
    case _ => m
  }

  /** The idempotency map on its own: no lease. */
  ghost function StepRecords(m: RecordMap, a: Action, now: Time): RecordMap {
    match a
    case DoBegin(k, fp) => if k in m then m else m[k := Row(fp, InProgress, NoResult, now)]
    case DoFinish(k, status, result) =>
      if k in m && (m[k].status.InProgress? || m[k].status == status)
      then m[k := Row(m[k].fingerprint, status, result, now)] else m
    case DoPrune(cutoff) => map k | k in m && (m[k].status.InProgress? || m[k].updated >= cutoff) :: m[k]
    case _ => m
  }

  ghost function LeaseView(t: Table): LeaseMap {
    map k: KeyId | k in t && k.scope.LeaseScope? && ParseLease(t[k]).Some? :: k.key := ParseLease(t[k]).value
  }

  ghost function RecordView(t: Table): RecordMap {
    map k | k in t && !k.scope.LeaseScope? :: t[k]
  }

  lemma LeaseViewAt(t: Table, p: Project)
    ensures p in LeaseView(t) <==> GetLease(t, p).Some?
    ensures p in LeaseView(t) ==> LeaseView(t)[p] == GetLease(t, p).value
  {
    if LeaseKey(p) in t && ParseLease(t[LeaseKey(p)]).Some? { assert LeaseKey(p).key == p; }
    if p in LeaseView(t) {
      var k: KeyId :| k in t && k.scope.LeaseScope? && ParseLease(t[k]).Some? && k.key == p;
      assert k == LeaseKey(p);
    }
  }

  lemma LeasesAfterLeaseAction(t: Table, a: Action, now: Time, p: Project)
    requires WellFormed(t) && (a.DoAcquire? || a.DoRenew? || a.DoRelease?)
    ensures p in LeaseView(Apply(t, a, now)) <==> p in StepLeases(LeaseView(t), a, now)
    ensures p in LeaseView(Apply(t, a, now)) ==> LeaseView(Apply(t, a, now))[p] == StepLeases(LeaseView(t), a, now)[p]
  {
    LeaseViewAt(t, p);
    LeaseViewAt(Apply(t, a, now), p);
    LeaseViewAt(t, a.project);
    hide LeaseView;
    if a.DoAcquire? {
      var t' := Acquire(t, a.project, a.operation, a.owner, a.ttl, now);
      assert Apply(t, a, now) == OrSame(t', t);
      return;
    }
    if a.DoRenew? {
      var t' := Renew(t, a.project, a.owner, a.ttl, now);
      assert Apply(t, a, now) == OrSame(t', t);
      return;
    }
  }

  lemma LeasesAfterSweep(t: Table, a: Action, now: Time, p: Project)
    requires WellFormed(t) && (a.DoReclaim? || a.DoBegin? || a.DoFinish? || a.DoPrune?)
    ensures p in LeaseView(Apply(t, a, now)) <==> p in StepLeases(LeaseView(t), a, now)
    ensures p in LeaseView(Apply(t, a, now)) ==> LeaseView(Apply(t, a, now))[p] == StepLeases(LeaseView(t), a, now)[p]
  {
    LeaseViewAt(t, p);
    LeaseViewAt(Apply(t, a, now), p);
  }

  lemma RecordsAfter(t: Table, a: Action, now: Time)
    ensures RecordView(Apply(t, a, now)) == StepRecords(RecordView(t), a, now)
  {
    var m, m' := RecordView(Apply(t, a, now)), StepRecords(RecordView(t), a, now);
    assert forall k :: k in m <==> k in m';
    assert forall k | k in m :: m[k] == m'[k];
  }

  lemma ActionKeepsWellFormed(t: Table, a: Action, now: Time)
    requires WellFormed(t)
    ensures WellFormed(Apply(t, a, now))
  {}

  /** Any one operation on the table acts on one map and is invisible in the other. */
  lemma RefinesTwoMaps(t: Table, a: Action, now: Time)
    requires WellFormed(t)
    ensures WellFormed(Apply(t, a, now))
    ensures LeaseView(Apply(t, a, now)) == StepLeases(LeaseView(t), a, now)
    ensures RecordView(Apply(t, a, now)) == StepRecords(RecordView(t), a, now)
  {
    hide WellFormed, Apply, LeaseView, RecordView, StepLeases, StepRecords;
    ActionKeepsWellFormed(t, a, now);
    forall p: Project
      ensures p in LeaseView(Apply(t, a, now)) <==> p in StepLeases(LeaseView(t), a, now)
      ensures p in LeaseView(Apply(t, a, now)) ==> LeaseView(Apply(t, a, now))[p] == StepLeases(LeaseView(t), a, now)[p]
    {
      if a.DoAcquire? || a.DoRenew? || a.DoRelease? {
        LeasesAfterLeaseAction(t, a, now, p);
      } else {
        LeasesAfterSweep(t, a, now, p);
      }
    }
    RecordsAfter(t, a, now);
  }

  datatype Timed = Timed(action: Action, at: Time)

  function ApplyAll(t: Table, run: seq<Timed>): Table
    decreases |run|
  {
    if run == [] then t else ApplyAll(Apply(t, run[0].action, run[0].at), run[1..])
  }

  ghost function LeaseRun(m: LeaseMap, run: seq<Timed>): LeaseMap
    decreases |run|
  {
    if run == [] then m else LeaseRun(StepLeases(m, run[0].action, run[0].at), run[1..])
  }

  ghost function RecordRun(m: RecordMap, run: seq<Timed>): RecordMap
    decreases |run|
  {
    if run == [] then m else RecordRun(StepRecords(m, run[0].action, run[0].at), run[1..])
  }

  /** Over any run of interleaved operations, by any clients at any times, the single table is
      exactly a lease map and an idempotency map that ran separately. */
  lemma {:induction false} RunRefinesTwoMaps(t: Table, run: seq<Timed>)
    requires WellFormed(t)
    ensures WellFormed(ApplyAll(t, run))
    ensures LeaseView(ApplyAll(t, run)) == LeaseRun(LeaseView(t), run)
    ensures RecordView(ApplyAll(t, run)) == RecordRun(RecordView(t), run)
    decreases |run|
  {
    if run == [] {
    } else {
      RefinesTwoMaps(t, run[0].action, run[0].at);
      RunRefinesTwoMaps(Apply(t, run[0].action, run[0].at), run[1..]);
    }
  }

  /** Only the owner of the stored lease can renew or release it: for anyone else, expired or
      replaced, both leave the table as it is. */
  lemma StaleOwnerIsHarmless(t: Table, p: Project, holder: Owner, stale: Owner, ttl: int, now: Time)
    requires WellFormed(t) && Owns(t, p, holder) && stale != holder
    ensures Release(t, p, stale) == t
    ensures Renew(t, p, stale, ttl, now).None?
    ensures Acquire(t, p, "", stale, ttl, now).Some? ==> GetLease(t, p).value.expires <= now
  {
    assert GetLease(t, p).value.owner == holder;
  }

  // ---------------------------------------------------------------- scope text

  function KindText(kind: OpKind): string {
    match kind
    case Validation => "VALIDATION"
    case Deployment => "DEPLOYMENT"
    case Rollback => "ROLLBACK"
    case Recovery => "RECOVERY"
  }

  function ScopeText(s: Scope): string {
    match s
    case LeaseScope => "operation-lease"
    case OpScope(kind, p) => "persistent-operation:" + KindText(kind) + ":" + p
    case JobScope(p) => "job-start:" + p
    case WriteScope(p, operation) => "database-write:" + p + ":" + operation
    case RestartScope(p) => "service-restart:" + p
  }

  predicate Plain(s: string) { ':' !in s }

  /** Project ids hold no colon. */
  predicate PlainScope(s: Scope) { !s.LeaseScope? ==> Plain(s.project) }

  lemma SplitAtColon(a: string, b: string, c: string, d: string)
    requires Plain(a) && Plain(c)
    requires a + ":" + b == c + ":" + d
    ensures a == c && b == d
  {
    var s, u := a + ":" + b, c + ":" + d;
    assert forall i | 0 <= i < |a| :: a[i] in a;
    assert forall i | 0 <= i < |c| :: c[i] in c;
    assert s[|a|] == ':' && u[|c|] == ':';
    assert |a| == |c|;
    assert a == s[..|a|] && c == u[..|c|];
    assert b == s[|a| + 1..] && d == u[|c| + 1..];
  }

  lemma KindIsPlain(kind: OpKind)
    ensures Plain(KindText(kind))
  {}

  lemma KindTextIsInjective(kind: OpKind, kind': OpKind)
    requires KindText(kind) == KindText(kind')
    ensures kind == kind'
  {
    assert KindText(kind)[0] == KindText(kind')[0] && |KindText(kind)| == |KindText(kind')|;
  }

  lemma OpScopeTextIsInjective(kind: OpKind, p: Project, kind': OpKind, p': Project)
    requires Plain(p) && Plain(p') && ScopeText(OpScope(kind, p)) == ScopeText(OpScope(kind', p'))
    ensures kind == kind' && p == p'
  {
    hide KindText, Plain;
    var prefix := "persistent-operation:";
    var s, u := KindText(kind) + ":" + p, KindText(kind') + ":" + p';
    assert ScopeText(OpScope(kind, p)) == prefix + s && ScopeText(OpScope(kind', p')) == prefix + u;
    hide ScopeText;
    SuffixesAgree(prefix, s, u);
    KindIsPlain(kind);
    KindIsPlain(kind');
    SplitAtColon(KindText(kind), p, KindText(kind'), p');
    KindTextIsInjective(kind, kind');
  }

  lemma WriteScopeTextIsInjective(p: Project, operation: string, p': Project, operation': string)
    requires Plain(p) && Plain(p')
    requires ScopeText(WriteScope(p, operation)) == ScopeText(WriteScope(p', operation'))
    ensures p == p' && operation == operation'
  {
    var prefix := "database-write:";
    var s, u := p + ":" + operation, p' + ":" + operation';
    assert ScopeText(WriteScope(p, operation)) == prefix + s && ScopeText(WriteScope(p', operation')) == prefix + u;
    assert s == (prefix + s)[|prefix|..] && u == (prefix + u)[|prefix|..];
    SplitAtColon(p, operation, p', operation');
  }

  lemma SuffixesAgree(prefix: string, s: string, u: string)
    requires prefix + s == prefix + u
    ensures s == u
  {
    assert s == (prefix + s)[|prefix|..] && u == (prefix + u)[|prefix|..];
  }

  lemma FirstLetter(s: Scope)
    ensures |ScopeText(s)| > 0
    ensures ScopeText(s)[0] == match s
                               case LeaseScope => 'o'
                               case OpScope(_, _) => 'p'
                               case JobScope(_) => 'j'
                               case WriteScope(_, _) => 'd'
                               case RestartScope(_) => 's'
  {}

  /** The text of a scope names it, so the four clients and the leases never share a row. */
  lemma ScopeTextIsInjective(s: Scope, u: Scope)
    requires PlainScope(s) && PlainScope(u) && ScopeText(s) == ScopeText(u)
    ensures s == u
  {
    FirstLetter(s);
    FirstLetter(u);
    match s {
      case LeaseScope =>
      case JobScope(p) => SuffixesAgree("job-start:", p, u.project);
      case RestartScope(p) => SuffixesAgree("service-restart:", p, u.project);
      case WriteScope(p, operation) => WriteScopeTextIsInjective(p, operation, u.project, u.operation);
      case OpScope(kind, p) => OpScopeTextIsInjective(kind, p, u.kind, u.project);
    }
  }
}
