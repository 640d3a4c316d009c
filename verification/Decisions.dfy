/** The recovery decision over its evidence, and what its five-row windows can and cannot see. */
module Decisions {
  import opened Prelude
  import opened KeyTable
  import opened Store
  import opened Runtime

  const WINDOW := 5

  /** What `collect` read. None stands for an unavailable source, or no health row. */
  datatype Evidence = Evidence(
    operations: seq<OpStatus>, jobs: seq<JobStatus>, head: Option<Commit>, active: Option<bool>, health: Option<Health>)

  /** What `decide` reads for itself: columns of the task, the deployment it names, the project. */
  datatype Confirmed = Confirmed(
    before: Option<Commit>,
    after: Option<Commit>,
    checkpoint: bool,
    resumable: bool,
    named: bool,
    deployment: Option<DeployRow>,
    service: bool,
    healthRequired: bool)

  predicate OpUnresolved(s: OpStatus) { s.OpRunning? || s.OpUnknown? }
  predicate JobUnresolved(s: JobStatus) { s.JobRunning? || s.JobUnknown? }

  /** A deployment can be rolled back when it recorded a commit before it. */
  predicate FailedReversibly(row: DeployRow) { row.status.DeployFailed? && row.before.Some? }

  function Decide(e: Evidence, t: Confirmed): Decision {
    if exists i | 0 <= i < |e.operations| :: OpUnresolved(e.operations[i]) then WaitingForUser
    else if exists i | 0 <= i < |e.jobs| :: JobUnresolved(e.jobs[i]) then WaitingForUser
    else if t.named && t.deployment.None? then WaitingForUser
    else if t.deployment.Some? && FailedReversibly(t.deployment.value) then
      if t.deployment.value.after.Some? && e.head != t.deployment.value.after then WaitingForUser else RollbackRequired
    else
      var expected := if t.after.Some? then t.after else t.before;
      if expected.Some? && e.head != expected then WaitingForUser
      else if t.service && e.active != Some(true) then WaitingForUser
      else if t.healthRequired && e.health != Some(Healthy) then WaitingForUser
      else if t.deployment.Some? && t.deployment.value.status.DeploySucceeded? then ResumeRecommended
      else if t.resumable && t.checkpoint then ResumeRecommended
      else WaitingForUser
  }

  /** No operation and no job that was collected is running or unknown. */
  predicate NothingUnresolved(e: Evidence) {
    && (forall i | 0 <= i < |e.operations| :: e.operations[i] in {OpSucceeded, OpFailed})
    && (forall i | 0 <= i < |e.jobs| :: e.jobs[i] in {JobCompleted, JobFailed, JobCancelled})
  }

  /** The deployment the task names failed, and recorded a commit to go back to. */
  predicate RollbackAvailable(t: Confirmed) {
    t.deployment.Some? && t.deployment.value.status == DeployFailed && t.deployment.value.before.Some?
  }

  /** Git, service, health and the task's own record speak for resuming it. */
  predicate SpeaksForResume(e: Evidence, t: Confirmed) {
    && (t.named ==> t.deployment.Some?) && !RollbackAvailable(t)
    && (t.after.Some? ==> e.head == t.after) && (t.after.None? && t.before.Some? ==> e.head == t.before)
    && (t.service ==> e.active == Some(true)) && (t.healthRequired ==> e.health == Some(Healthy))
    && ((t.deployment.Some? && t.deployment.value.status == DeploySucceeded) || (t.resumable && t.checkpoint))
  }

  /** A failed deployment can be rolled back, and HEAD is where it left it, if it left it anywhere. */
  predicate SpeaksForRollback(e: Evidence, t: Confirmed) {
    RollbackAvailable(t) && (t.deployment.value.after.None? || e.head == t.deployment.value.after)
  }

  lemma UnresolvedWaits(e: Evidence, t: Confirmed)
    ensures !NothingUnresolved(e) ==> Decide(e, t) == WaitingForUser
    ensures NothingUnresolved(e) ==> Decide(e, t) == Decide(e.(operations := [], jobs := []), t)
  {
    if exists i | 0 <= i < |e.operations| :: e.operations[i] !in {OpSucceeded, OpFailed} {
      var i :| 0 <= i < |e.operations| && e.operations[i] !in {OpSucceeded, OpFailed};
      assert OpUnresolved(e.operations[i]);
    } else if exists i | 0 <= i < |e.jobs| :: e.jobs[i] !in {JobCompleted, JobFailed, JobCancelled} {
      var i :| 0 <= i < |e.jobs| && e.jobs[i] !in {JobCompleted, JobFailed, JobCancelled};
      assert JobUnresolved(e.jobs[i]);
    }
  }

  /** Exactly when resume is recommended. */
  lemma ResumeIff(e: Evidence, t: Confirmed)
    ensures Decide(e, t) == ResumeRecommended <==> NothingUnresolved(e) && SpeaksForResume(e, t)
  {
    UnresolvedWaits(e, t);
    hide NothingUnresolved;
  }

  /** Exactly when rollback is required; in every other case the user decides. */
  lemma RollbackIff(e: Evidence, t: Confirmed)
    ensures Decide(e, t) == RollbackRequired <==> NothingUnresolved(e) && SpeaksForRollback(e, t)
  {
    UnresolvedWaits(e, t);
    hide NothingUnresolved;
  }

  /** The newest rows a query with ORDER BY created_at DESC LIMIT 5 may answer: distinct rows of
      the table, all of them when they fit, and none older than a row left out. */
  ghost predicate NewestFive(rows: set<Id>, created: map<Id, Time>, w: seq<Id>)
    requires rows <= created.Keys
  {
    && |w| <= WINDOW
    && (forall i, j | 0 <= i < j < |w| :: w[i] != w[j])
    && (forall i | 0 <= i < |w| :: w[i] in rows)
    && (|w| < WINDOW ==> forall o | o in rows :: o in w)
    && (forall i, o | 0 <= i < |w| && o in rows && o !in w :: created[o] <= created[w[i]])
  }

  ghost function OpsOf(ops: map<Id, OpRow>, t: Id, p: Project): set<Id> {
    set o | o in ops && ops[o].task == t && ops[o].project == p
  }
  ghost function JobsOf(jobs: map<Id, JobRow>, t: Id, p: Project): set<Id> {
    set j | j in jobs && jobs[j].attached == Some(t) && jobs[j].project == p
  }

  ghost predicate Collected(d: Durable, created: map<Id, Time>, t: Id, p: Project, ops: seq<Id>, jobs: seq<Id>,
          e: Evidence)
  {
    && OpsOf(d.ops, t, p) <= created.Keys && NewestFive(OpsOf(d.ops, t, p), created, ops)
    && JobsOf(d.jobs, t, p) <= created.Keys && NewestFive(JobsOf(d.jobs, t, p), created, jobs)
    && |e.operations| == |ops| && (forall i | 0 <= i < |ops| :: e.operations[i] == d.ops[ops[i]].status)
    && |e.jobs| == |jobs| && (forall i | 0 <= i < |jobs| :: e.jobs[i] == d.jobs[jobs[i]].status)
  }

  ghost function Elements(w: seq<Id>): set<Id> { set i | 0 <= i < |w| :: w[i] }

  lemma {:induction false} DistinctElements(w: seq<Id>)
    requires forall i, j | 0 <= i < j < |w| :: w[i] != w[j]
    ensures |Elements(w)| == |w|
  {
    if w == [] {
    } else {
      var rest, x := w[..|w| - 1], w[|w| - 1];
      DistinctElements(rest);
      assert Elements(w) == Elements(rest) + {x};
    }
  }

  /** The other rows that are as new as `own`. */
  ghost function Rivals(rows: set<Id>, created: map<Id, Time>, own: Id): set<Id>
    requires rows <= created.Keys && own in rows
  {
    set o | o in rows && o != own && created[own] <= created[o]
  }

  /** A row that fewer than five others are as new as is in every answer. */
  lemma NewIsSeen(rows: set<Id>, created: map<Id, Time>, w: seq<Id>, own: Id)
    requires rows <= created.Keys && NewestFive(rows, created, w) && own in rows
    requires |Rivals(rows, created, own)| < WINDOW
    ensures own in w
  {
    if own !in w {
      DistinctElements(w);
      forall x | x in Elements(w) ensures x in Rivals(rows, created, own) {
        var i :| 0 <= i < |w| && w[i] == x;
      }
      SubsetSize(Elements(w), Rivals(rows, created, own));
    }
  }

  /** With at most five operations and five jobs nothing is out of sight: a resume or rollback
      recommendation means that no work of the task is running or unknown in its project. */
  lemma SmallWindowsSeeAll(d: Durable, created: map<Id, Time>, t: Id, p: Project, ops: seq<Id>, jobs: seq<Id>,
          e: Evidence, c: Confirmed)
    requires Collected(d, created, t, p, ops, jobs, e)
    requires |OpsOf(d.ops, t, p)| <= WINDOW && |JobsOf(d.jobs, t, p)| <= WINDOW
    requires Decide(e, c) != WaitingForUser
    ensures forall o | o in OpsOf(d.ops, t, p) :: !OpUnresolved(d.ops[o].status)
    ensures forall j | j in JobsOf(d.jobs, t, p) :: !JobUnresolved(d.jobs[j].status)
  {
    AllSeen(OpsOf(d.ops, t, p), created, ops);
    AllSeen(JobsOf(d.jobs, t, p), created, jobs);
    forall o | o in OpsOf(d.ops, t, p) ensures !OpUnresolved(d.ops[o].status) {
      var i :| 0 <= i < |ops| && ops[i] == o;
      assert e.operations[i] == d.ops[o].status;
    }
    forall j | j in JobsOf(d.jobs, t, p) ensures !JobUnresolved(d.jobs[j].status) {
      var i :| 0 <= i < |jobs| && jobs[i] == j;
      assert e.jobs[i] == d.jobs[j].status;
    }
  }

  lemma AllSeen(rows: set<Id>, created: map<Id, Time>, w: seq<Id>)
    requires rows <= created.Keys && NewestFive(rows, created, w) && |rows| <= WINDOW
    ensures forall o | o in rows :: o in w
  {
    forall o | o in rows ensures o in w {
      SubsetSize(Rivals(rows, created, o), rows - {o});
      NewIsSeen(rows, created, w, o);
    }
  }

  /** The rows strictly newer than `own`. */
  ghost function Newer(rows: set<Id>, created: map<Id, Time>, own: Id): set<Id>
    requires rows <= created.Keys && own in rows
  {
    set o | o in rows && created[own] < created[o]
  }

  /** A row with five newer ones is in no answer. */
  lemma OldIsMissed(rows: set<Id>, created: map<Id, Time>, w: seq<Id>, own: Id)
    requires rows <= created.Keys && NewestFive(rows, created, w) && own in rows
    requires |Newer(rows, created, own)| >= WINDOW
    ensures own !in w
  {
    if own in w {
      DistinctElements(w);
      forall x | x in Newer(rows, created, own) + {own} ensures x in Elements(w) {
        var i :| 0 <= i < |w| && w[i] == own;
        assert x in w;
      }
      SubsetSize(Newer(rows, created, own) + {own}, Elements(w));
    }
  }

  // ---------------------------------------------------------------- what the window can hide

  /** The rows that are as new as `b`. */
  ghost function AsNew(rows: set<Id>, created: map<Id, Time>, b: Id): set<Id>
    requires rows <= created.Keys && b in created
  {
    set r | r in rows && created[b] <= created[r]
  }

  /** Each of these rows has five others, none of these, that are as new. */
  ghost predicate Hidden(rows: set<Id>, created: map<Id, Time>, bad: set<Id>)
    requires rows <= created.Keys && bad <= rows
  {
    forall b | b in bad :: |AsNew(rows - bad, created, b)| >= WINDOW
  }

  ghost predicate Avoids(w: seq<Id>, bad: set<Id>) { forall i | 0 <= i < |w| :: w[i] !in bad }

  lemma {:induction false} NewestThere(rows: set<Id>, created: map<Id, Time>) returns (x: Id)
    requires rows <= created.Keys && rows != {}
    ensures x in rows && forall o | o in rows :: created[o] <= created[x]
  {
    var y :| y in rows;
    if rows == {y} {
      x := y;
    } else {
      var z := NewestThere(rows - {y}, created);
      x := if created[y] <= created[z] then z else y;
    }
  }

  /** The newest n rows, or all of them. */
  lemma {:induction false} NewestFirst(rows: set<Id>, created: map<Id, Time>, n: nat) returns (w: seq<Id>)
    requires rows <= created.Keys
    ensures |w| == if |rows| <= n then |rows| else n
    ensures forall i, j | 0 <= i < j < |w| :: w[i] != w[j]
    ensures forall i | 0 <= i < |w| :: w[i] in rows
    ensures |rows| <= n ==> forall o | o in rows :: o in w
    ensures forall i, o | 0 <= i < |w| && o in rows && o !in w :: created[o] <= created[w[i]]
    decreases n
  {
    if n == 0 || rows == {} {
      w := [];
    } else {
      var x := NewestThere(rows, created);
      var rest := NewestFirst(rows - {x}, created, n - 1);
      w := [x] + rest;
      assert forall o | o in w :: o == x || o in rest;
      assert forall o | o in rest :: o in w;
    }
  }

  /** The window of the other rows is a window of all, if each row left out is old enough. */
  lemma HiddenWindow(rows: set<Id>, created: map<Id, Time>, bad: set<Id>) returns (w: seq<Id>)
    requires rows <= created.Keys && bad <= rows && Hidden(rows, created, bad)
    ensures NewestFive(rows, created, w) && Avoids(w, bad)
  {
    var good := rows - bad;
    w := NewestFirst(good, created, WINDOW);
    if |w| < WINDOW && bad != {} {
      var b :| b in bad;
      SubsetSize(AsNew(good, created, b), good);
      assert false;
    }
    forall i, o | 0 <= i < |w| && o in rows && o !in w ensures created[o] <= created[w[i]] {
      if o in bad && created[w[i]] < created[o] {
        NewerFill(good, created, w, i, o);
        assert false;
      }
    }
  }

  /** Five rows newer than one in the window would not fit in beside it. */
  lemma NewerFill(good: set<Id>, created: map<Id, Time>, w: seq<Id>, i: nat, b: Id)
    requires good <= created.Keys && b in created && i < |w| <= WINDOW
    requires forall j | 0 <= j < |w| :: w[j] in good
    requires forall j, o | 0 <= j < |w| && o in good && o !in w :: created[o] <= created[w[j]]
    requires forall j, k | 0 <= j < k < |w| :: w[j] != w[k]
    requires created[w[i]] < created[b]
    ensures |AsNew(good, created, b)| < WINDOW
  {
    var newer := AsNew(good, created, b);
    DistinctElements(w);
    forall x | x in newer ensures x in Elements(w) - {w[i]} {
      assert x in w;
    }
    SubsetSize(newer, Elements(w) - {w[i]});
    assert w[i] in Elements(w);
  }

  /** Exactly when the window can pass over all of `bad`. */
  lemma HiddenIff(rows: set<Id>, created: map<Id, Time>, bad: set<Id>)
    requires rows <= created.Keys && bad <= rows
    ensures (exists w :: NewestFive(rows, created, w) && Avoids(w, bad)) <==> Hidden(rows, created, bad)
  {
    if Hidden(rows, created, bad) {
      var w := HiddenWindow(rows, created, bad);
    }
    if exists w :: NewestFive(rows, created, w) && Avoids(w, bad) {
      var w :| NewestFive(rows, created, w) && Avoids(w, bad);
      AvoidedIsHidden(rows, created, bad, w);
    }
  }

  lemma AvoidedIsHidden(rows: set<Id>, created: map<Id, Time>, bad: set<Id>, w: seq<Id>)
    requires rows <= created.Keys && bad <= rows && NewestFive(rows, created, w) && Avoids(w, bad)
    ensures Hidden(rows, created, bad)
  {
    DistinctElements(w);
    forall b | b in bad ensures |AsNew(rows - bad, created, b)| >= WINDOW {
      assert b !in w;
      forall x | x in Elements(w) ensures x in AsNew(rows - bad, created, b) {
        var i :| 0 <= i < |w| && w[i] == x;
      }
      SubsetSize(Elements(w), AsNew(rows - bad, created, b));
    }
  }

  // ---------------------------------------------------------------- when a recommendation is possible

  ghost function OpenOps(ops: map<Id, OpRow>, t: Id, p: Project): set<Id> {
    set o | o in OpsOf(ops, t, p) && OpUnresolved(ops[o].status)
  }

  ghost function OpenJobs(jobs: map<Id, JobRow>, t: Id, p: Project): set<Id> {
    set j | j in JobsOf(jobs, t, p) && JobUnresolved(jobs[j].status)
  }

  ghost predicate Dated(d: Durable, created: map<Id, Time>, t: Id, p: Project) {
    OpsOf(d.ops, t, p) <= created.Keys && JobsOf(d.jobs, t, p) <= created.Keys
  }

  /** All that is unresolved, operations and jobs, can stay out of the two windows. */
  ghost predicate AllHidden(d: Durable, created: map<Id, Time>, t: Id, p: Project)
    requires Dated(d, created, t, p)
  {
    && Hidden(OpsOf(d.ops, t, p), created, OpenOps(d.ops, t, p))
    && Hidden(JobsOf(d.jobs, t, p), created, OpenJobs(d.jobs, t, p))
  }

  /** What was read beside the two windows. */
  function Outside(e: Evidence): Evidence { e.(operations := [], jobs := []) }

  /** The evidence an answer of the two queries gives. */
  ghost function EvidenceOf(d: Durable, ops: seq<Id>, jobs: seq<Id>, outside: Evidence): Evidence
    requires (forall i | 0 <= i < |ops| :: ops[i] in d.ops) && (forall i | 0 <= i < |jobs| :: jobs[i] in d.jobs)
  {
    outside.(operations := seq(|ops|, i requires 0 <= i < |ops| => d.ops[ops[i]].status),
             jobs := seq(|jobs|, i requires 0 <= i < |jobs| => d.jobs[jobs[i]].status))
  }

  /** Windows without unresolved work decide nothing: all else does. */
  lemma QuietWindows(e: Evidence, c: Confirmed)
    requires forall i | 0 <= i < |e.operations| :: !OpUnresolved(e.operations[i])
    requires forall i | 0 <= i < |e.jobs| :: !JobUnresolved(e.jobs[i])
    ensures Decide(e, c) == Decide(Outside(e), c)
  {}

  /** A recommendation means that neither window holds anything unresolved. */
  lemma SomeRecommendation(d: Durable, created: map<Id, Time>, t: Id, p: Project, ops: seq<Id>, jobs: seq<Id>,
        e: Evidence, c: Confirmed)
    requires Collected(d, created, t, p, ops, jobs, e) && Decide(e, c) != WaitingForUser
    ensures AllHidden(d, created, t, p) && Decide(e, c) == Decide(Outside(e), c)
  {
    QuietWindows(e, c);
    forall i | 0 <= i < |ops| ensures ops[i] !in OpenOps(d.ops, t, p) {
      assert e.operations[i] == d.ops[ops[i]].status;
    }
    forall i | 0 <= i < |jobs| ensures jobs[i] !in OpenJobs(d.jobs, t, p) {
      assert e.jobs[i] == d.jobs[jobs[i]].status;
    }
    AvoidedIsHidden(OpsOf(d.ops, t, p), created, OpenOps(d.ops, t, p), ops);
    AvoidedIsHidden(JobsOf(d.jobs, t, p), created, OpenJobs(d.jobs, t, p), jobs);
  }

  /** When all is hidden the queries may answer so that the windows decide nothing. */
  lemma HiddenRecommends(d: Durable, created: map<Id, Time>, t: Id, p: Project, outside: Evidence, c: Confirmed)
    returns (ops: seq<Id>, jobs: seq<Id>, e: Evidence)
    requires Dated(d, created, t, p) && AllHidden(d, created, t, p)
    ensures Collected(d, created, t, p, ops, jobs, e) && Outside(e) == Outside(outside)
    ensures Decide(e, c) == Decide(Outside(outside), c)
  {
    ops := HiddenWindow(OpsOf(d.ops, t, p), created, OpenOps(d.ops, t, p));
    jobs := HiddenWindow(JobsOf(d.jobs, t, p), created, OpenJobs(d.jobs, t, p));
    e := EvidenceOf(d, ops, jobs, outside);
    forall i | 0 <= i < |e.operations| ensures !OpUnresolved(e.operations[i]) {
      assert ops[i] !in OpenOps(d.ops, t, p);
    }
    forall i | 0 <= i < |e.jobs| ensures !JobUnresolved(e.jobs[i]) {
      assert jobs[i] !in OpenJobs(d.jobs, t, p);
    }
    QuietWindows(e, c);
  }

  /** Some answer of the two queries, beside this outside evidence, leads to this decision. */
  ghost predicate MayDecide(d: Durable, created: map<Id, Time>, t: Id, p: Project, outside: Evidence, c: Confirmed,
        decision: Decision)
  {
    exists ops, jobs, e ::
      Collected(d, created, t, p, ops, jobs, e) && Outside(e) == Outside(outside) && Decide(e, c) == decision
  }

  /** Exactly when an assessment of this store can recommend resume, and when rollback, whatever the
      task is like and whatever Git, service and health say: these must speak for it, and every
      unresolved operation, and every unresolved job, must have five settled ones as new. */
  lemma RecommendationIff(d: Durable, created: map<Id, Time>, t: Id, p: Project, outside: Evidence, c: Confirmed)
    requires Dated(d, created, t, p)
    ensures MayDecide(d, created, t, p, outside, c, ResumeRecommended) <==>
              AllHidden(d, created, t, p) && SpeaksForResume(outside, c)
    ensures MayDecide(d, created, t, p, outside, c, RollbackRequired) <==>
              AllHidden(d, created, t, p) && SpeaksForRollback(outside, c)
  {
    ResumeIff(Outside(outside), c);
    RollbackIff(Outside(outside), c);
    assert SpeaksForResume(Outside(outside), c) == SpeaksForResume(outside, c);
    hide SpeaksForResume, SpeaksForRollback;
    RecommendationKind(d, created, t, p, outside, c, ResumeRecommended);
    RecommendationKind(d, created, t, p, outside, c, RollbackRequired);
    hide MayDecide, Decide, AllHidden;
  }

  lemma RecommendationKind(d: Durable, created: map<Id, Time>, t: Id, p: Project, outside: Evidence, c: Confirmed,
        decision: Decision)
    requires Dated(d, created, t, p) && decision != WaitingForUser
    ensures MayDecide(d, created, t, p, outside, c, decision) <==>
              AllHidden(d, created, t, p) && Decide(Outside(outside), c) == decision
  {
    hide Collected, Decide, AllHidden, Outside;
    if AllHidden(d, created, t, p) {
      var ops, jobs, e := HiddenRecommends(d, created, t, p, outside, c);
    }
    forall ops, jobs, e |
      Collected(d, created, t, p, ops, jobs, e) && Outside(e) == Outside(outside) && Decide(e, c) == decision
      ensures AllHidden(d, created, t, p) && Decide(Outside(outside), c) == decision
    {
      SomeRecommendation(d, created, t, p, ops, jobs, e, c);
    }
  }

  /** A task with a checkpoint and nothing else to confirm. */
  const CHECKPOINTED := Confirmed(None, None, true, true, false, None, false, false)

  const NOTHING_READ := Evidence([], [], None, None, None)

  /** Six operations of task 0, created in the order of their ids; the oldest is UNKNOWN. */
  function SixOps(): map<Id, OpRow> {
    var done := OpRow(0, "p", Validation, OpSucceeded, false);
    map[0 := done.(status := OpUnknown), 1 := done, 2 := done, 3 := done, 4 := done, 5 := done]
  }

  const IN_ORDER: map<Id, Time> := map[0 := 0, 1 := 1, 2 := 2, 3 := 3, 4 := 4, 5 := 5]

  /** Such a store: resume is recommended although an operation of the task is UNKNOWN. */
  lemma UnseenWork(d: Durable) returns (ops: seq<Id>, jobs: seq<Id>, e: Evidence)
    requires d.ops == SixOps() && d.jobs == map[]
    ensures Collected(d, IN_ORDER, 0, "p", ops, jobs, e) && Decide(e, CHECKPOINTED) == ResumeRecommended
    ensures UnknownOp(d.ops, 0)
  {
    SixHide(d);
    assert Decide(Outside(NOTHING_READ), CHECKPOINTED) == ResumeRecommended;
    hide AllHidden, Collected, Decide, SixOps;
    ops, jobs, e := HiddenRecommends(d, IN_ORDER, 0, "p", NOTHING_READ, CHECKPOINTED);
  }

  lemma SixHide(d: Durable)
    requires d.ops == SixOps() && d.jobs == map[]
    ensures Dated(d, IN_ORDER, 0, "p") && AllHidden(d, IN_ORDER, 0, "p") && UnknownOp(d.ops, 0)
  {
    var rows, bad := OpsOf(d.ops, 0, "p"), OpenOps(d.ops, 0, "p");
    assert rows == {0, 1, 2, 3, 4, 5} && bad == {0};
    assert AsNew(rows - bad, IN_ORDER, 0) == {1, 2, 3, 4, 5};
    assert d.ops[0].task == 0 && d.ops[0].status.OpUnknown?;
    assert JobsOf(d.jobs, 0, "p") == {};
  }

  /** An assessment running inside its own persistent operation, as the tool starts it, sees that
      operation RUNNING, unless five settled ones are as new: it recommends neither resume nor
      rollback. */
  lemma OwnOperationBlocks(d: Durable, created: map<Id, Time>, t: Id, p: Project, ops: seq<Id>, jobs: seq<Id>,
        e: Evidence, c: Confirmed, own: Id)
    requires Collected(d, created, t, p, ops, jobs, e)
    requires own in OpsOf(d.ops, t, p) && d.ops[own].status.OpRunning?
    requires |AsNew(OpsOf(d.ops, t, p) - OpenOps(d.ops, t, p), created, own)| < WINDOW
    ensures Decide(e, c) == WaitingForUser
  {
    assert own in OpenOps(d.ops, t, p);
    if Decide(e, c) != WaitingForUser {
      SomeRecommendation(d, created, t, p, ops, jobs, e, c);
    }
  }

  /** It does not matter: `resume` looks at the whole store, whatever was recommended. */
  lemma ResumeSeesEverything(d: Durable, t: Id)
    requires MayResume(d, t)
    ensures forall o | o in d.ops && d.ops[o].task == t :: !OpUnresolved(d.ops[o].status)
    ensures forall j | j in d.jobs && d.jobs[j].attached == Some(t) :: !JobUnresolved(d.jobs[j].status)
  {
    forall j | j in d.jobs && d.jobs[j].attached == Some(t) ensures !JobUnresolved(d.jobs[j].status) {}
  }
}
