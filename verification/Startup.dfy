/** The startup sequence over the classes, and that it is a run of the agent's own steps. */
module Startup {
  import opened KeyTable
  import opened Store
  import opened Runtime
  import opened Database
  import opened Stores
  import opened Operations
  import opened Jobs
  import opened Tasks
  import opened Agent

  /** From `s0` the events `es` lead to `s`, writing `log`. */
  ghost predicate Traced(c: Config, s0: State, es: seq<Event>, log: seq<Durable>, s: State) {
    Runs(c, s0, es) && Reached(c, s0, es) == s && Trail(c, s0, es) == log
  }

  lemma {:induction false} TracedOneMore(c: Config, s0: State, es: seq<Event>, log: seq<Durable>, s: State, e: Event)
    requires Traced(c, s0, es, log, s) && Fires(c, s, e)
    ensures Traced(c, s0, es + [e], log + WritesOf(c, s, e), After(c, s, e))
    decreases |es|
  {
    hide Fires, After, WritesOf;
    if es == [] {
      assert [e][1..] == [] && es + [e] == [e];
      assert Runs(c, After(c, s, e), []);
      assert Runs(c, s, [e]);
      assert Reached(c, s, [e]) == Reached(c, After(c, s, e), []);
      assert Trail(c, s, [e]) == WritesOf(c, s, e) + [];
    } else {
      var s1, first := After(c, s0, es[0]), WritesOf(c, s0, es[0]);
      TracedOneMore(c, s1, es[1..], Trail(c, s1, es[1..]), s, e);
      assert (es + [e])[1..] == es[1..] + [e];
    }
  }

  /** One part of the sequence. */
  lemma TracedPart(c: Config, s0: State, es: seq<Event>, log: seq<Durable>, s: State, p: Part)
    requires Traced(c, s0, es, log, s) && s.mode.Starting? && PartFires(s.d, s.now, s.mode.part, p)
    ensures Traced(c, s0, es + [Start(p)], log + [AfterPart(s.d, p)], After(c, s, Start(p)))
  {
    TracedOneMore(c, s0, es, log, s, Start(p));
  }

  /** The reclaim loop, as its parts. */
  lemma {:induction false} SweepTraced(c: Config, s0: State, writes: seq<Durable>) returns (es: seq<Event>)
    requires s0.mode == Starting(0) && Reclaims(s0.d, writes, s0.now)
    ensures Traced(c, s0, es, writes, s0.(d := Last(s0.d, writes)))
    decreases |writes|
  {
    hide PartFires, AfterPart;
    if writes == [] {
      es := [];
    } else {
      var p :| PartFires(s0.d, s0.now, 0, BootReclaim(p)) && writes[0] == AfterPart(s0.d, BootReclaim(p));
      var rest := SweepTraced(c, s0.(d := writes[0]), writes[1..]);
      es := [Start(BootReclaim(p))] + rest;
      assert es[1..] == rest && writes == [writes[0]] + writes[1..];
    }
  }

  class ServerAgent {
    const db: StateDb
    const leases: OperationLeaseStore
    const operations: PersistentOperationManager
    const jobs: JobManager
    const tasks: TaskEngine

    ghost predicate Wired() { leases.db == operations.db == jobs.db == tasks.db == db }

    constructor (db: StateDb, leases: OperationLeaseStore, operations: PersistentOperationManager, jobs: JobManager,
            tasks: TaskEngine)
      requires leases.db == operations.db == jobs.db == tasks.db == db
      ensures Wired() && this.db == db
    {
      this.db, this.leases, this.operations, this.jobs, this.tasks := db, leases, operations, jobs, tasks;
    }

    /** The sequence has done its first `part` parts: `trace` so far. */
    ghost predicate Done(trace: Trace, part: nat)
      reads db
    {
      && db.journal == trace.journal + trace.log
      && Traced(trace.c, trace.s0, trace.es, trace.log, trace.s0.(d := db.Contents(), mode := Starting(part)))
    }

    /** The sequence in its order. `deletions` is how far maintenance gets before it throws, if it
        does: the recovery runs, then the keys. Whatever it leaves behind, the statements are those
        of a run of the model from a crash to a serving agent. */
    method Start(ghost c: Config, ghost boots: nat, now: Time, cutoff: Time, deletions: nat)
      returns (ghost es: seq<Event>)
      requires Wired()
      modifies db
      ensures old(db.journal) <= db.journal
      ensures Traced(c, State(old(db.Contents()), now, boots, Starting(0)), es, db.journal[|old(db.journal)|..],
                     State(db.Contents(), now, boots + 1, Up(Boot(boots + 1))))
    {
      hide Traced, Reclaims, AfterPart;
      ghost var trace := Sweep(c, boots, now);
      trace := Reconcile(trace);
      trace := RunStartupMaintenance(trace, cutoff, deletions);
      ghost var d := db.Contents();
      db.Skips();
      Serves(trace, d);
      es := trace.es + [Event.Start(BootServe)];
      assert db.journal[|old(db.journal)|..] == trace.log + [db.Contents()];
    }

    /** The reclaim loop, from the crash on. */
    method Sweep(ghost c: Config, ghost boots: nat, now: Time) returns (ghost trace: Trace)
      requires Wired()
      modifies db
      ensures Done(trace, 0) && trace.c == c && trace.journal == old(db.journal)
      ensures trace.s0 == State(old(db.Contents()), now, boots, Starting(0))
    {
      hide Traced, Reclaims;
      ghost var s0 := State(db.Contents(), now, boots, Starting(0));
      ghost var journal := db.journal;
      var _ := leases.ReclaimExpired(now);
      ghost var log := db.journal[|journal|..];
      ghost var es := SweepTraced(c, s0, log);
      trace := Trace(c, s0, journal, es, log);
    }

    /** Work that was running is lost: UNKNOWN rows, and tasks that need recovery. */
    method Reconcile(ghost trace: Trace) returns (ghost trace': Trace)
      requires Wired() && Done(trace, 0)
      modifies db
      ensures Done(trace', 4) && trace'.From(trace)
    {
      hide Traced, AfterPart;
      ghost var d0 := db.Contents();
      var _ := operations.ReconcileAfterRestart();
      ghost var d1 := db.Contents();
      var _ := jobs.ReconcileAfterRestart();
      ghost var d2 := db.Contents();
      var _ := tasks.MarkInterruptedForRecovery();
      ghost var d3 := db.Contents();
      var _ := tasks.MarkUnknownWorkForRecovery();
      trace' := Next(Next(Next(Next(trace, d0, 0, BootOps, d1), d1, 1, BootJobs, d2), d2, 2, BootInterrupted, d3),
          d3, 3, BootUnknown, db.Contents());
    }

    /** The two deletions of `runStartupMaintenance` that touch modelled tables. */
    method RunStartupMaintenance(ghost trace: Trace, cutoff: Time, deletions: nat) returns (ghost trace': Trace)
      requires Wired() && Done(trace, 4)
      modifies db
      ensures Done(trace', 4) || Done(trace', 5) || Done(trace', 6)
      ensures trace'.From(trace)
    {
      hide Traced;
      trace' := trace;
      ghost var d := db.Contents();
      if deletions > 0 {
        db.ReplaceRuns(map r | r in db.runs && !PrunableRun(db.runs, db.tasks, r, cutoff) :: db.runs[r]);
        trace' := Next(trace, d, 4, BootRuns(cutoff), db.Contents());
      }
      ghost var d' := db.Contents();
      if deletions > 1 {
        var _ := db.DeleteKeysBefore(cutoff);
        trace' := Next(trace', d', 5, BootKeys(cutoff), db.Contents());
      }
    }
  }

  /** What has happened since the crash. */
  datatype Trace = Trace(c: Config, s0: State, journal: seq<Durable>, es: seq<Event>, log: seq<Durable>) {
    predicate From(t: Trace) { c == t.c && s0 == t.s0 && journal == t.journal }
  }

  /** Serving ends the sequence, from any of the states maintenance leaves. */
  lemma Serves(t: Trace, d: Durable)
    requires exists part: nat | part >= 4 :: Traced(t.c, t.s0, t.es, t.log, t.s0.(d := d, mode := Starting(part)))
    ensures Traced(t.c, t.s0, t.es + [Event.Start(BootServe)], t.log + [d],
              State(d, t.s0.now, t.s0.boots + 1, Up(Boot(t.s0.boots + 1))))
  {
    var part: nat :| part >= 4 && Traced(t.c, t.s0, t.es, t.log, t.s0.(d := d, mode := Starting(part)));
    TracedPart(t.c, t.s0, t.es, t.log, t.s0.(d := d, mode := Starting(part)), BootServe);
  }

  /** One more part, which took the database from `d` to `d'`. */
  ghost function Next(t: Trace, d: Durable, part: nat, p: Part, d': Durable): (r: Trace)
    requires Traced(t.c, t.s0, t.es, t.log, t.s0.(d := d, mode := Starting(part)))
    requires PartFires(d, t.s0.now, part, p) && d' == AfterPart(d, p) && !p.BootServe? && !p.BootReclaim?
    ensures Traced(t.c, t.s0, r.es, r.log, t.s0.(d := d', mode := Starting(part + 1)))
    ensures r == t.(es := t.es + [Event.Start(p)], log := t.log + [d'])
  {
    TracedPart(t.c, t.s0, t.es, t.log, t.s0.(d := d, mode := Starting(part)), p);
    t.(es := t.es + [Event.Start(p)], log := t.log + [d'])
  }
}
