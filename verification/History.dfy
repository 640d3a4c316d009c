/** The history of the database over a run: every consecutive pair of states is a lawful step. */
module History {
  import opened Prelude
  import opened KeyTable
  import opened Store
  import opened Runtime
  import opened Agent
  import opened Frame
  import opened Evidence
  import opened EngineInvariant
  import opened WorkHistory
  import opened Safety

  lemma AfterIsLast(c: Config, s: State, e: Event)
    requires Fires(c, s, e)
    ensures After(c, s, e).d == Last(s.d, WritesOf(c, s, e))
  {
    hide Enabled, Perform, PartFires, AfterPart;
    if e.Start? && e.part.BootServe? { ServeWritesNothing(s.d, e.part); }
  }

  lemma ServeWritesNothing(d: Durable, p: Part)
    requires p.BootServe?
    ensures AfterPart(d, p) == d
  {}

  ghost predicate LawfulHistory(d: Durable, ws: seq<Durable>) {
    forall i | 0 <= i < |ws| :: EvolvesAt(d, ws, i)
  }

  ghost predicate EvolvesAt(d: Durable, ws: seq<Durable>, i: nat)
    requires i < |ws|
  {
    Evolves(Before(d, ws, i), ws[i])
  }

  // ---------------------------------------------------------------- each kind of write is lawful

  lemma StepEvolves(d: Durable, w: Durable, reach: Reach)
    requires Step(d, w, reach) && w.ops == d.ops && w.jobs == d.jobs
    ensures Evolves(d, w)
  {
    hide RowsOk, TaskEdge;
  }

  lemma MoveEvolves(d: Durable, w: Durable)
    requires WorkMove(d, w)
    ensures Evolves(d, w)
  {
    hide SameUnknown, OpsEvolve, JobsEvolve;
  }

  lemma PartEvolves(d: Durable, now: Time, n: nat, p: Part)
    requires PartFires(d, now, n, p)
    ensures Evolves(d, AfterPart(d, p))
  {
    hide Evolves, PruneRuns, ReconcileOps, ReconcileJobs, MarkInterrupted, MarkUnknown;
    match p
    case BootOps => ReconcileOpsEvolves(d);
    case BootJobs => ReconcileJobsEvolves(d);
    case BootInterrupted => MarkInterruptedEvolves(d);
    case BootUnknown => MarkUnknownEvolves(d);
    case _ => SameRowsEvolves(d, AfterPart(d, p));
  }

  lemma SameRowsEvolves(d: Durable, w: Durable)
    requires w.tasks == d.tasks && w.ops == d.ops && w.jobs == d.jobs && w.plans == d.plans
             && w.deployments == d.deployments
    ensures Evolves(d, w)
  {
    hide BlockingWork, UnknownWork, ResumeVerified;
  }

  lemma ReconcileOpsEvolves(d: Durable)
    ensures Evolves(d, d.(ops := ReconcileOps(d.ops)))
  {
    hide TaskEdge, BlockingWork, UnknownWork, ResumeVerified;
    var w := d.(ops := ReconcileOps(d.ops));
    assert OpsEvolve(d, w);
    hide OpsEvolve;
    SameTaskEdges(d);
  }

  lemma ReconcileJobsEvolves(d: Durable)
    ensures Evolves(d, d.(jobs := ReconcileJobs(d.jobs)))
  {
    hide TaskEdge, BlockingWork, UnknownWork, ResumeVerified;
    var w := d.(jobs := ReconcileJobs(d.jobs));
    assert JobsEvolve(d, w);
    hide JobsEvolve;
    SameTaskEdges(d);
  }

  lemma SameTaskEdges(d: Durable)
    ensures forall t | t in d.tasks :: TaskEdge(d, t, d.tasks[t].status, d.tasks[t].status)
  {
    hide BlockingWork, UnknownWork, ResumeVerified;
  }

  lemma MarkInterruptedEvolves(d: Durable)
    ensures Evolves(d, d.(tasks := MarkInterrupted(d.tasks)))
  {
    hide BlockingWork, UnknownWork, ResumeVerified, Allowed;
  }

  lemma MarkUnknownEvolves(d: Durable)
    ensures Evolves(d, d.(tasks := MarkUnknown(d)))
  {
    hide BlockingWork, UnknownWork, ResumeVerified, Allowed;
  }

  lemma ChainEvolves(d: Durable, ws: seq<Durable>, reach: Reach)
    requires Chain(d, ws, reach) && SameWorkAll(d, ws)
    ensures LawfulHistory(d, ws)
  {
    hide Step, Evolves, Chain;
    forall i | 0 <= i < |ws| ensures EvolvesAt(d, ws, i) {
      ChainAt(d, ws, i, reach);
      assert ws[i] in ws && (i > 0 ==> ws[i - 1] in ws);
      StepEvolves(Before(d, ws, i), ws[i], reach);
    }
  }

  lemma WorkChainEvolves(d: Durable, ws: seq<Durable>)
    requires WorkChain(d, ws)
    ensures LawfulHistory(d, ws)
  {
    hide WorkMove, Evolves, WorkChain;
    forall i | 0 <= i < |ws| ensures EvolvesAt(d, ws, i) {
      WorkChainAt(d, ws, i);
      MoveEvolves(Before(d, ws, i), ws[i]);
    }
  }

  lemma StretchEvolves(c: Config, d: Durable, m: Mem, now: Time, l: Label)
    requires RowsOk(d) && Enabled(d, m, l) && Written(c, d, m, l, Perform(c, d, m, now, l))
    ensures LawfulHistory(d, Perform(c, d, m, now, l).writes)
  {
    hide Enabled, Perform, Chain, WorkChain, LawfulHistory, ReachOf, SameWorkAll, RowsOk;
    var ws := Perform(c, d, m, now, l).writes;
    if EngineLabel(l) {
      ChainSameWork(d, ws, ReachOf(m, l));
      ChainEvolves(d, ws, ReachOf(m, l));
    } else {
      WorkChainEvolves(d, ws);
    }
  }

  lemma PrefixLawful(d: Durable, ws: seq<Durable>, n: nat)
    requires LawfulHistory(d, ws) && n <= |ws|
    ensures LawfulHistory(d, ws[..n])
  {
    hide Evolves;
    forall i | 0 <= i < n ensures EvolvesAt(d, ws[..n], i) {
      assert EvolvesAt(d, ws, i) && Before(d, ws[..n], i) == Before(d, ws, i);
    }
  }

  lemma JoinLawful(d: Durable, first: seq<Durable>, rest: seq<Durable>)
    requires LawfulHistory(d, first) && LawfulHistory(Last(d, first), rest)
    ensures LawfulHistory(d, first + rest)
  {
    hide Evolves;
    var all := first + rest;
    forall i | 0 <= i < |all| ensures EvolvesAt(d, all, i) {
      if i < |first| {
        assert EvolvesAt(d, first, i) && Before(d, all, i) == Before(d, first, i);
      } else {
        assert EvolvesAt(Last(d, first), rest, i - |first|);
        assert Before(d, all, i) == Before(Last(d, first), rest, i - |first|);
      }
    }
  }

  lemma EventEvolves(c: Config, s: State, e: Event)
    requires ValidConfig(c) && Inv(c, s) && Fires(c, s, e)
    ensures LawfulHistory(s.d, WritesOf(c, s, e))
  {
    hide Enabled, Perform, PartFires, AfterPart, Inv, LawfulHistory;
    if e.Act? {
      StretchHistory(c, s, e.step);
      return;
    }
    if e.CutShort? {
      StretchHistory(c, s, e.step);
      PrefixLawful(s.d, Perform(c, s.d, s.mode.mem, s.now, e.step).writes, e.at + 1);
      return;
    }
    if e.Start? {
      PartEvolves(s.d, s.now, s.mode.part, e.part);
      OneLawful(s.d, AfterPart(s.d, e.part));
      return;
    }
    NoneLawful(s.d);
  }

  lemma StretchHistory(c: Config, s: State, l: Label)
    requires ValidConfig(c) && Inv(c, s) && s.mode.Up? && Enabled(s.d, s.mode.mem, l)
    ensures LawfulHistory(s.d, Perform(c, s.d, s.mode.mem, s.now, l).writes)
  {
    hide Sound, Enabled, Perform;
    StretchKeepsAlive(c, s.d, s.mode.mem, s.now, l);
    AliveParts(c, s.d, s.mode.mem, s.now);
    hide *;
    StretchEvolves(c, s.d, s.mode.mem, s.now, l);
  }

  lemma OneLawful(d: Durable, w: Durable)
    requires Evolves(d, w)
    ensures LawfulHistory(d, [w])
  {
    hide Evolves;
  }

  lemma NoneLawful(d: Durable)
    ensures LawfulHistory(d, [])
  {}

  /** The whole history of a run, crashes and restarts included, is one chain of lawful steps. */
  lemma {:induction false} HistoryIsLawful(c: Config, s: State, es: seq<Event>)
    requires ValidConfig(c) && Inv(c, s) && Runs(c, s, es)
    ensures LawfulHistory(s.d, Trail(c, s, es)) && Reached(c, s, es).d == Last(s.d, Trail(c, s, es))
    decreases |es|
  {
    hide Inv, Fires, After, WritesOf, LawfulHistory;
    if es == [] {
      NoneLawful(s.d);
    } else {
      var first, rest := WritesOf(c, s, es[0]), Trail(c, After(c, s, es[0]), es[1..]);
      EventEvolves(c, s, es[0]);
      AfterIsLast(c, s, es[0]);
      EventKeepsInv(c, s, es[0]);
      HistoryIsLawful(c, After(c, s, es[0]), es[1..]);
      JoinLawful(s.d, first, rest);
    }
  }

  // ---------------------------------------------------------------- consequences along a lawful history

  /** The n-th state of a history that starts at `d`. */
  function StateAt(d: Durable, ws: seq<Durable>, n: nat): Durable
    requires n <= |ws|
  {
    if n == 0 then d else ws[n - 1]
  }

  lemma LawfulAt(d: Durable, ws: seq<Durable>, n: nat)
    requires LawfulHistory(d, ws) && n < |ws|
    ensures Evolves(StateAt(d, ws, n), StateAt(d, ws, n + 1))
  {
    hide Evolves;
    assert EvolvesAt(d, ws, n);
  }

  /** A terminal task is terminal for good, in the same status. */
  lemma {:induction false} TerminalForGood(d: Durable, ws: seq<Durable>, i: nat, j: nat, t: Id)
    requires LawfulHistory(d, ws) && i <= j <= |ws| && t in StateAt(d, ws, i).tasks
             && Terminal(StateAt(d, ws, i).tasks[t].status)
    ensures t in StateAt(d, ws, j).tasks && StateAt(d, ws, j).tasks[t].status == StateAt(d, ws, i).tasks[t].status
    decreases j
  {
    hide LawfulHistory, BlockingWork, UnknownWork, ResumeVerified, StateAt, OpsEvolve, JobsEvolve;
    if i < j {
      TerminalForGood(d, ws, i, j - 1, t);
      LawfulAt(d, ws, j - 1);
      assert TaskEdge(StateAt(d, ws, j - 1), t, StateAt(d, ws, j - 1).tasks[t].status,
               StateAt(d, ws, j).tasks[t].status);
    }
  }

  /** A SUCCEEDED, FAILED or UNKNOWN operation never changes again, target and all, and a settled job
      keeps its status. */
  lemma {:induction false} SettledWorkForGood(d: Durable, ws: seq<Durable>, i: nat, j: nat, a: Id)
    requires LawfulHistory(d, ws) && i <= j <= |ws|
    ensures a in StateAt(d, ws, i).ops && !StateAt(d, ws, i).ops[a].status.OpRunning? ==>
              a in StateAt(d, ws, j).ops && StateAt(d, ws, j).ops[a] == StateAt(d, ws, i).ops[a]
    ensures a in StateAt(d, ws, i).jobs && !StateAt(d, ws, i).jobs[a].status.JobRunning? ==>
              a in StateAt(d, ws, j).jobs && StateAt(d, ws, j).jobs[a].status == StateAt(d, ws, i).jobs[a].status
    decreases j
  {
    hide LawfulHistory, TaskEdge, StateAt;
    if i < j {
      SettledWorkForGood(d, ws, i, j - 1, a);
      LawfulAt(d, ws, j - 1);
    }
  }

  /** Whenever a task starts to run, no job or operation of it is RUNNING or UNKNOWN anywhere in
      the store, and out of RECOVERY_REQUIRED the last decided assessment recommended it. */
  lemma RunningOnlyWhenClear(d: Durable, ws: seq<Durable>, n: nat, t: Id)
    requires LawfulHistory(d, ws) && n < |ws| && t in StateAt(d, ws, n + 1).tasks
             && StateAt(d, ws, n + 1).tasks[t].status == RUNNING
    requires t in StateAt(d, ws, n).tasks ==> StateAt(d, ws, n).tasks[t].status != RUNNING
    ensures var d' := StateAt(d, ws, n);
            && t in d'.tasks
            && d'.tasks[t].status in RESUMABLE
            && (forall o | o in d'.ops && d'.ops[o].task == t ::
                 d'.ops[o].status.OpSucceeded? || d'.ops[o].status.OpFailed?)
            && (forall j | j in d'.jobs && d'.jobs[j].attached == Some(t) ::
                 !d'.jobs[j].status.JobRunning? && !d'.jobs[j].status.JobUnknown?)
            && (d'.tasks[t].status == RECOVERY_REQUIRED ==> ResumeVerified(d'.runs, t))
  {
    LawfulAt(d, ws, n);
    var d', d'' := StateAt(d, ws, n), StateAt(d, ws, n + 1);
    hide LawfulHistory, StateAt, Evolves;
    EvolvesToRunning(d', d'', t);
    NotBlocked(d', t);
  }

  lemma EvolvesToRunning(d: Durable, d': Durable, t: Id)
    requires Evolves(d, d') && t in d'.tasks && d'.tasks[t].status == RUNNING
             && (t in d.tasks ==> d.tasks[t].status != RUNNING)
    ensures t in d.tasks && d.tasks[t].status in RESUMABLE
    ensures !BlockingWork(d, t) && (d.tasks[t].status == RECOVERY_REQUIRED ==> ResumeVerified(d.runs, t))
  {
    hide OpsEvolve, JobsEvolve, BlockingWork, UnknownWork, ResumeVerified;
    assert t in d.tasks;
    assert TaskEdge(d, t, d.tasks[t].status, RUNNING);
  }

  lemma NotBlocked(d: Durable, t: Id)
    requires !BlockingWork(d, t)
    ensures forall o | o in d.ops && d.ops[o].task == t :: d.ops[o].status.OpSucceeded? || d.ops[o].status.OpFailed?
    ensures forall j | j in d.jobs && d.jobs[j].attached == Some(t) ::
              !d.jobs[j].status.JobRunning? && !d.jobs[j].status.JobUnknown?
  {}
}
