/** Recovery attempts: for every task that is not terminal the stored runs are numbered 1..n with
    n within the limit, so COUNT is MAX and the UNIQUE constraint never trips. */
module RunsInvariant {
  import opened KeyTable
  import opened Store
  import opened Runtime
  import opened Engines
  import opened Agent
  import opened Frame
  import opened Evidence
  import opened Workflow
  import opened LeaseInvariant
  import opened EngineInvariant
  import opened WorkHistory
  import opened UnknownInvariant

  /** The attempts on record are exactly 1..n. */
  ghost predicate Numbered(runs: map<RunId, RunRow>, t: Id, n: nat) {
    forall a: nat :: RunId(t, a) in runs <==> 1 <= a <= n
  }

  function FirstRuns(t: Id, n: nat): (s: set<RunId>)
    ensures |s| == n
    ensures forall r :: r in s <==> r.task == t && 1 <= r.attempt <= n
  {
    if n == 0 then {} else FirstRuns(t, n - 1) + {RunId(t, n)}
  }

  /** COUNT equals MAX. */
  lemma CountIsMax(runs: map<RunId, RunRow>, t: Id, n: nat)
    requires Numbered(runs, t, n)
    ensures CountRuns(runs, t) == n
  {
    forall r: RunId ensures r in runs && r.task == t <==> r in FirstRuns(t, n) {
      assert r.task == t ==> r == RunId(t, r.attempt);
    }
    assert (set r | r in runs && r.task == t) == FirstRuns(t, n);
  }

  ghost predicate RunsRefs(d: Durable) { forall r | r in d.runs :: r.task in d.tasks }

  ghost predicate TaskRunsOk(d: Durable, max: nat, t: Id) {
    Numbered(d.runs, t, CountRuns(d.runs, t)) && CountRuns(d.runs, t) <= max
  }

  ghost predicate RunsOk(d: Durable, max: nat) {
    RunsRefs(d) && forall t | t in d.tasks && !Terminal(d.tasks[t].status) :: TaskRunsOk(d, max, t)
  }

  /** An assessment under way holds the next number. */
  ghost predicate FlightOk(d: Durable, max: nat, t: Id, attempt: nat) {
    t in d.tasks && 1 <= attempt <= max && Numbered(d.runs, t, attempt - 1)
  }

  ghost predicate FlightsOk(d: Durable, m: Mem, max: nat) {
    && (forall o | o in m.engines && m.engines[o].Assessing? ::
         FlightOk(d, max, m.engines[o].task, m.engines[o].attempt))
    && (forall a | a in m.direct :: FlightOk(d, max, m.direct[a].task, m.direct[a].attempt))
  }

  /** No two assessments of one task are under way. */
  ghost predicate OneFlight(m: Mem) {
    && (forall o, q | o in m.engines && q in m.engines && m.engines[o].Assessing? && m.engines[q].Assessing?
         && m.engines[o].task == m.engines[q].task :: o == q)
    && (forall a, b | a in m.direct && b in m.direct && m.direct[a].task == m.direct[b].task :: a == b)
    && (forall o, a | o in m.engines && a in m.direct && m.engines[o].Assessing? ::
         m.engines[o].task != m.direct[a].task)
  }

  ghost predicate RunsInv(d: Durable, m: Mem, max: nat) { RunsOk(d, max) && FlightsOk(d, m, max) && OneFlight(m) }

  /** The UNIQUE(task, attempt) branch is dead for any assessment under way. */
  lemma UniqueNeverTrips(d: Durable, m: Mem, max: nat, a: Id)
    requires RunsInv(d, m, max)
    ensures a in m.direct ==> RunId(m.direct[a].task, m.direct[a].attempt) !in d.runs
    ensures a in m.engines && m.engines[a].Assessing? ==> RunId(m.engines[a].task, m.engines[a].attempt) !in d.runs
  {
    if a in m.direct { assert FlightOk(d, max, m.direct[a].task, m.direct[a].attempt); }
    if a in m.engines && m.engines[a].Assessing? { assert FlightOk(d, max, m.engines[a].task, m.engines[a].attempt); }
  }

  /** The lease serialises the assessments that run inside an operation: without direct calls
      none of the same task is ever under way when another begins. */
  lemma LeaseSerialisesAssessments(d: Durable, m: Mem, o: Id)
    requires EnginesOk(d, m) && Exclusive(m.sections) && m.direct == map[]
    requires EngineIs(m, o) && m.engines[o].ToAssess?
    ensures !Overlaps(d, m, m.engines[o].task, m.sections[o].project)
  {
    var t := m.engines[o].task;
    assert EngineOk(d, m.sections[o].project, m.engines[o]);
    forall q | q in m.engines && m.engines[q].Assessing? && m.engines[q].task == t
      ensures d.tasks[t].project != m.sections[o].project
    {
      assert EngineOk(d, m.sections[q].project, m.engines[q]);
      assert m.sections[q].project == d.tasks[t].project && q != o;
    }
  }

  // ---------------------------------------------------------------- other stretches

  lemma SameNumbers(runs: map<RunId, RunRow>, runs': map<RunId, RunRow>, t: Id, n: nat)
    requires forall a: nat :: RunId(t, a) in runs <==> RunId(t, a) in runs'
    ensures Numbered(runs', t, n) <==> Numbered(runs, t, n)
    ensures Numbered(runs, t, n) ==> CountRuns(runs', t) == CountRuns(runs, t)
  {
    if Numbered(runs, t, n) {
      CountIsMax(runs, t, n);
      assert Numbered(runs', t, n);
      CountIsMax(runs', t, n);
    }
  }

  /** What a write may do without disturbing the numbering of tasks out of reach. */
  ghost predicate Undisturbed(d: Durable, w: Durable, assessed: set<Id>) {
    && (forall r: RunId | r.task !in assessed :: r in d.runs <==> r in w.runs)
    && (forall t | t in d.tasks :: t in w.tasks && (Terminal(d.tasks[t].status) ==> Terminal(w.tasks[t].status)))
  }

  lemma NumbersStay(d: Durable, w: Durable, max: nat)
    requires RunsOk(d, max) && Undisturbed(d, w, {})
    ensures RunsOk(w, max)
  {
    assert forall r: RunId :: r in d.runs <==> r in w.runs;
    forall t | t in w.tasks && !Terminal(w.tasks[t].status) ensures TaskRunsOk(w, max, t) {
      if t in d.tasks {
        assert TaskRunsOk(d, max, t);
        SameNumbers(d.runs, w.runs, t, CountRuns(d.runs, t));
      } else {
        assert Numbered(w.runs, t, 0);
        CountIsMax(w.runs, t, 0);
      }
    }
  }

  lemma FlightsStay(d: Durable, w: Durable, m: Mem, m': Mem, max: nat, assessed: set<Id>)
    requires FlightsOk(d, m, max) && Undisturbed(d, w, assessed)
    requires forall o | o in m'.engines && m'.engines[o].Assessing? ::
               o in m.engines && m'.engines[o] == m.engines[o] && m.engines[o].task !in assessed
    requires forall a | a in m'.direct :: a in m.direct && m'.direct[a] == m.direct[a] && m.direct[a].task !in assessed
    ensures FlightsOk(w, m', max)
  {
    forall o | o in m'.engines && m'.engines[o].Assessing?
      ensures FlightOk(w, max, m'.engines[o].task, m'.engines[o].attempt)
    {
      assert FlightOk(d, max, m.engines[o].task, m.engines[o].attempt);
      SameNumbers(d.runs, w.runs, m.engines[o].task, m.engines[o].attempt - 1);
    }
    forall a | a in m'.direct ensures FlightOk(w, max, m'.direct[a].task, m'.direct[a].attempt) {
      assert FlightOk(d, max, m.direct[a].task, m.direct[a].attempt);
      SameNumbers(d.runs, w.runs, m.direct[a].task, m.direct[a].attempt - 1);
    }
  }

  /** The assessments under way afterwards were under way before. */
  ghost predicate FewerFlights(m: Mem, m': Mem) {
    && (forall o | o in m'.engines && m'.engines[o].Assessing? :: o in m.engines && m'.engines[o] == m.engines[o])
    && (forall a | a in m'.direct :: a in m.direct && m'.direct[a] == m.direct[a])
  }

  lemma FewerIsOne(m: Mem, m': Mem)
    requires OneFlight(m) && FewerFlights(m, m')
    ensures OneFlight(m')
  {}

  lemma DeployFlights(d: Durable, m: Mem, l: DeployLabel)
    requires DeployEnabled(d, m, l)
    ensures FewerFlights(m, PerformDeploy(d, m, l).mem)
  {
    hide SetStatus, DeployFail;
    match l
    case RecordDeploy(o, dep, setup, before, migration, validation) =>
      RecordedEngine(d, m, o, dep, setup, before, migration, validation);
      hide DeployRecord;
    case DeployHealthIs(o, health) =>
      FinishedEngine(d, m, o, health);
      hide DeployFinish;
    case _ =>
  }

  lemma RollFlights(d: Durable, m: Mem, l: RollLabel)
    requires RollEnabled(d, m, l)
    ensures FewerFlights(m, PerformRoll(d, m, l).mem)
  {
    hide RollRun, RollService, RollFinish, RollError, RollActed, RollOpen, SetStatus, PlannedRow;
    if !l.BeginPlan? && !l.CommitPlan? { RollStretchRollsOn(d, m, l); }
  }

  lemma TaskFlights(d: Durable, m: Mem, l: TaskLabel)
    requires TaskEnabled(d, m, l)
    ensures FewerFlights(m, PerformTask(d, m, l).mem)
  {
    hide MayResume, BlockingWork, SetStatus, UnknownJob;
  }

  lemma OpFlights(c: Config, d: Durable, m: Mem, now: Time, l: OpLabel)
    requires OpEnabled(d, m, l)
    ensures FewerFlights(m, PerformOp(c, d, m, now, l).mem)
  {
    match l
    case StartOperation(id, kind, p, t, key, plan) =>
      StartOpMem(c, d, m, now, id, kind, p, t, key, EngineFor(kind, t, plan));
      hide StartOp;
    case FinishOperation(o) =>
    case _ =>
      OpSections(c, d, m, now, l);
      hide PerformOp, OpEnabled;
  }

  lemma JobFlights(c: Config, d: Durable, m: Mem, now: Time, l: JobLabel)
    requires JobEnabled(d, m, l)
    ensures FewerFlights(m, PerformJob(c, d, m, now, l).mem)
  {
    JobSections(c, d, m, now, l);
    hide PerformJob, JobEnabled;
  }

  ghost predicate AssessingLabel(l: Label) { l.OnAssess? }

  lemma OtherFlights(c: Config, d: Durable, m: Mem, now: Time, l: Label)
    requires Enabled(d, m, l) && !AssessingLabel(l)
    ensures FewerFlights(m, Perform(c, d, m, now, l).mem)
  {
    hide FewerFlights, PerformOp, PerformJob, PerformTask, PerformDeploy, PerformRoll, OpEnabled, JobEnabled,
         TaskEnabled, DeployEnabled, RollEnabled;
    match l
    case OnOp(o) => OpFlights(c, d, m, now, o);
    case OnJob(j) => JobFlights(c, d, m, now, j);
    case OnTask(t) => TaskFlights(d, m, t);
    case OnDeploy(e) => DeployFlights(d, m, e);
    case OnRoll(r) => RollFlights(d, m, r);
  }

  // ---------------------------------------------------------------- what each write disturbs

  lemma ChainDisturbs(d: Durable, ws: seq<Durable>, n: nat, reach: Reach)
    requires RowsOk(d) && Chain(d, ws, reach) && n < |ws|
    ensures Undisturbed(d, ws[n], reach.assessed)
  {
    hide RowsOk, Chain, SameDeployments, SameDeployStatus, SamePlans, SameCommands;
    ChainKeeps(d, ws, n, reach);
    forall t | t in d.tasks && Terminal(d.tasks[t].status) ensures t in ws[n].tasks && Terminal(ws[n].tasks[t].status) {
      ChainKeepsTerminal(d, ws, n, reach, t);
    }
  }

  lemma WorkDisturbs(d: Durable, ws: seq<Durable>, n: nat)
    requires WorkChain(d, ws) && n < |ws|
    ensures Undisturbed(d, ws[n], {})
  {
    hide WorkChain, SameUnknown;
    ChainSameEvidence(d, ws, n);
  }

  ghost predicate RunsAfter(d: Durable, s: Stretch, max: nat) {
    RunsInv(Last(d, s.writes), s.mem, max) && forall n | 0 <= n < |s.writes| :: RunsOk(s.writes[n], max)
  }

  /** A stretch that disturbs no numbering and starts no assessment. */
  lemma QuietRuns(d: Durable, m: Mem, s: Stretch, max: nat)
    requires RunsInv(d, m, max) && FewerFlights(m, s.mem) && forall n | 0 <= n < |s.writes| ::
               Undisturbed(d, s.writes[n], {})
    ensures RunsAfter(d, s, max)
  {
    FewerIsOne(m, s.mem);
    hide RunsOk, OneFlight;
    var w := Last(d, s.writes);
    assert Undisturbed(d, w, {});
    FlightsStay(d, w, m, s.mem, max, {});
    hide FlightsOk, FewerFlights, Undisturbed;
    forall n | 0 <= n < |s.writes| ensures RunsOk(s.writes[n], max) { NumbersStay(d, s.writes[n], max); }
    NumbersStay(d, w, max);
  }

  // ---------------------------------------------------------------- assessments

  /** A new assessment takes the next number. */
  lemma NextFlight(d: Durable, w: Durable, max: nat, t: Id, p: Project)
    requires RunsOk(d, max) && AssessOpen(d, max, t, p).Admitted?
    ensures var r := AssessOpen(d, max, t, p);
            r.write.runs == d.runs && t in r.write.tasks && FlightOk(r.write, max, t, r.attempt)
  {
    hide SetStatus, CountRuns;
    assert TaskRunsOk(d, max, t);
  }

  ghost predicate AddsFlight(m: Mem, m': Mem, t: Id, attempt: nat) {
    && (forall o | o in m'.engines && m'.engines[o].Assessing? ::
         (o in m.engines && m'.engines[o] == m.engines[o]) || m'.engines[o] == Assessing(t, attempt))
    && (forall a | a in m'.direct :: (a in m.direct && m'.direct[a] == m.direct[a])
         || m'.direct[a] == Assessment(t, attempt))
  }

  lemma FlightAdded(d: Durable, w: Durable, m: Mem, m': Mem, max: nat, t: Id, attempt: nat)
    requires FlightsOk(d, m, max) && Undisturbed(d, w, {}) && AddsFlight(m, m', t, attempt)
             && FlightOk(w, max, t, attempt)
    ensures FlightsOk(w, m', max)
  {
    forall o | o in m'.engines && m'.engines[o].Assessing?
      ensures FlightOk(w, max, m'.engines[o].task, m'.engines[o].attempt)
    {
      if o in m.engines && m'.engines[o] == m.engines[o] {
        assert FlightOk(d, max, m.engines[o].task, m.engines[o].attempt);
        SameNumbers(d.runs, w.runs, m.engines[o].task, m.engines[o].attempt - 1);
      }
    }
    forall a | a in m'.direct ensures FlightOk(w, max, m'.direct[a].task, m'.direct[a].attempt) {
      if a in m.direct && m'.direct[a] == m.direct[a] {
        assert FlightOk(d, max, m.direct[a].task, m.direct[a].attempt);
        SameNumbers(d.runs, w.runs, m.direct[a].task, m.direct[a].attempt - 1);
      }
    }
  }

  lemma OpenedRuns(c: Config, d: Durable, m: Mem, s: Stretch, t: Id, p: Project)
    requires RunsInv(d, m, c.maxAttempts) && OneFlight(s.mem) && AssessOpen(d, c.maxAttempts, t, p).Admitted?
    requires s.writes == [AssessOpen(d, c.maxAttempts, t, p).write] && Undisturbed(d, s.writes[0], {})
    requires AddsFlight(m, s.mem, t, AssessOpen(d, c.maxAttempts, t, p).attempt)
    ensures RunsAfter(d, s, c.maxAttempts)
  {
    NextFlight(d, s.writes[0], c.maxAttempts, t, p);
    hide OneFlight, AssessOpen, Undisturbed, AddsFlight, RunsOk, FlightsOk;
    var r := AssessOpen(d, c.maxAttempts, t, p);
    FlightAdded(d, r.write, m, s.mem, c.maxAttempts, t, r.attempt);
    NumbersStay(d, r.write, c.maxAttempts);
  }

  lemma AdmittedIsHere(d: Durable, max: nat, t: Id, p: Project)
    requires AssessOpen(d, max, t, p).Admitted?
    ensures t in d.tasks && d.tasks[t].project == p
  {}

  lemma AssessBeginRuns(c: Config, d: Durable, m: Mem, o: Id)
    requires RowsOk(d) && RunsInv(d, m, c.maxAttempts) && o in m.engines && m.engines[o].ToAssess? && o in m.sections
             && !Overlaps(d, m, m.engines[o].task, m.sections[o].project)
    requires Chain(d, AssessBegin(c, d, m, o).writes, NOTHING)
    ensures RunsAfter(d, AssessBegin(c, d, m, o), c.maxAttempts)
  {
    var t, p, s := m.engines[o].task, m.sections[o].project, AssessBegin(c, d, m, o);
    hide RowsOk, Chain, AssessOpen, Undisturbed, RunsOk, FlightsOk;
    forall n | 0 <= n < |s.writes| ensures Undisturbed(d, s.writes[n], {}) { ChainDisturbs(d, s.writes, n, NOTHING); }
    var r := AssessOpen(d, c.maxAttempts, t, p);
    if r.Declined? {
      assert s == Stretch(r.writes, At(m, o, Returned(false)));
      hide AssessBegin;
      QuietRuns(d, m, s, c.maxAttempts);
      return;
    }
    assert s == Stretch([r.write], At(m, o, Assessing(t, r.attempt)));
    AdmittedIsHere(d, c.maxAttempts, t, p);
    hide AssessBegin;
    OneMoreFlight(m, o, t, r.attempt);
    hide OneFlight, AddsFlight;
    OpenedRuns(c, d, m, s, t, p);
  }

  lemma OneMoreFlight(m: Mem, o: Id, t: Id, attempt: nat)
    requires OneFlight(m) && o in m.engines && !AssessingTask(m, t)
    ensures OneFlight(At(m, o, Assessing(t, attempt))) && AddsFlight(m, At(m, o, Assessing(t, attempt)), t, attempt)
  {}

  lemma DirectBeginRuns(c: Config, d: Durable, m: Mem, id: Id, t: Id, p: Project)
    requires RowsOk(d) && RunsInv(d, m, c.maxAttempts) && !Overlaps(d, m, t, p) && id !in m.direct
    requires Chain(d, DirectBegin(c, d, m, id, t, p).writes, NOTHING)
    ensures RunsAfter(d, DirectBegin(c, d, m, id, t, p), c.maxAttempts)
  {
    var s := DirectBegin(c, d, m, id, t, p);
    hide RowsOk, Chain, AssessOpen, Undisturbed, RunsOk, FlightsOk;
    forall n | 0 <= n < |s.writes| ensures Undisturbed(d, s.writes[n], {}) { ChainDisturbs(d, s.writes, n, NOTHING); }
    match AssessOpen(d, c.maxAttempts, t, p)
    case Declined(ws) => QuietRuns(d, m, s, c.maxAttempts);
    case Admitted(w, attempt) =>
      AdmittedIsHere(d, c.maxAttempts, t, p);
      OpenedRuns(c, d, m, s, t, p);
  }

  /** The rest of an assessment records its own number and no other. */
  lemma ClosedRuns(d: Durable, now: Time, t: Id, attempt: nat, verdict: Verdict, n: nat)
    requires n < |AssessClose(d, now, t, attempt, verdict).writes|
    ensures AssessClose(d, now, t, attempt, verdict).writes[n].runs.Keys == d.runs.Keys + {RunId(t, attempt)}
  {
    hide SetStatus;
  }

  lemma NumberTaken(d: Durable, w: Durable, max: nat, t: Id, attempt: nat)
    requires RunsOk(d, max) && FlightOk(d, max, t, attempt) && Undisturbed(d, w, {t})
             && w.runs.Keys == d.runs.Keys + {RunId(t, attempt)}
    ensures RunsOk(w, max)
  {
    forall u | u in w.tasks && !Terminal(w.tasks[u].status) ensures TaskRunsOk(w, max, u) {
      if u == t {
        assert Numbered(w.runs, t, attempt);
        CountIsMax(w.runs, t, attempt);
      } else if u in d.tasks {
        assert TaskRunsOk(d, max, u);
        SameNumbers(d.runs, w.runs, u, CountRuns(d.runs, u));
      } else {
        assert Numbered(w.runs, u, 0);
        CountIsMax(w.runs, u, 0);
      }
    }
  }

  /** The end of an assessment: its own flight lands, the others fly on. */
  lemma FlightLands(d: Durable, m: Mem, s: Stretch, max: nat, now: Time, t: Id, attempt: nat, verdict: Verdict)
    requires RowsOk(d) && RunsInv(d, m, max) && FlightOk(d, max, t, attempt) && FewerFlights(m, s.mem)
    requires s.writes == AssessClose(d, now, t, attempt, verdict).writes && Chain(d, s.writes, Reach({}, {}, {}, {t}))
    requires forall o | o in s.mem.engines && s.mem.engines[o].Assessing? :: s.mem.engines[o].task != t
    requires forall a | a in s.mem.direct :: s.mem.direct[a].task != t
    ensures RunsAfter(d, s, max)
  {
    FewerIsOne(m, s.mem);
    LandedRuns(d, s.writes, max, now, t, attempt, verdict);
    SameUndisturbed(d, {t});
    LandedFlights(d, m, s, max, t);
    hide *;
    RunsAfterIs(d, s, max);
  }

  lemma LandedFlights(d: Durable, m: Mem, s: Stretch, max: nat, t: Id)
    requires FlightsOk(d, m, max) && FewerFlights(m, s.mem) && Undisturbed(d, Last(d, s.writes), {t})
    requires forall o | o in s.mem.engines && s.mem.engines[o].Assessing? :: s.mem.engines[o].task != t
    requires forall a | a in s.mem.direct :: s.mem.direct[a].task != t
    ensures FlightsOk(Last(d, s.writes), s.mem, max)
  {
    hide FlightsOk, Undisturbed;
    FlightsStay(d, Last(d, s.writes), m, s.mem, max, {t});
  }

  lemma RunsAfterIs(d: Durable, s: Stretch, max: nat)
    requires RunsOk(d, max) && OneFlight(s.mem) && FlightsOk(Last(d, s.writes), s.mem, max)
    requires forall n | 0 <= n < |s.writes| :: RunsOk(s.writes[n], max)
    ensures RunsAfter(d, s, max)
  {
    hide RunsOk, OneFlight, FlightsOk;
  }

  lemma LandedRuns(d: Durable, ws: seq<Durable>, max: nat, now: Time, t: Id, attempt: nat, verdict: Verdict)
    requires RowsOk(d) && RunsOk(d, max) && FlightOk(d, max, t, attempt)
    requires ws == AssessClose(d, now, t, attempt, verdict).writes && Chain(d, ws, Reach({}, {}, {}, {t}))
    ensures forall n | 0 <= n < |ws| :: RunsOk(ws[n], max) && Undisturbed(d, ws[n], {t})
  {
    hide RowsOk, Chain, AssessClose, RunsOk, Undisturbed, FlightOk;
    forall n | 0 <= n < |ws| ensures RunsOk(ws[n], max) && Undisturbed(d, ws[n], {t}) {
      ChainDisturbs(d, ws, n, Reach({}, {}, {}, {t}));
      ClosedRuns(d, now, t, attempt, verdict, n);
      NumberTaken(d, ws[n], max, t, attempt);
    }
  }

  lemma SameUndisturbed(d: Durable, assessed: set<Id>)
    ensures Undisturbed(d, d, assessed)
  {}

  lemma AssessEndRuns(c: Config, d: Durable, m: Mem, now: Time, o: Id, verdict: Verdict)
    requires RowsOk(d) && RunsInv(d, m, c.maxAttempts) && o in m.engines && m.engines[o].Assessing?
    requires Chain(d, AssessEnd(d, m, now, o, verdict).writes, Reach({}, {}, {}, {m.engines[o].task}))
    ensures RunsAfter(d, AssessEnd(d, m, now, o, verdict), c.maxAttempts)
  {
    hide RowsOk, Chain, AssessClose, RunsOk, FlightOk;
    FlightLands(d, m, AssessEnd(d, m, now, o, verdict), c.maxAttempts, now, m.engines[o].task, m.engines[o].attempt,
        verdict);
  }

  lemma DirectEndRuns(c: Config, d: Durable, m: Mem, now: Time, id: Id, verdict: Verdict)
    requires RowsOk(d) && RunsInv(d, m, c.maxAttempts) && id in m.direct
    requires Chain(d, DirectEnd(d, m, now, id, verdict).writes, Reach({}, {}, {}, {m.direct[id].task}))
    ensures RunsAfter(d, DirectEnd(d, m, now, id, verdict), c.maxAttempts)
  {
    hide RowsOk, Chain, AssessClose, RunsOk, FlightOk;
    FlightLands(d, m, DirectEnd(d, m, now, id, verdict), c.maxAttempts, now, m.direct[id].task, m.direct[id].attempt,
        verdict);
  }

  lemma AssessRuns(c: Config, d: Durable, m: Mem, now: Time, l: AssessLabel)
    requires RowsOk(d) && RunsInv(d, m, c.maxAttempts) && AssessEnabled(d, m, l)
    requires Chain(d, PerformAssess(c, d, m, now, l).writes, ReachOf(m, OnAssess(l)))
    ensures RunsAfter(d, PerformAssess(c, d, m, now, l), c.maxAttempts)
  {
    hide RowsOk, RunsInv, RunsAfter, Chain, AssessBegin, AssessEnd, DirectBegin, DirectEnd;
    match l
    case BeginAssess(o) => AssessBeginRuns(c, d, m, o);
    case EndAssess(o, verdict) => AssessEndRuns(c, d, m, now, o, verdict);
    case BeginDirect(id, t, p) => DirectBeginRuns(c, d, m, id, t, p);
    case EndDirect(id, verdict) => DirectEndRuns(c, d, m, now, id, verdict);
  }

  /** Every stretch keeps the numbering in every state it writes. */
  lemma RunsStep(c: Config, d: Durable, m: Mem, now: Time, l: Label)
    requires RowsOk(d) && RunsInv(d, m, c.maxAttempts) && Enabled(d, m, l)
    requires if EngineLabel(l) then Chain(d, Perform(c, d, m, now, l).writes, ReachOf(m, l))
             else WorkChain(d, Perform(c, d, m, now, l).writes)
    ensures RunsAfter(d, Perform(c, d, m, now, l), c.maxAttempts)
  {
    var s := Perform(c, d, m, now, l);
    if l.OnAssess? {
      hide RowsOk, RunsInv, RunsAfter, Chain, WorkChain, ReachOf, AssessEnabled, PerformAssess;
      AssessRuns(c, d, m, now, l.a);
    } else {
      assert ReachOf(m, l).assessed == {};
      OtherFlights(c, d, m, now, l);
      hide *;
      forall n | 0 <= n < |s.writes| ensures Undisturbed(d, s.writes[n], {}) {
        if EngineLabel(l) { ChainDisturbs(d, s.writes, n, ReachOf(m, l)); } else { WorkDisturbs(d, s.writes, n); }
      }
      QuietRuns(d, m, s, c.maxAttempts);
    }
  }

  /** Retention of runs only touches terminal tasks. */
  lemma PruningKeepsNumbers(d: Durable, max: nat, cutoff: Time)
    requires RunsOk(d, max)
    ensures RunsOk(d.(runs := PruneRuns(d, cutoff)), max)
  {
    var w := d.(runs := PruneRuns(d, cutoff));
    forall t | t in w.tasks && !Terminal(w.tasks[t].status) ensures TaskRunsOk(w, max, t) {
      assert TaskRunsOk(d, max, t);
      SameNumbers(d.runs, w.runs, t, CountRuns(d.runs, t));
    }
  }
}
