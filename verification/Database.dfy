/** The SQLite connection the agent's classes share: one field a table, one method a statement.
    The journal is ghost: the state after each statement, so a crash can expose any of them. */
module Database {
  import opened Prelude
  import opened KeyTable
  import opened Store
  import opened Runtime

  class StateDb {
    var projects: set<Project>
    var keys: Table
    var ops: map<Id, OpRow>
    var jobs: map<Id, JobRow>
    var tasks: map<Id, TaskRow>
    var runs: map<RunId, RunRow>
    var deployments: map<Id, DeployRow>
    var plans: map<Id, PlanRow>
    ghost var begun: map<KeyId, nat>
    ghost var outcomes: map<KeyId, Option<string>>
    ghost var commands: map<Id, seq<Check>>
    ghost var journal: seq<Durable>

    ghost function Contents(): Durable
      reads this
    {
      Durable(projects, keys, ops, jobs, tasks, runs, deployments, plans, begun, outcomes, commands)
    }

    /** The statements since the old state are exactly `writes`. */
    twostate predicate Wrote(writes: seq<Durable>)
      reads this
    {
      journal == old(journal) + writes && Contents() == Last(old(Contents()), writes)
    }

    constructor ()
      ensures Contents() == Durable({}, map[], map[], map[], map[], map[], map[], map[], map[], map[], map[])
      ensures journal == []
    {
      projects, keys, ops, jobs, tasks := {}, map[], map[], map[], map[];
      runs, deployments, plans := map[], map[], map[];
      begun, outcomes, commands, journal := map[], map[], map[], [];
    }

    /** INSERT into projects; a row that is there already, archived or not, refuses it. */
    method InsertProject(p: Project) returns (ok: bool)
      modifies this
      ensures ok <==> p !in old(projects)
      ensures Wrote(if ok then [old(Contents()).(projects := old(projects) + {p})] else [])
    {
      ok := p !in projects;
      if ok {
        projects := projects + {p};
        journal := journal + [Contents()];
      }
    }

    method PutKey(k: KeyId, row: Row)
      modifies this
      ensures Wrote([SetKeys(old(Contents()), old(keys)[k := row])])
    {
      keys := keys[k := row];
      journal := journal + [Contents()];
    }

    /** DELETE of one row, guarded by its fingerprint; the number of rows deleted. */
    method DeleteKey(k: KeyId, fp: Fingerprint) returns (changes: nat)
      modifies this
      ensures changes == if k in old(keys) && old(keys)[k].fingerprint == fp then 1 else 0
      ensures Wrote([SetKeys(old(Contents()), if changes == 1 then old(keys) - {k} else old(keys))])
    {
      changes := 0;
      if k in keys && keys[k].fingerprint == fp {
        keys := keys - {k};
        changes := 1;
      }
      journal := journal + [Contents()];
    }

    method DeleteKeysBefore(cutoff: Time) returns (changes: nat)
      modifies this
      ensures keys == Prune(old(keys), cutoff) && changes == |old(keys)| - |keys|
      ensures Wrote([old(Contents()).(keys := keys, begun := map k | k in old(begun) && k in keys :: old(begun)[k],
                outcomes := map k | k in old(outcomes) && k in keys :: old(outcomes)[k])])
    {
      var kept := Prune(keys, cutoff);
      KeptIsFewer(keys, kept);
      changes := |keys| - |kept|;
      keys := kept;
      begun := map k | k in begun && k in kept :: begun[k];
      outcomes := map k | k in outcomes && k in kept :: outcomes[k];
      journal := journal + [Contents()];
    }

    /** INSERT; refused when the foreign key names no task. */
    method InsertOp(o: Id, row: OpRow) returns (ok: bool)
      modifies this
      ensures ok <==> row.task in old(tasks)
      ensures ok ==> Wrote([old(Contents()).(ops := old(ops)[o := row])])
      ensures !ok ==> Wrote([])
    {
      ok := row.task in tasks;
      if ok {
        ops := ops[o := row];
        journal := journal + [Contents()];
      }
    }

    method UpdateOp(o: Id, row: OpRow)
      requires o in ops
      modifies this
      ensures Wrote([old(Contents()).(ops := old(ops)[o := row])])
    {
      ops := ops[o := row];
      journal := journal + [Contents()];
    }

    method PutJob(j: Id, row: JobRow)
      modifies this
      ensures Wrote([old(Contents()).(jobs := old(jobs)[j := row])])
    {
      jobs := jobs[j := row];
      journal := journal + [Contents()];
    }

    method PutTask(t: Id, row: TaskRow)
      modifies this
      ensures Wrote([old(Contents()).(tasks := old(tasks)[t := row])])
    {
      tasks := tasks[t := row];
      journal := journal + [Contents()];
    }

    /** INSERT into recovery_runs; UNIQUE(task, attempt) refuses a second row. */
    method InsertRun(r: RunId, row: RunRow) returns (ok: bool)
      modifies this
      ensures ok <==> r !in old(runs)
      ensures ok ==> Wrote([old(Contents()).(runs := old(runs)[r := row])])
      ensures !ok ==> Wrote([])
    {
      ok := r !in runs;
      if ok {
        runs := runs[r := row];
        journal := journal + [Contents()];
      }
    }

    method UpdateRun(r: RunId, row: RunRow)
      requires r in runs
      modifies this
      ensures Wrote([old(Contents()).(runs := old(runs)[r := row])])
    {
      runs := runs[r := row];
      journal := journal + [Contents()];
    }

    method PutDeployment(dep: Id, row: DeployRow)
      modifies this
      ensures Wrote([old(Contents()).(deployments := old(deployments)[dep := row])])
    {
      deployments := deployments[dep := row];
      journal := journal + [Contents()];
    }

    method PutPlan(p: Id, row: PlanRow)
      modifies this
      ensures Wrote([old(Contents()).(plans := old(plans)[p := row])])
    {
      plans := plans[p := row];
      journal := journal + [Contents()];
    }

    /** UPDATE ... SET over many rows. */
    method ReplaceOps(rows: map<Id, OpRow>)
      modifies this
      ensures Wrote([old(Contents()).(ops := rows)])
    {
      ops := rows;
      journal := journal + [Contents()];
    }

    method ReplaceJobs(rows: map<Id, JobRow>)
      modifies this
      ensures Wrote([old(Contents()).(jobs := rows)])
    {
      jobs := rows;
      journal := journal + [Contents()];
    }

    method ReplaceTasks(rows: map<Id, TaskRow>)
      modifies this
      ensures Wrote([old(Contents()).(tasks := rows)])
    {
      tasks := rows;
      journal := journal + [Contents()];
    }

    method ReplaceRuns(rows: map<RunId, RunRow>)
      modifies this
      ensures Wrote([old(Contents()).(runs := rows)])
    {
      runs := rows;
      journal := journal + [Contents()];
    }

    /** History: the effect behind a key begins. */
    ghost method EffectBegins(k: KeyId)
      modifies this
      ensures Wrote([BeginEffect(old(Contents()), k)])
    {
      begun := Bump(begun, k);
      journal := journal + [Contents()];
    }

    /** History: a guarded effect ends. */
    ghost method EffectEnds(k: KeyId, result: Option<string>)
      modifies this
      ensures Wrote([EndEffect(old(Contents()), k, result)])
    {
      outcomes := outcomes[k := result];
      journal := journal + [Contents()];
    }

    /** History: a plan's rollback command runs after this check. */
    ghost method CommandRuns(p: Id, seen: Check)
      modifies this
      ensures Wrote([old(Contents()).(commands := old(commands)[p := (if p in old(commands) then old(commands)[p]
                else []) + [seen]])])
    {
      commands := commands[p := (if p in commands then commands[p] else []) + [seen]];
      journal := journal + [Contents()];
    }

    /** A statement left out because the row already is as it would leave it. */
    ghost method Skips()
      modifies this`journal
      ensures Wrote([old(Contents())])
    {
      journal := journal + [Contents()];
    }
  }

  /** Statements after statements. */
  lemma Then(journal: seq<Durable>, d: Durable, first: seq<Durable>, second: seq<Durable>)
    ensures (journal + first) + second == journal + (first + second)
    ensures Last(Last(d, first), second) == Last(d, first + second)
  {}

  lemma KeptIsFewer(t: Table, kept: Table)
    requires kept.Keys <= t.Keys
    ensures |kept| <= |t|
  {
    SubsetSize(kept.Keys, t.Keys);
  }
}
