/** What the engine stretches leave alone: keys, work rows and leased sections. */
module Frame {
  import opened Store
  import opened Runtime
  import opened Agent

  /** Stretches of the task engine and of the three workflow engines. */
  predicate EngineLabel(l: Label) { !l.OnOp? && !l.OnJob? }

  ghost predicate SameWork(d: Durable, w: Durable) {
    w.keys == d.keys && w.begun == d.begun && w.outcomes == d.outcomes && w.ops == d.ops && w.jobs == d.jobs
  }

  ghost predicate SameWorkAll(d: Durable, writes: seq<Durable>) { forall w | w in writes :: SameWork(d, w) }

  ghost predicate SameSections(m: Mem, m': Mem) {
    m'.sections == m.sections && m'.stopping == m.stopping && m'.instance == m.instance
  }

  /** A stretch of an engine: it changes no key, no work row and no section. */
  ghost predicate EngineOnly(d: Durable, m: Mem, s: Stretch) { SameWorkAll(d, s.writes) && SameSections(m, s.mem) }
}
