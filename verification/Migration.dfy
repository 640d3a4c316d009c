/** Migration evidence and the rollback safety verdict drawn from it. */
module Migration {

  /** One field of the JSON value an adapter or a stored record supplies. */
  datatype Field = Missing | Null | Flag(flag: bool) | Text(text: string) | Number(number: int) | Other

  datatype Raw = NotAnObject | Object(known: Field, system: Field, current: Field, pending: Field)

  datatype Safety = Safe | ManualRequired | Blocked

  const EMPTY := Object(Missing, Missing, Missing, Missing)

  function TextOrNull(f: Field): Field { if f.Text? then f else Null }
  function NumberOrNull(f: Field): Field { if f.Number? then f else Null }

  function Snapshot(raw: Raw): Raw {
    if raw.NotAnObject? then EMPTY
    else Object(Flag(raw.known == Flag(true)), TextOrNull(raw.system), TextOrNull(raw.current),
        NumberOrNull(raw.pending))
  }

  predicate Known(raw: Raw) { raw.Object? && raw.known == Flag(true) }

  function Assess(noAdapter: bool, beforeValue: Raw, currentValue: Raw): Safety {
    if noAdapter then Safe
    else
      var before, current := Snapshot(beforeValue), Snapshot(currentValue);
      if before.known != Flag(true) || current.known != Flag(true) then ManualRequired
      else if before.system != current.system then Blocked
      else if before.current != current.current then ManualRequired
      else Safe
  }

  /** The `before` an assessment records in the plan. */
  function Recorded(noAdapter: bool, beforeValue: Raw): Raw { if noAdapter then EMPTY else Snapshot(beforeValue) }

  predicate SameVersion(a: Raw, b: Raw) {
    a.Object? && b.Object? && TextOrNull(a.system) == TextOrNull(b.system)
      && TextOrNull(a.current) == TextOrNull(b.current)
  }

  predicate SameIfKnown(a: Raw, b: Raw) { Known(a) ==> Known(b) && SameVersion(a, b) }

  /** What the verdict means, read off the raw evidence. */
  lemma SafeMeansSameKnownVersion(noAdapter: bool, before: Raw, current: Raw)
    ensures Assess(noAdapter, before, current) == Safe <==>
            noAdapter || (Known(before) && Known(current) && SameVersion(before, current))
    ensures Assess(noAdapter, before, current) == Blocked <==>
            !noAdapter && Known(before) && Known(current) && TextOrNull(before.system) != TextOrNull(current.system)
  {
    assert Snapshot(before).known == Flag(true) <==> Known(before);
    assert Snapshot(current).known == Flag(true) <==> Known(current);
  }

  /** The plan stores a snapshot and execution snapshots it again. The second snapshot is the
      first exactly when the evidence was an object; it never changes the verdict. */
  lemma SnapshotTwice(raw: Raw, noAdapter: bool, current: Raw)
    ensures Snapshot(Snapshot(raw)) == Snapshot(raw) <==> raw.Object?
    ensures Assess(noAdapter, Snapshot(raw), current) == Assess(noAdapter, raw, current)
    ensures !noAdapter ==> Assess(false, Recorded(noAdapter, raw), current) == Assess(false, raw, current)
  {
    if raw.Object? { assert Snapshot(raw).known == Flag(true) <==> raw.known == Flag(true); }
  }
}
