/** The write lock of the file service, a chain of promises per path, and the compare-and-swap edit
    it protects. Other processes may write the same files at any time. */
module FileService {
  import opened Prelude

  type Path = string
  type Ticket = nat

  // ---------------------------------------------------------------- one edit

  predicate Occurs(s: string, at: int, text: string) { 0 <= at && at + |text| <= |s| && s[at..at + |text|] == text }

  /** `indexOf(text, from)`. */
  function IndexOf(s: string, text: string, from: nat): (r: int)
    ensures r == -1 || (r >= from && Occurs(s, r, text))
    ensures forall k | from <= k && (r < 0 || k < r) :: !Occurs(s, k, text)
    decreases |s| - from
  {
    if from + |text| > |s| then -1
    else if s[from..from + |text|] == text then from
    else IndexOf(s, text, from + 1)
  }

  datatype EditError = TooLarge | Changed | NotFound | NotUnique

  datatype Plan = Refused(error: EditError) | Accepted(next: string)

  function Replaced(s: string, at: int, length: nat, replacement: string): string
    requires 0 <= at && at + length <= |s|
  {
    s[..at] + replacement + s[at + length..]
  }

  /** What `editFile` makes of the content it reads: `matches` says that a content has the hash the
      caller supplied, `fits` that its bytes are within the configured limit. */
  function PlanEdit(content: string, matches: string -> bool, fits: string -> bool, expected: string,
          replacement: string): Plan
    requires expected != []
  {
    if !fits(content) then Refused(TooLarge)
    else if !matches(content) then Refused(Changed)
    else
      var first := IndexOf(content, expected, 0);
      if first < 0 then Refused(NotFound)
      else if IndexOf(content, expected, first + |expected|) >= 0 then Refused(NotUnique)
      else
        var next := Replaced(content, first, |expected|, replacement);
        if fits(next) then Accepted(next) else Refused(TooLarge)
  }

  /** The text occurs, and wherever it does it begins within the first occurrence. */
  ghost predicate FoundOnce(content: string, text: string) {
    var first := IndexOf(content, text, 0);
    first >= 0 && forall k :: Occurs(content, k, text) ==> first <= k < first + |text|
  }

  lemma FoundOnceIff(content: string, text: string)
    ensures var first := IndexOf(content, text, 0);
            FoundOnce(content, text) <==> first >= 0 && IndexOf(content, text, first + |text|) < 0
  {
    assert forall k :: Occurs(content, k, text) ==> 0 <= k;
    hide IndexOf, Occurs;
  }

  /** An edit is accepted exactly when what is read has the right hash, the sizes fit and the text
      is found once, other occurrences overlapping the first not counted: exactly these the
      uniqueness check does not see. The edit replaces the first, and behind it there is no other. */
  lemma AcceptedEdit(content: string, matches: string -> bool, fits: string -> bool, expected: string,
          replacement: string)
    requires expected != []
    ensures var plan, first := PlanEdit(content, matches, fits, expected, replacement), IndexOf(content, expected, 0);
            plan.Accepted? <==>
              && fits(content) && matches(content) && FoundOnce(content, expected)
              && fits(Replaced(content, first, |expected|, replacement))
    ensures var plan, first := PlanEdit(content, matches, fits, expected, replacement), IndexOf(content, expected, 0);
            plan.Accepted? ==>
              && plan.next == content[..first] + replacement + content[first + |expected|..]
              && IndexOf(content[first + |expected|..], expected, 0) == -1
  {
    hide IndexOf, Occurs, FoundOnce, Replaced;
    FoundOnceIff(content, expected);
    if IndexOf(content, expected, 0) >= 0 { FoundSplits(content, expected, replacement); }
  }

  /** Why an edit is refused, and in which order the reasons count. */
  lemma RefusedEdit(content: string, matches: string -> bool, fits: string -> bool, expected: string,
          replacement: string)
    requires expected != []
    ensures
      var plan, first := PlanEdit(content, matches, fits, expected, replacement), IndexOf(content, expected, 0);
      && (plan == Refused(Changed) <==> fits(content) && !matches(content))
      && (plan == Refused(NotFound) <==>
           fits(content) && matches(content) && forall k :: !Occurs(content, k, expected))
      && (plan == Refused(NotUnique) <==>
           fits(content) && matches(content) && first >= 0 && !FoundOnce(content, expected))
      && (plan == Refused(TooLarge) <==>
           !fits(content) || (matches(content) && FoundOnce(content, expected)
                               && !fits(Replaced(content, first, |expected|, replacement))))
  {
    FoundOnceIff(content, expected);
    var first := IndexOf(content, expected, 0);
    if first >= 0 {
      assert Occurs(content, first, expected);
    } else {
      assert forall k :: 0 <= k ==> !Occurs(content, k, expected);
      assert forall k :: k < 0 ==> !Occurs(content, k, expected);
    }
    hide IndexOf, Occurs, FoundOnce, Replaced;
  }

  lemma FoundSplits(content: string, text: string, replacement: string)
    requires IndexOf(content, text, 0) >= 0
    ensures var first := IndexOf(content, text, 0);
            && first + |text| <= |content|
            && Replaced(content, first, |text|, replacement) ==
               content[..first] + replacement + content[first + |text|..]
            && (IndexOf(content, text, first + |text|) < 0 <==> IndexOf(content[first + |text|..], text, 0) == -1)
  {
    hide IndexOf, Occurs;
    OccursFits(content, IndexOf(content, text, 0), text);
    SuffixSearch(content, text, IndexOf(content, text, 0) + |text|);
  }

  lemma OccursFits(s: string, at: int, text: string)
    requires Occurs(s, at, text)
    ensures 0 <= at && at + |text| <= |s|
  {}

  lemma OccursInSuffix(s: string, text: string, from: nat, k: int)
    requires from <= |s| && k >= 0
    ensures Occurs(s[from..], k, text) <==> Occurs(s, from + k, text)
  {
    if k + |text| <= |s| - from { assert s[from..][k..k + |text|] == s[from + k..from + k + |text|]; }
  }

  /** Searching from a position is searching the suffix. */
  lemma SuffixSearch(s: string, text: string, from: nat)
    requires from <= |s|
    ensures IndexOf(s, text, from) < 0 <==> IndexOf(s[from..], text, 0) < 0
  {
    var a, b := IndexOf(s, text, from), IndexOf(s[from..], text, 0);
    if a >= 0 { OccursInSuffix(s, text, from, a - from); }
    if b >= 0 { OccursInSuffix(s, text, from, b); }
    hide IndexOf, Occurs;
  }

  function Anything(content: string): bool { true }

  /** An overlapping second occurrence passes for unique. */
  lemma OverlapIsAccepted()
    ensures Occurs("aaa", 0, "aa") && Occurs("aaa", 1, "aa")
    ensures PlanEdit("aaa", Anything, Anything, "aa", "b") == Accepted("ba")
  {
    assert "aaa"[0..2] == "aa" && "aaa"[1..3] == "aa";
    assert IndexOf("aaa", "aa", 0) == 0 && IndexOf("aaa", "aa", 2) == -1;
    assert Replaced("aaa", 0, 2, "b") == "ba";
  }

  /** No proper prefix of the text is also its suffix. */
  predicate Borderless(text: string) { forall n | 0 < n < |text| :: text[n..] != text[..|text| - n] }

  ghost predicate OnlyAt(content: string, text: string, at: int) { forall k :: Occurs(content, k, text) ==> k == at }

  /** Acceptance means that the expected text is unique in the content, whatever that is. */
  ghost predicate AcceptanceMeansUnique(expected: string)
    requires expected != []
  {
    forall content, matches, fits, replacement |
      PlanEdit(content, matches, fits, expected, replacement).Accepted? ::
      OnlyAt(content, expected, IndexOf(content, expected, 0))
  }

  /** Two occurrences that overlap make a border. */
  lemma OverlapIsBorder(content: string, text: string, first: int, k: int)
    requires Occurs(content, first, text) && Occurs(content, k, text) && first < k < first + |text|
    ensures !Borderless(text)
  {
    var n := k - first;
    assert text[n..] == content[first..first + |text|][n..] == content[k..first + |text|];
    assert text[..|text| - n] == content[k..k + |text|][..|text| - n] == content[k..first + |text|];
  }

  /** A text with a border, put behind its own first letters, overlaps itself and is accepted. */
  lemma BorderOverlaps(expected: string, n: nat)
    requires 0 < n < |expected| && expected[n..] == expected[..|expected| - n]
    ensures var content := expected[..n] + expected;
            && Occurs(content, 0, expected) && Occurs(content, n, expected)
            && PlanEdit(content, Anything, Anything, expected, "").Accepted? && IndexOf(content, expected, 0) == 0
  {
    var content := expected[..n] + expected;
    assert content[n..n + |expected|] == expected;
    assert content[0..|expected|] == expected[..n] + expected[..|expected| - n]
           == expected[..n] + expected[n..] == expected;
    assert Occurs(content, 0, expected) && Occurs(content, n, expected);
  }

  /** Exactly when the check of `editFile` means what its error message says, for every content:
      the expected text has no border. A caller can look before the call. */
  lemma UniqueIff(expected: string)
    requires expected != []
    ensures AcceptanceMeansUnique(expected) <==> Borderless(expected)
  {
    if Borderless(expected) {
      forall content, matches, fits, replacement, k |
        PlanEdit(content, matches, fits, expected, replacement).Accepted? && Occurs(content, k, expected)
        ensures k == IndexOf(content, expected, 0)
      {
        AcceptedEdit(content, matches, fits, expected, replacement);
        var first := IndexOf(content, expected, 0);
        if first < k { OverlapIsBorder(content, expected, first, k); }
      }
    } else {
      var n :| 0 < n < |expected| && expected[n..] == expected[..|expected| - n];
      BorderOverlaps(expected, n);
      assert !OnlyAt(expected[..n] + expected, expected, 0);
    }
  }

  // ---------------------------------------------------------------- the lock

  /** Where a call is: waiting for the one before it, inside, past its read (with what it read and
      what it will write), past its second read, or over. */
  datatype Stage = Waiting | Inside | Planned(base: string, next: string) | Checked(base: string, next: string) | Over

  datatype Call = Call(path: Path, previous: Option<Ticket>, stage: Stage)

  predicate Busy(s: Stage) { !s.Waiting? && !s.Over? }

  /** History: the calls of a path in arrival order, how many of them are over, the place of each. */
  datatype Books = Books(arrived: map<Path, seq<Ticket>>, served: map<Path, nat>, place: map<Ticket, nat>)

  type Calls = map<Ticket, Call>

  /** The call at place i of path p: over before the turn, waiting after it; it waits for the one in
      front, or found nobody there. */
  ghost predicate InOrder(calls: Calls, b: Books, limit: Ticket, p: Path, i: nat)
    requires p in b.arrived && p in b.served && i < |b.arrived[p]|
  {
    var t := b.arrived[p][i];
    && t in calls && t < limit && t in b.place && b.place[t] == i
    && calls[t].path == p
    && (i < b.served[p] ==> calls[t].stage.Over?)
    && (i == b.served[p] ==> !calls[t].stage.Over?)
    && (i > b.served[p] ==> calls[t].stage.Waiting?)
    && (if calls[t].previous.None? then i <= b.served[p] else i > 0 && calls[t].previous.value == b.arrived[p][i - 1])
  }

  ghost predicate Listed(calls: Calls, b: Books, t: Ticket)
    requires t in calls
  {
    && calls[t].path in b.arrived && t in b.place && b.place[t] < |b.arrived[calls[t].path]|
    && b.arrived[calls[t].path][b.place[t]] == t
  }

  ghost predicate BooksOk(calls: Calls, b: Books, limit: Ticket) {
    && b.arrived.Keys == b.served.Keys
    && (forall p | p in b.arrived :: b.served[p] <= |b.arrived[p]|)
    && (forall p, i | p in b.arrived && 0 <= i < |b.arrived[p]| :: InOrder(calls, b, limit, p, i))
    && (forall t | t in calls :: Listed(calls, b, t))
  }

  ghost predicate LocksOk(locks: map<Path, Ticket>, b: Books)
    requires b.arrived.Keys == b.served.Keys
  {
    && (forall p :: p in locks <==> p in b.arrived && b.served[p] < |b.arrived[p]|)
    && (forall p | p in locks :: locks[p] == b.arrived[p][|b.arrived[p]| - 1])
  }

  /** What a call has read is still in its file, unless another process has written it since. */
  ghost predicate Fresh(files: map<Path, string>, calls: Calls, raced: set<Ticket>) {
    forall t | t in calls && (calls[t].stage.Planned? || calls[t].stage.Checked?) && t !in raced ::
      calls[t].path in files && files[calls[t].path] == calls[t].stage.base
  }

  /** The calls of a path that are not over, in the order they came. */
  ghost function Queue(b: Books, p: Path): seq<Ticket> {
    if p in b.arrived && p in b.served && b.served[p] <= |b.arrived[p]| then b.arrived[p][b.served[p]..] else []
  }

  /** The map holds an entry exactly while somebody holds or waits. */
  lemma EntryIffSomebody(calls: Calls, b: Books, limit: Ticket, locks: map<Path, Ticket>, p: Path)
    requires BooksOk(calls, b, limit) && LocksOk(locks, b)
    ensures p in locks <==> Queue(b, p) != []
    ensures p in locks <==> exists t | t in calls :: calls[t].path == p && !calls[t].stage.Over?
  {
    if p in locks {
      assert InOrder(calls, b, limit, p, b.served[p]);
      var t := b.arrived[p][b.served[p]];
      assert t in calls && calls[t].path == p && !calls[t].stage.Over?;
    }
    if t: Ticket :| t in calls && calls[t].path == p && !calls[t].stage.Over? {
      assert Listed(calls, b, t) && InOrder(calls, b, limit, p, b.place[t]);
    }
  }

  /** At most one call of a path is inside, and it is the first of the queue. */
  lemma MutualExclusion(calls: Calls, b: Books, limit: Ticket, t: Ticket, u: Ticket)
    requires BooksOk(calls, b, limit) && t in calls && u in calls && calls[t].path == calls[u].path
             && Busy(calls[t].stage)
    ensures Queue(b, calls[t].path) != [] && Queue(b, calls[t].path)[0] == t
    ensures Busy(calls[u].stage) ==> t == u
  {
    assert Listed(calls, b, t) && InOrder(calls, b, limit, calls[t].path, b.place[t]);
    assert Listed(calls, b, u) && InOrder(calls, b, limit, calls[u].path, b.place[u]);
  }

  /** The promise a waiting call awaits has settled: the call in front is over, thrown or not. */
  predicate MayEnter(calls: Calls, t: Ticket) {
    && t in calls && calls[t].stage.Waiting?
    && (calls[t].previous.Some? ==> calls[t].previous.value in calls && calls[calls[t].previous.value].stage.Over?)
  }

  /** The chain lets in exactly the first of the queue, so calls enter in the order they came. */
  lemma FirstComeFirstServed(calls: Calls, b: Books, limit: Ticket, t: Ticket)
    requires BooksOk(calls, b, limit) && t in calls && calls[t].stage.Waiting?
    ensures MayEnter(calls, t) <==> Queue(b, calls[t].path) != [] && Queue(b, calls[t].path)[0] == t
  {
    var p := calls[t].path;
    assert Listed(calls, b, t) && InOrder(calls, b, limit, p, b.place[t]);
    if calls[t].previous.Some? { assert InOrder(calls, b, limit, p, b.place[t] - 1); }
    assert InOrder(calls, b, limit, p, b.served[p]);
  }

  // ---------------------------------------------------------------- the books after each event

  function Enlisted(b: Books, p: Path, t: Ticket): Books {
    var before := if p in b.arrived then b.arrived[p] else [];
    Books(b.arrived[p := before + [t]], b.served[p := if p in b.served then b.served[p] else 0], b.place[t := |before|])
  }

  lemma ArriveBooks(calls: Calls, b: Books, limit: Ticket, previous: Option<Ticket>, p: Path)
    requires BooksOk(calls, b, limit)
    requires previous == if Queue(b, p) == [] then None else Some(b.arrived[p][|b.arrived[p]| - 1])
    ensures limit !in calls && BooksOk(calls[limit := Call(p, previous, Waiting)], Enlisted(b, p, limit), limit + 1)
  {
    NewTicket(calls, b, limit);
    var calls', b', next := calls[limit := Call(p, previous, Waiting)], Enlisted(b, p, limit), limit + 1;
    forall q, i | q in b'.arrived && 0 <= i < |b'.arrived[q]| ensures InOrder(calls', b', next, q, i) {
      if q in b.arrived && i < |b.arrived[q]| { assert InOrder(calls, b, limit, q, i); }
    }
    forall u | u in calls' ensures Listed(calls', b', u) {
      if u != limit { assert Listed(calls, b, u); }
    }
  }

  lemma TicketBelow(calls: Calls, b: Books, limit: Ticket, t: Ticket)
    requires BooksOk(calls, b, limit) && t in calls
    ensures t < limit
  {
    assert Listed(calls, b, t) && InOrder(calls, b, limit, calls[t].path, b.place[t]);
  }

  lemma NewTicket(calls: Calls, b: Books, limit: Ticket)
    requires BooksOk(calls, b, limit)
    ensures limit !in calls
  {
    hide BooksOk;
    if limit in calls { TicketBelow(calls, b, limit, limit); }
  }

  lemma ArriveOk(calls: Calls, b: Books, limit: Ticket, locks: map<Path, Ticket>, p: Path)
    requires BooksOk(calls, b, limit) && LocksOk(locks, b)
    ensures var previous := if p in locks then Some(locks[p]) else None;
            && limit !in calls
            && BooksOk(calls[limit := Call(p, previous, Waiting)], Enlisted(b, p, limit), limit + 1)
            && LocksOk(locks[p := limit], Enlisted(b, p, limit))
  {
    var previous := if p in locks then Some(locks[p]) else None;
    assert previous == if Queue(b, p) == [] then None else Some(b.arrived[p][|b.arrived[p]| - 1]);
    ArriveBooks(calls, b, limit, previous, p);
    hide InOrder, Listed;
  }

  lemma ArriveQueues(calls: Calls, b: Books, limit: Ticket, p: Path)
    requires BooksOk(calls, b, limit)
    ensures Queue(Enlisted(b, p, limit), p) == Queue(b, p) + [limit]
    ensures forall q | q != p :: Queue(Enlisted(b, p, limit), q) == Queue(b, q)
  {
    hide InOrder, Listed;
  }

  /** A call moves on between waiting and the end: only the first of a queue does. */
  lemma MoveOk(calls: Calls, b: Books, limit: Ticket, t: Ticket, stage: Stage)
    requires BooksOk(calls, b, limit) && t in calls && !stage.Over?
    requires Queue(b, calls[t].path) != [] && Queue(b, calls[t].path)[0] == t
    ensures BooksOk(calls[t := calls[t].(stage := stage)], b, limit)
  {
    var calls' := calls[t := calls[t].(stage := stage)];
    forall q, i | q in b.arrived && 0 <= i < |b.arrived[q]| ensures InOrder(calls', b, limit, q, i) {
      assert InOrder(calls, b, limit, q, i);
      assert InOrder(calls, b, limit, calls[t].path, b.served[calls[t].path]);
    }
    forall u | u in calls' ensures Listed(calls', b, u) { assert Listed(calls, b, u); }
  }

  function Served(b: Books, p: Path): Books
    requires p in b.served
  {
    b.(served := b.served[p := b.served[p] + 1])
  }

  lemma LeaveOk(calls: Calls, b: Books, limit: Ticket, locks: map<Path, Ticket>, t: Ticket)
    requires BooksOk(calls, b, limit) && LocksOk(locks, b) && t in calls && Busy(calls[t].stage)
    ensures var p := calls[t].path;
            && p in b.served && p in locks
            && BooksOk(calls[t := calls[t].(stage := Over)], Served(b, p), limit)
            && LocksOk(if locks[p] == t then locks - {p} else locks, Served(b, p))
            && Queue(b, p) == [t] + Queue(Served(b, p), p)
            && forall q | q != p :: Queue(Served(b, p), q) == Queue(b, q)
  {
    var p := calls[t].path;
    MutualExclusion(calls, b, limit, t, t);
    var calls', b' := calls[t := calls[t].(stage := Over)], Served(b, p);
    forall q, i | q in b'.arrived && 0 <= i < |b'.arrived[q]| ensures InOrder(calls', b', limit, q, i) {
      assert InOrder(calls, b, limit, q, i);
      if q == p {
        assert InOrder(calls, b, limit, p, b.served[p]);
      }
    }
    forall u | u in calls' ensures Listed(calls', b', u) { assert Listed(calls, b, u); }
    LastLeaves(calls, b, limit, p);
  }

  /** The entry is the leaving call exactly when nobody came after it. */
  lemma LastLeaves(calls: Calls, b: Books, limit: Ticket, p: Path)
    requires BooksOk(calls, b, limit) && p in b.arrived && b.served[p] < |b.arrived[p]|
    ensures var n := |b.arrived[p]|; b.arrived[p][n - 1] == b.arrived[p][b.served[p]] <==> b.served[p] + 1 == n
  {
    assert InOrder(calls, b, limit, p, b.served[p]);
    assert InOrder(calls, b, limit, p, |b.arrived[p]| - 1);
  }

  /** Beside a call inside the lock nobody has the path in hand. */
  lemma NobodyElse(calls: Calls, b: Books, limit: Ticket, t: Ticket)
    requires BooksOk(calls, b, limit) && t in calls && Busy(calls[t].stage)
    ensures forall u | u in calls && u != t && calls[u].path == calls[t].path :: !Busy(calls[u].stage)
  {
    forall u | u in calls && u != t && calls[u].path == calls[t].path ensures !Busy(calls[u].stage) {
      if Busy(calls[u].stage) { MutualExclusion(calls, b, limit, u, t); }
    }
  }

  // ---------------------------------------------------------------- the service

  class FileService {
    /** The content is within `maxFileBytes`. */
    const fits: string -> bool
    var files: map<Path, string>
    var writeLocks: map<Path, Ticket>
    var calls: Calls
    var nextTicket: Ticket
    ghost var books: Books
    /** The calls whose file another process has written since they read it. */
    ghost var raced: set<Ticket>

    ghost predicate Valid()
      reads this
    {
      BooksOk(calls, books, nextTicket) && LocksOk(writeLocks, books) && Fresh(files, calls, raced)
    }

    constructor (files: map<Path, string>, fits: string -> bool)
      ensures Valid() && this.files == files && this.fits == fits && calls == map[]
    {
      this.files, this.fits := files, fits;
      writeLocks, calls, nextTicket := map[], map[], 0;
      books, raced := Books(map[], map[], map[]), {};
    }

    /** The synchronous part of `withWriteLock`: this call is now the entry of its path. */
    method Arrive(p: Path) returns (t: Ticket)
      requires Valid()
      modifies this
      ensures Valid() && files == old(files)
      ensures t !in old(calls)
      ensures calls ==
                old(calls)[t := Call(p, if p in old(writeLocks) then Some(old(writeLocks)[p]) else None, Waiting)]
      ensures Queue(books, p) == old(Queue(books, p)) + [t]
      ensures forall q | q != p :: Queue(books, q) == old(Queue(books, q))
    {
      hide BooksOk, LocksOk, Queue, Enlisted;
      ArriveOk(calls, books, nextTicket, writeLocks, p);
      ArriveQueues(calls, books, nextTicket, p);
      t := nextTicket;
      var previous := if p in writeLocks then Some(writeLocks[p]) else None;
      nextTicket := nextTicket + 1;
      writeLocks := writeLocks[p := t];
      calls := calls[t := Call(p, previous, Waiting)];
      books, raced := Enlisted(books, p, t), raced - {t};
    }

    /** The continuation of `await previous`. */
    method Enter(t: Ticket)
      requires Valid() && MayEnter(calls, t)
      modifies this
      ensures Valid() && files == old(files) && books == old(books)
      ensures calls == old(calls)[t := old(calls[t]).(stage := Inside)]
      ensures forall u | u in calls && u != t && calls[u].path == old(calls[t]).path :: !Busy(calls[u].stage)
    {
      FirstComeFirstServed(calls, books, nextTicket, t);
      MoveOk(calls, books, nextTicket, t, Inside);
      calls := calls[t := calls[t].(stage := Inside)];
      NobodyElse(calls, books, nextTicket, t);
    }

    /** `editFile` reads and decides; `None` stands for a read that fails. */
    method Plan(t: Ticket, matches: string -> bool, expected: string, replacement: string) returns (r: Option<Plan>)
      requires Valid() && t in calls && calls[t].stage.Inside? && expected != []
      modifies this
      ensures Valid() && files == old(files) && books == old(books)
      ensures r.Some? <==> old(calls[t]).path in files
      ensures r.Some? ==>
                r.value == PlanEdit(files[old(calls[t]).path], matches, fits, expected, replacement)
      ensures calls == if r.Some? && r.value.Accepted?
                       then old(calls)[t := old(calls[t]).(stage := Planned(files[old(calls[t]).path], r.value.next))]
                       else old(calls)
    {
      var p := calls[t].path;
      if p !in files { return None; }
      var current := files[p];
      var plan := PlanEdit(current, matches, fits, expected, replacement);
      if plan.Accepted? {
        MutualExclusion(calls, books, nextTicket, t, t);
        MoveOk(calls, books, nextTicket, t, Planned(current, plan.next));
        calls := calls[t := calls[t].(stage := Planned(current, plan.next))];
        raced := raced - {t};
      }
      return Some(plan);
    }

    /** `atomicWrite` reads again: on goes only a call whose file still has the content it planned
        on, the hash being injective. */
    method Recheck(t: Ticket) returns (same: bool)
      requires Valid() && t in calls && calls[t].stage.Planned?
      modifies this
      ensures Valid() && files == old(files) && books == old(books)
      ensures same <==> old(calls[t]).path in files && files[old(calls[t]).path] == old(calls[t]).stage.base
      ensures calls == if same then
                old(calls)[t := old(calls[t]).(stage := Checked(old(calls[t]).stage.base, old(calls[t]).stage.next))]
                  else old(calls)
      ensures same ==> t !in raced
    {
      var c := calls[t];
      same := c.path in files && files[c.path] == c.stage.base;
      if same {
        MutualExclusion(calls, books, nextTicket, t, t);
        MoveOk(calls, books, nextTicket, t, Checked(c.stage.base, c.stage.next));
        calls := calls[t := c.(stage := Checked(c.stage.base, c.stage.next))];
        raced := raced - {t};
      }
    }

    /** The rename. Unless another process wrote the file after the second read, what it replaces is
        the very content the edit was planned on: no call of the service is ever overwritten. */
    method Rename(t: Ticket)
      requires Valid() && t in calls && calls[t].stage.Checked?
      modifies this
      ensures Valid() && books == old(books)
      ensures files == old(files)[old(calls[t]).path := old(calls[t]).stage.next]
      ensures t !in old(raced) ==>
                old(calls[t]).path in old(files) && old(files)[old(calls[t]).path] == old(calls[t]).stage.base
      ensures calls == old(calls)[t := old(calls[t]).(stage := Inside)]
    {
      var c := calls[t];
      MutualExclusion(calls, books, nextTicket, t, t);
      MoveOk(calls, books, nextTicket, t, Inside);
      NobodyElse(calls, books, nextTicket, t);
      files := files[c.path := c.stage.next];
      calls := calls[t := c.(stage := Inside)];
    }

    /** `writeFile` inside the lock: no read before, so no compare; None when the write fails before
        its rename. */
    method Write(t: Ticket, content: Option<string>)
      requires Valid() && t in calls && calls[t].stage.Inside?
      modifies this`files
      ensures Valid()
      ensures files == if content.Some? then old(files)[calls[t].path := content.value] else old(files)
    {
      NobodyElse(calls, books, nextTicket, t);
      if content.Some? { files := files[calls[t].path := content.value]; }
    }

    /** `deleteFile` inside the lock; a file that is gone already is an error. */
    method Delete(t: Ticket) returns (ok: bool)
      requires Valid() && t in calls && calls[t].stage.Inside?
      modifies this`files
      ensures Valid() && (ok <==> calls[t].path in old(files)) && files == old(files) - {calls[t].path}
    {
      NobodyElse(calls, books, nextTicket, t);
      ok := calls[t].path in files;
      files := files - {calls[t].path};
    }

    /** `finally`: the gate opens, and the entry goes if it is still this call's. */
    method Leave(t: Ticket)
      requires Valid() && t in calls && Busy(calls[t].stage)
      modifies this
      ensures Valid() && files == old(files)
      ensures calls == old(calls)[t := old(calls[t]).(stage := Over)]
      ensures old(Queue(books, calls[t].path)) == [t] + Queue(books, old(calls[t]).path)
      ensures forall q | q != old(calls[t]).path :: Queue(books, q) == old(Queue(books, q))
    {
      var p := calls[t].path;
      LeaveOk(calls, books, nextTicket, writeLocks, t);
      if p in writeLocks && writeLocks[p] == t { writeLocks := writeLocks - {p}; }
      calls := calls[t := calls[t].(stage := Over)];
      books := Served(books, p);
    }

    /** Another process writes a file, or deletes it. */
    method ChangedOutside(p: Path, content: Option<string>)
      requires Valid()
      modifies this`files, this`raced
      ensures Valid() && files == if content.Some? then old(files)[p := content.value] else old(files) - {p}
    {
      files := if content.Some? then files[p := content.value] else files - {p};
      raced := raced + set t | t in calls && calls[t].path == p;
    }
  }
}
