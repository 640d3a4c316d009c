/** The fixed-window rate limiter: an insertion-ordered map with a bound on its size. */
module RateLimiter {
  import opened Prelude

  type Key = string

  /** One entry of the insertion-ordered map. */
  datatype Entry = Entry(key: Key, startedAt: int, count: nat)

  datatype Config = Config(limit: nat, windowMs: nat, maxKeys: nat)

  predicate ValidConfig(c: Config) { c.limit >= 1 && c.windowMs >= 1 && c.maxKeys >= 16 }

  function IndexOf(es: seq<Entry>, key: Key): (i: int)
    ensures -1 <= i < |es|
    ensures i >= 0 ==> es[i].key == key
    ensures i < 0 ==> forall j | 0 <= j < |es| :: es[j].key != key
  {
    if es == [] then -1
    else if es[0].key == key then 0
    else
      var i := IndexOf(es[1..], key);
      if i < 0 then -1 else i + 1
  }

  function Find(es: seq<Entry>, key: Key): Option<Entry> {
    var i := IndexOf(es, key);
    if i < 0 then None else Some(es[i])
  }

  function DropAt(es: seq<Entry>, i: int): (r: seq<Entry>)
    requires 0 <= i < |es|
    ensures |r| == |es| - 1 && forall j | 0 <= j < |r| :: r[j] == if j < i then es[j] else es[j + 1]
  {
    es[..i] + es[i + 1..]
  }

  function Remove(es: seq<Entry>, key: Key): seq<Entry> {
    var i := IndexOf(es, key);
    if i < 0 then es else DropAt(es, i)
  }

  /** `Map.set`: in place when the key is there, at the end when it is new. */
  function Put(es: seq<Entry>, e: Entry): seq<Entry> {
    var i := IndexOf(es, e.key);
    if i < 0 then es + [e] else es[i := e]
  }

  predicate Expired(c: Config, e: Entry, now: int) { now - e.startedAt >= c.windowMs }

  predicate Distinct(es: seq<Entry>) { forall i, j | 0 <= i < j < |es| :: es[i].key != es[j].key }

  /** Keys once, counts within the limit, no more keys than the bound. */
  ghost predicate WellFormed(c: Config, es: seq<Entry>) {
    Distinct(es) && |es| <= c.maxKeys && CountsOk(c, es)
  }

  ghost predicate CountsOk(c: Config, es: seq<Entry>) { forall i | 0 <= i < |es| :: 1 <= es[i].count <= c.limit }

  // ---------------------------------------------------------------- pruning

  /** The first loop: expired entries go, oldest insertion first, until the size fits. */
  function Sweep(c: Config, kept: seq<Entry>, rest: seq<Entry>, now: int): seq<Entry>
    decreases |rest|
  {
    if rest == [] || |kept| + |rest| <= c.maxKeys then kept + rest
    else if Expired(c, rest[0], now) then Sweep(c, kept, rest[1..], now)
    else Sweep(c, kept + [rest[0]], rest[1..], now)
  }

  /** The second loop: oldest insertions go until the size fits. */
  function DropOldest(c: Config, es: seq<Entry>): seq<Entry> {
    if |es| <= c.maxKeys then es else es[|es| - c.maxKeys..]
  }

  function Pruned(c: Config, es: seq<Entry>, now: int): seq<Entry> { DropOldest(c, Sweep(c, [], es, now)) }

  // ---------------------------------------------------------------- the two operations

  function Blocked(c: Config, es: seq<Entry>, key: Key, now: int): bool {
    var e := Find(es, key);
    e.Some? && !Expired(c, e.value, now) && e.value.count >= c.limit
  }

  function AfterCheck(c: Config, es: seq<Entry>, key: Key, now: int): seq<Entry> {
    var e := Find(es, key);
    if e.Some? && Expired(c, e.value, now) then Remove(es, key) else es
  }

  function AfterConsume(c: Config, es: seq<Entry>, key: Key, now: int): seq<Entry> {
    var e := Find(es, key);
    if e.None? || Expired(c, e.value, now) then Pruned(c, Put(es, Entry(key, now, 1)), now)
    else if e.value.count >= c.limit then es
    else Put(es, Entry(key, e.value.startedAt, e.value.count + 1))
  }

  class FixedWindowRateLimiter {
    const config: Config
    var entries: seq<Entry>

    ghost predicate Valid()
      reads this
    {
      ValidConfig(config) && WellFormed(config, entries)
    }

    constructor (config: Config)
      requires ValidConfig(config)
      ensures Valid() && entries == [] && this.config == config
    {
      this.config := config;
      entries := [];
    }

    /** `isBlocked`. It predicts `consume`: see `BlockedPredictsConsume`. */
    method IsBlocked(key: Key, now: int) returns (blocked: bool)
      requires Valid()
      modifies this
      ensures Valid() && entries == AfterCheck(config, old(entries), key, now)
      ensures blocked == Blocked(config, old(entries), key, now)
    {
      var existing := Find(entries, key);
      CheckKeepsWellFormed(config, entries, key, now);
      if existing.None? { return false; }
      if Expired(config, existing.value, now) {
        entries := Remove(entries, key);
        return false;
      }
      return existing.value.count >= config.limit;
    }

    /** `consume`: true exactly when the key was not blocked. */
    method Consume(key: Key, now: int) returns (allowed: bool)
      requires Valid()
      modifies this
      ensures Valid() && entries == AfterConsume(config, old(entries), key, now)
      ensures allowed == !Blocked(config, old(entries), key, now)
      ensures allowed ==> Find(entries, key).Some?
    {
      var existing := Find(entries, key);
      ConsumeKeepsWellFormed(config, entries, key, now);
      ConsumedKeyStays(config, entries, key, now);
      if existing.None? || Expired(config, existing.value, now) {
        entries := Put(entries, Entry(key, now, 1));
        Prune(now);
        return true;
      }
      if existing.value.count >= config.limit { return false; }
      entries := Put(entries, Entry(key, existing.value.startedAt, existing.value.count + 1));
      return true;
    }

    /** The two loops of `prune`. */
    method Prune(now: int)
      modifies this
      ensures entries == Pruned(config, old(entries), now)
    {
      if |entries| <= config.maxKeys {
        NothingToPrune(config, entries, now);
        return;
      }
      hide Sweeping, DropOldest;
      SweepStarts(config, entries, now);
      var i := 0;
      while i < |entries|
        invariant 0 <= i <= |entries|
        invariant Sweeping(config, old(entries), entries, i, now)
        invariant |entries| > config.maxKeys
        decreases |entries| - i
      {
        SweepStep(config, old(entries), entries, i, now);
        if Expired(config, entries[i], now) {
          entries := DropAt(entries, i);
        } else {
          i := i + 1;
        }
        if |entries| <= config.maxKeys { break; }
      }
      SweepStops(config, old(entries), entries, i, now);
      ghost var swept := entries;
      while |entries| > config.maxKeys
        invariant DropOldest(config, entries) == DropOldest(config, swept)
      {
        DropOne(config, entries);
        entries := entries[1..];
      }
      DropNone(config, entries);
    }
  }

  /** Where the first loop stands: what is in front of i stays, the rest is to be swept. */
  ghost predicate Sweeping(c: Config, start: seq<Entry>, es: seq<Entry>, i: int, now: int) {
    0 <= i <= |es| && Sweep(c, [], start, now) == Sweep(c, es[..i], es[i..], now)
  }

  lemma SweepStarts(c: Config, es: seq<Entry>, now: int)
    ensures Sweeping(c, es, es, 0, now)
  {
    assert es[..0] == [] && es[0..] == es;
  }

  lemma SweepStep(c: Config, start: seq<Entry>, es: seq<Entry>, i: int, now: int)
    requires Sweeping(c, start, es, i, now) && i < |es| && |es| > c.maxKeys
    ensures if Expired(c, es[i], now) then Sweeping(c, start, DropAt(es, i), i, now)
            else Sweeping(c, start, es, i + 1, now)
  {
    assert es[i..][1..] == es[i + 1..] && es[..i] + [es[i]] == es[..i + 1];
    assert DropAt(es, i)[..i] == es[..i] && DropAt(es, i)[i..] == es[i + 1..];
  }

  lemma SweepStops(c: Config, start: seq<Entry>, es: seq<Entry>, i: int, now: int)
    requires Sweeping(c, start, es, i, now) && (i == |es| || |es| <= c.maxKeys)
    ensures Sweep(c, [], start, now) == es
  {
    assert es[..i] + es[i..] == es;
  }

  lemma DropOne(c: Config, es: seq<Entry>)
    requires |es| > c.maxKeys
    ensures DropOldest(c, es[1..]) == DropOldest(c, es)
  {
    assert es[1..][|es| - 1 - c.maxKeys..] == es[|es| - c.maxKeys..];
  }

  lemma DropNone(c: Config, es: seq<Entry>)
    requires |es| <= c.maxKeys
    ensures DropOldest(c, es) == es
  {}

  // ---------------------------------------------------------------- the map stays well formed

  /** In a map with no key twice, an entry is found where it is. */
  lemma FoundThere(es: seq<Entry>, i: int)
    requires Distinct(es) && 0 <= i < |es|
    ensures IndexOf(es, es[i].key) == i
  {
    var j := IndexOf(es, es[i].key);
    assert j >= 0 && es[j].key == es[i].key;
  }

  lemma RemoveKeeps(c: Config, es: seq<Entry>, key: Key)
    requires WellFormed(c, es)
    ensures WellFormed(c, Remove(es, key)) && Find(Remove(es, key), key).None?
  {
    var i := IndexOf(es, key);
    if i >= 0 {
      var r := DropAt(es, i);
      var j := IndexOf(r, key);
      if j >= 0 { FoundThere(es, if j < i then j else j + 1); }
    }
  }

  lemma PutKeeps(es: seq<Entry>, e: Entry)
    requires Distinct(es)
    ensures Distinct(Put(es, e)) && Find(Put(es, e), e.key) == Some(e)
  {
    var i := IndexOf(es, e.key);
    var r := Put(es, e);
    assert Distinct(r);
    FoundThere(r, if i < 0 then |es| else i);
  }

  lemma PutCounts(c: Config, es: seq<Entry>, e: Entry)
    requires CountsOk(c, es) && 1 <= e.count <= c.limit
    ensures CountsOk(c, Put(es, e)) && |Put(es, e)| == if Find(es, e.key).Some? then |es| else |es| + 1
  {}

  lemma DropKeeps(c: Config, es: seq<Entry>, i: int)
    requires Distinct(es) && CountsOk(c, es) && 0 <= i < |es|
    ensures Distinct(DropAt(es, i)) && CountsOk(c, DropAt(es, i))
  {}

  lemma CheckKeepsWellFormed(c: Config, es: seq<Entry>, key: Key, now: int)
    requires ValidConfig(c) && WellFormed(c, es)
    ensures WellFormed(c, AfterCheck(c, es, key, now))
  {
    RemoveKeeps(c, es, key);
  }

  /** The first expired entry from i on, or |es|. */
  function FirstExpired(c: Config, es: seq<Entry>, i: nat, now: int): (j: nat)
    requires i <= |es|
    ensures i <= j <= |es|
    ensures j < |es| ==> Expired(c, es[j], now)
    ensures forall k | i <= k < j :: !Expired(c, es[k], now)
    decreases |es| - i
  {
    if i == |es| || Expired(c, es[i], now) then i else FirstExpired(c, es, i + 1, now)
  }

  /** The victim of a prune with one entry too many: the first expired, else the oldest. */
  function Victim(c: Config, es: seq<Entry>, now: int): (j: nat)
    requires es != []
    ensures j < |es| && (Expired(c, es[j], now) || j == 0)
  {
    var j := FirstExpired(c, es, 0, now);
    if j == |es| then 0 else j
  }

  lemma {:induction false} SweepDropsOne(c: Config, es: seq<Entry>, i: nat, now: int)
    requires |es| == c.maxKeys + 1 && i <= |es|
    ensures var j := FirstExpired(c, es, i, now);
            Sweep(c, es[..i], es[i..], now) == if j == |es| then es else DropAt(es, j)
    decreases |es| - i
  {
    if i == |es| {
      assert es[..i] + es[i..] == es;
      return;
    }
    assert es[i..][1..] == es[i + 1..];
    if Expired(c, es[i], now) {
      assert Sweep(c, es[..i], es[i..], now) == Sweep(c, es[..i], es[i + 1..], now);
      return;
    }
    assert es[..i] + [es[i]] == es[..i + 1];
    SweepDropsOne(c, es, i + 1, now);
  }

  lemma PrunedDropsOne(c: Config, es: seq<Entry>, now: int)
    requires |es| == c.maxKeys + 1
    ensures Pruned(c, es, now) == DropAt(es, Victim(c, es, now))
  {
    SweepDropsOne(c, es, 0, now);
    assert es[..0] == [] && es[0..] == es;
    assert es[1..] == DropAt(es, 0);
  }

  lemma NothingToPrune(c: Config, es: seq<Entry>, now: int)
    requires |es| <= c.maxKeys
    ensures Pruned(c, es, now) == es
  {
    assert [] + es == es;
  }

  lemma ConsumeKeepsWellFormed(c: Config, es: seq<Entry>, key: Key, now: int)
    requires ValidConfig(c) && WellFormed(c, es)
    ensures WellFormed(c, AfterConsume(c, es, key, now))
  {
    var e := Find(es, key);
    if e.Some? && !Expired(c, e.value, now) {
      if e.value.count < c.limit {
        PutKeeps(es, Entry(key, e.value.startedAt, e.value.count + 1));
        assert 1 <= e.value.count;
        PutCounts(c, es, Entry(key, e.value.startedAt, e.value.count + 1));
        hide Put, Distinct, CountsOk;
      }
      return;
    }
    var put := Put(es, Entry(key, now, 1));
    PutKeeps(es, Entry(key, now, 1));
    PutCounts(c, es, Entry(key, now, 1));
    hide Put, Distinct, CountsOk, Pruned;
    if |put| <= c.maxKeys {
      NothingToPrune(c, put, now);
      return;
    }
    PrunedDropsOne(c, put, now);
    DropKeeps(c, put, Victim(c, put, now));
  }

  /** The entry a consume leaves for its key: its own prune never takes it. */
  lemma ConsumedKeyStays(c: Config, es: seq<Entry>, key: Key, now: int)
    requires ValidConfig(c) && WellFormed(c, es)
    ensures Find(AfterConsume(c, es, key, now), key) ==
              var e := Find(es, key);
              if e.None? || Expired(c, e.value, now) then Some(Entry(key, now, 1))
              else if e.value.count >= c.limit then e
              else Some(Entry(key, e.value.startedAt, e.value.count + 1))
  {
    var e := Find(es, key);
    if e.Some? && !Expired(c, e.value, now) {
      PutKeeps(es, Entry(key, e.value.startedAt, e.value.count + 1));
      return;
    }
    var put := Put(es, Entry(key, now, 1));
    PutKeeps(es, Entry(key, now, 1));
    ConsumeKeepsWellFormed(c, es, key, now);
    if |put| <= c.maxKeys {
      NothingToPrune(c, put, now);
      return;
    }
    PrunedDropsOne(c, put, now);
    hide Pruned;
    FoundThere(DropAt(put, Victim(c, put, now)), |put| - 2);
  }

  /** `isBlocked` predicts `consume` exactly, and looking first changes nothing about it. */
  lemma BlockedPredictsConsume(c: Config, es: seq<Entry>, key: Key, now: int)
    requires ValidConfig(c) && WellFormed(c, es)
    ensures Blocked(c, AfterCheck(c, es, key, now), key, now) == Blocked(c, es, key, now)
  {
    RemoveKeeps(c, es, key);
  }

  /** A consume succeeds exactly when the key has no entry, its window is over or its count is below
      the limit. */
  lemma AllowedIff(c: Config, es: seq<Entry>, key: Key, now: int)
    requires WellFormed(c, es)
    ensures !Blocked(c, es, key, now) <==>
            forall i | 0 <= i < |es| && es[i].key == key :: es[i].startedAt + c.windowMs <= now || es[i].count < c.limit
  {
    forall i | 0 <= i < |es| && es[i].key == key ensures Find(es, key) == Some(es[i]) { FoundThere(es, i); }
    var i := IndexOf(es, key);
    if i >= 0 { assert Find(es, key) == Some(es[i]); }
  }

  /** Looking removes the key's entry exactly when its window is over. */
  lemma CheckIs(c: Config, es: seq<Entry>, key: Key, now: int, i: nat)
    requires WellFormed(c, es) && i < |es| && es[i].key == key
    ensures AfterCheck(c, es, key, now) == if es[i].startedAt + c.windowMs <= now then es[..i] + es[i + 1..] else es
  {
    FoundThere(es, i);
    assert IndexOf(es, key) == i;
  }

  /** A new key in a full map pushes out one entry: the first whose window is over, and only if there
      is none the oldest. All others stay in their order. */
  lemma EvictedIs(c: Config, es: seq<Entry>, key: Key, now: int) returns (v: nat)
    requires ValidConfig(c) && WellFormed(c, es) && |es| == c.maxKeys && forall i | 0 <= i < |es| :: es[i].key != key
    ensures v < |es| && AfterConsume(c, es, key, now) == es[..v] + es[v + 1..] + [Entry(key, now, 1)]
    ensures forall i | 0 <= i < v :: now < es[i].startedAt + c.windowMs
    ensures now < es[v].startedAt + c.windowMs ==>
              v == 0 && forall i | 0 <= i < |es| :: now < es[i].startedAt + c.windowMs
  {
    var put := es + [Entry(key, now, 1)];
    assert IndexOf(es, key) < 0;
    PrunedDropsOne(c, put, now);
    v := Victim(c, put, now);
    assert !Expired(c, put[|es|], now);
    assert forall i | 0 <= i < |es| :: put[i] == es[i];
    assert put[..v] == es[..v] && put[v + 1..] == es[v + 1..] + [Entry(key, now, 1)];
  }

  // ---------------------------------------------------------------- the bound over a run

  datatype Call = Check(key: Key, at: int) | Try(key: Key, at: int)

  function AfterCall(c: Config, es: seq<Entry>, call: Call): seq<Entry> {
    match call
    case Check(key, at) => AfterCheck(c, es, key, at)
    case Try(key, at) => AfterConsume(c, es, key, at)
  }

  /** A successful consume of `k`. */
  predicate Passes(c: Config, es: seq<Entry>, call: Call, k: Key) {
    call.Try? && call.key == k && !Blocked(c, es, k, call.at)
  }

  predicate Live(c: Config, es: seq<Entry>, k: Key, now: int) {
    Find(es, k).Some? && !Expired(c, Find(es, k).value, now)
  }

  /** The clock does not go back, and no call pushes the live entry of `k` out of the map. */
  predicate Undisturbed(c: Config, es: seq<Entry>, run: seq<Call>, k: Key, now: int)
    decreases |run|
  {
    run == []
    || (now <= run[0].at
        && (Live(c, es, k, run[0].at) ==> Find(AfterCall(c, es, run[0]), k).Some?)
        && Undisturbed(c, AfterCall(c, es, run[0]), run[1..], k, run[0].at))
  }

  /** How many consumes of `k` succeed at times t, …, t + windowMs - 1. */
  function Passed(c: Config, es: seq<Entry>, run: seq<Call>, k: Key, t: int): nat
    decreases |run|
  {
    if run == [] then 0
    else (if Passes(c, es, run[0], k) && t <= run[0].at < t + c.windowMs then 1
        else 0) + Passed(c, AfterCall(c, es, run[0]), run[1..], k, t)
  }

  /** One window of `k`: when it opened, and the times it let through. */
  datatype Window = Window(start: int, times: seq<int>)

  predicate WindowOk(c: Config, w: Window) {
    0 < |w.times| <= c.limit && w.times[0] == w.start && forall i | 0 <= i < |w.times| ::
        w.start <= w.times[i] < w.start + c.windowMs
  }

  predicate Spaced(c: Config, ws: seq<Window>) {
    && (forall i | 0 <= i < |ws| :: WindowOk(c, ws[i]))
    && (forall i, j | 0 <= i < j < |ws| :: ws[i].start + c.windowMs <= ws[j].start)
  }

  function InInterval(times: seq<int>, t: int, width: nat): (n: nat)
    ensures n <= |times|
  {
    if times == [] then 0
    else (if t <= times[|times| - 1] < t + width then 1 else 0) + InInterval(times[..|times| - 1], t, width)
  }

  function Count(c: Config, ws: seq<Window>, t: int): nat {
    if ws == [] then 0 else Count(c, ws[..|ws| - 1], t) + InInterval(ws[|ws| - 1].times, t, c.windowMs)
  }

  lemma {:induction false} NoneInInterval(times: seq<int>, t: int, width: nat)
    requires forall i | 0 <= i < |times| :: !(t <= times[i] < t + width)
    ensures InInterval(times, t, width) == 0
  {
    if times != [] { NoneInInterval(times[..|times| - 1], t, width); }
  }

  /** The time a window opened is one of its times; if it is outside, it does not count. */
  lemma {:induction false} FirstOutside(times: seq<int>, t: int, width: nat)
    requires times != [] && !(t <= times[0] < t + width)
    ensures InInterval(times, t, width) < |times|
  {
    if |times| > 1 { FirstOutside(times[..|times| - 1], t, width); }
  }

  lemma {:induction false} EarlierWindowsMiss(c: Config, ws: seq<Window>, t: int)
    requires Spaced(c, ws) && forall i | 0 <= i < |ws| :: ws[i].start + c.windowMs <= t
    ensures Count(c, ws, t) == 0
  {
    if ws != [] {
      assert WindowOk(c, ws[|ws| - 1]);
      NoneInInterval(ws[|ws| - 1].times, t, c.windowMs);
      EarlierWindowsMiss(c, ws[..|ws| - 1], t);
    }
  }

  /** The last window stands behind all others. */
  lemma LastWindow(c: Config, ws: seq<Window>, t: int)
    requires Spaced(c, ws) && ws != []
    ensures var before, last := ws[..|ws| - 1], ws[|ws| - 1];
            && Spaced(c, before) && Count(c, ws, t) == Count(c, before, t) + InInterval(last.times, t, c.windowMs)
            && 0 < |last.times| <= c.limit && last.times[0] == last.start
            && (forall i | 0 <= i < |last.times| :: last.start <= last.times[i])
            && (forall i | 0 <= i < |before| :: before[i].start + c.windowMs <= last.start)
  {
    assert WindowOk(c, ws[|ws| - 1]);
  }

  /** Two windows at most meet the interval, and the earlier one not with its first time. */
  lemma {:induction false} WindowsBound(c: Config, ws: seq<Window>, t: int)
    requires ValidConfig(c) && Spaced(c, ws)
    ensures Count(c, ws, t) <= 2 * c.limit - 1
  {
    if ws == [] { return; }
    var before, last := ws[..|ws| - 1], ws[|ws| - 1];
    LastWindow(c, ws, t);
    hide Spaced, Count, WindowOk;
    if last.start >= t + c.windowMs {
      NoneInInterval(last.times, t, c.windowMs);
      WindowsBound(c, before, t);
    } else if before == [] {
      EarlierWindowsMiss(c, before, t);
    } else {
      var first := before[|before| - 1];
      LastWindow(c, before, t);
      EarlierWindowsMiss(c, before[..|before| - 1], t);
      FirstOutside(first.times, t, c.windowMs);
    }
  }

  /** The windows so far and the map agree about `k`. */
  ghost predicate Linked(c: Config, es: seq<Entry>, ws: seq<Window>, k: Key, now: int) {
    && Spaced(c, ws)
    && (ws != [] ==> ws[|ws| - 1].start <= now)
    && (if Live(c, es, k, now)
        then ws != [] && ws[|ws| - 1].start == Find(es, k).value.startedAt
          && |ws[|ws| - 1].times| == Find(es, k).value.count
        else ws == [] || ws[|ws| - 1].start + c.windowMs <= now)
  }

  /** The last window lets one more through; a new window opens. */
  function Grow(ws: seq<Window>, at: int): seq<Window>
    requires ws != []
  {
    ws[..|ws| - 1] + [Window(ws[|ws| - 1].start, ws[|ws| - 1].times + [at])]
  }

  function Open(ws: seq<Window>, at: int): seq<Window> { ws + [Window(at, [at])] }

  function NextWindows(c: Config, es: seq<Entry>, ws: seq<Window>, call: Call, k: Key): seq<Window> {
    if !Passes(c, es, call, k) then ws
    else if Live(c, es, k, call.at) && ws != [] then Grow(ws, call.at)
    else Open(ws, call.at)
  }

  lemma GrowSpaced(c: Config, ws: seq<Window>, at: int)
    requires Spaced(c, ws) && ws != [] && |ws[|ws| - 1].times| < c.limit
             && ws[|ws| - 1].start <= at < ws[|ws| - 1].start + c.windowMs
    ensures Spaced(c, Grow(ws, at)) && |Grow(ws, at)| == |ws|
    ensures var w := Grow(ws, at)[|ws| - 1]; w.start == ws[|ws| - 1].start && |w.times| == |ws[|ws| - 1].times| + 1
  {
    var n := |ws| - 1;
    assert WindowOk(c, ws[n]);
    assert WindowOk(c, Grow(ws, at)[n]);
    assert forall i | 0 <= i < n :: Grow(ws, at)[i] == ws[i];
  }

  lemma OpenSpaced(c: Config, ws: seq<Window>, at: int)
    requires ValidConfig(c) && Spaced(c, ws) && (ws != [] ==> ws[|ws| - 1].start + c.windowMs <= at)
    ensures Spaced(c, Open(ws, at)) && Open(ws, at)[|ws|] == Window(at, [at])
  {
    assert WindowOk(c, Window(at, [at]));
    assert forall i | 0 <= i < |ws| :: Open(ws, at)[i] == ws[i] && ws[i].start <= ws[|ws| - 1].start;
  }

  lemma GrowCount(c: Config, ws: seq<Window>, at: int, t: int)
    requires ws != []
    ensures Count(c, Grow(ws, at), t) == Count(c, ws, t) + if t <= at < t + c.windowMs then 1 else 0
  {
    var n := |ws| - 1;
    var times := ws[n].times + [at];
    assert times[..|times| - 1] == ws[n].times;
    assert Grow(ws, at)[..n] == ws[..n] && Grow(ws, at)[n].times == times;
  }

  lemma OpenCount(c: Config, ws: seq<Window>, at: int, t: int)
    ensures Count(c, Open(ws, at), t) == Count(c, ws, t) + if t <= at < t + c.windowMs then 1 else 0
  {
    assert Open(ws, at)[..|ws|] == ws && Open(ws, at)[|ws|].times == [at];
    assert [at][..0] == [];
  }

  lemma TimePasses(c: Config, es: seq<Entry>, ws: seq<Window>, k: Key, now: int, later: int)
    requires Linked(c, es, ws, k, now) && now <= later
    ensures Linked(c, es, ws, k, later)
  {}

  /** A call on another key leaves the entry of `k` as it is, if it leaves it at all. */
  lemma OthersKeepEntry(c: Config, es: seq<Entry>, call: Call, k: Key)
    requires ValidConfig(c) && WellFormed(c, es) && call.key != k && Find(AfterCall(c, es, call), k).Some?
    ensures Find(AfterCall(c, es, call), k) == Find(es, k)
  {
    var e := Find(es, call.key);
    if call.Check? {
      if e.Some? && Expired(c, e.value, call.at) { DropKeepsEntry(es, IndexOf(es, call.key), k); }
      return;
    }
    if e.Some? && !Expired(c, e.value, call.at) {
      PutKeepsEntry(es, Entry(call.key, e.value.startedAt, e.value.count + 1), k);
      return;
    }
    var put := Put(es, Entry(call.key, call.at, 1));
    PutKeepsEntry(es, Entry(call.key, call.at, 1), k);
    PutKeeps(es, Entry(call.key, call.at, 1));
    PutCounts(c, es, Entry(call.key, call.at, 1));
    hide Put, CountsOk, Pruned;
    if |put| <= c.maxKeys {
      NothingToPrune(c, put, call.at);
      return;
    }
    PrunedDropsOne(c, put, call.at);
    DropKeepsEntry(put, Victim(c, put, call.at), k);
  }

  lemma DropKeepsEntry(es: seq<Entry>, i: int, k: Key)
    requires Distinct(es) && 0 <= i < |es| && Find(DropAt(es, i), k).Some?
    ensures Find(DropAt(es, i), k) == Find(es, k)
  {
    var j := IndexOf(DropAt(es, i), k);
    FoundThere(es, if j < i then j else j + 1);
  }

  lemma PutKeepsEntry(es: seq<Entry>, e: Entry, k: Key)
    requires Distinct(es) && e.key != k
    ensures Find(Put(es, e), k) == Find(es, k)
  {
    PutKeeps(es, e);
    var j := IndexOf(es, k);
    if j >= 0 { FoundThere(Put(es, e), j); }
  }

  lemma CallKeepsWellFormed(c: Config, es: seq<Entry>, call: Call)
    requires ValidConfig(c) && WellFormed(c, es)
    ensures WellFormed(c, AfterCall(c, es, call))
  {
    if call.Check? {
      CheckKeepsWellFormed(c, es, call.key, call.at);
    } else {
      ConsumeKeepsWellFormed(c, es, call.key, call.at);
    }
  }

  lemma OwnCheckLinks(c: Config, es: seq<Entry>, ws: seq<Window>, k: Key, now: int)
    requires ValidConfig(c) && WellFormed(c, es) && Linked(c, es, ws, k, now)
    ensures Linked(c, AfterCheck(c, es, k, now), ws, k, now)
  {
    RemoveKeeps(c, es, k);
    hide Remove;
  }

  lemma OwnTryLinks(c: Config, es: seq<Entry>, ws: seq<Window>, k: Key, now: int)
    requires ValidConfig(c) && WellFormed(c, es) && Linked(c, es, ws, k, now)
    ensures Linked(c, AfterConsume(c, es, k, now), NextWindows(c, es, ws, Try(k, now), k), k, now)
  {
    ConsumedKeyStays(c, es, k, now);
    hide AfterConsume;
    if Blocked(c, es, k, now) { return; }
    if !Live(c, es, k, now) {
      OpenSpaced(c, ws, now);
      hide Spaced, Open;
      return;
    }
    assert WindowOk(c, ws[|ws| - 1]);
    GrowSpaced(c, ws, now);
    hide Spaced, Grow;
  }

  /** One call moves map and windows together. */
  lemma CallLinks(c: Config, es: seq<Entry>, ws: seq<Window>, call: Call, k: Key)
    requires ValidConfig(c) && WellFormed(c, es) && Linked(c, es, ws, k, call.at)
    requires Live(c, es, k, call.at) ==> Find(AfterCall(c, es, call), k).Some?
    ensures Linked(c, AfterCall(c, es, call), NextWindows(c, es, ws, call, k), k, call.at)
  {
    if call.key == k {
      if call.Check? { OwnCheckLinks(c, es, ws, k, call.at); } else { OwnTryLinks(c, es, ws, k, call.at); }
      return;
    }
    if Find(AfterCall(c, es, call), k).Some? { OthersKeepEntry(c, es, call, k); }
    hide AfterCall;
  }

  lemma NextCount(c: Config, es: seq<Entry>, ws: seq<Window>, call: Call, k: Key, t: int)
    requires Linked(c, es, ws, k, call.at)
    ensures Count(c, NextWindows(c, es, ws, call, k), t) ==
              Count(c, ws, t) + if Passes(c, es, call, k) && t <= call.at < t + c.windowMs then 1 else 0
  {
    if ws != [] { GrowCount(c, ws, call.at, t); }
    OpenCount(c, ws, call.at, t);
    hide Count, Grow, Open, Linked, Blocked;
  }

  lemma {:induction false} PassedBound(c: Config, es: seq<Entry>, ws: seq<Window>, run: seq<Call>, k: Key, now: int,
          t: int)
    requires ValidConfig(c) && WellFormed(c, es) && Linked(c, es, ws, k, now) && Undisturbed(c, es, run, k, now)
    ensures Count(c, ws, t) + Passed(c, es, run, k, t) <= 2 * c.limit - 1
    decreases |run|
  {
    if run == [] {
      WindowsBound(c, ws, t);
      return;
    }
    var call := run[0];
    TimePasses(c, es, ws, k, now, call.at);
    CallLinks(c, es, ws, call, k);
    CallKeepsWellFormed(c, es, call);
    NextCount(c, es, ws, call, k, t);
    hide Linked, WellFormed, AfterCall, NextWindows, Count;
    PassedBound(c, AfterCall(c, es, call), NextWindows(c, es, ws, call, k), run[1..], k, call.at, t);
  }

  /** From an empty limiter, with a clock that does not go back and no eviction of the key, any
      interval of one window's length sees at most twice the limit less one successful consumes. */
  lemma AtMostTwiceTheLimit(c: Config, run: seq<Call>, k: Key, now: int, t: int)
    requires ValidConfig(c) && Undisturbed(c, [], run, k, now)
    ensures Passed(c, [], run, k, t) <= 2 * c.limit - 1
  {
    PassedBound(c, [], [], run, k, now, t);
  }

  // ---------------------------------------------------------------- the bound is met

  /** A consume of the only key: a new window, or one more in the open one. */
  lemma ConsumeOnly(c: Config, k: Key, at: int)
    requires ValidConfig(c)
    ensures !Blocked(c, [], k, at) && AfterConsume(c, [], k, at) == [Entry(k, at, 1)]
  {
    NothingToPrune(c, [Entry(k, at, 1)], at);
  }

  lemma ConsumeAgain(c: Config, e: Entry, at: int)
    requires ValidConfig(c) && (Expired(c, e, at) || e.count < c.limit)
    ensures !Blocked(c, [e], e.key, at)
    ensures AfterConsume(c, [e], e.key, at) ==
              [if Expired(c, e, at) then Entry(e.key, at, 1) else Entry(e.key, e.startedAt, e.count + 1)]
  {
    NothingToPrune(c, [Entry(e.key, at, 1)], at);
  }

  /** A successful consume in front of a run. */
  lemma InFront(c: Config, es: seq<Entry>, e: Entry, at: int, rest: seq<Call>, now: int, t: int)
    requires now <= at && !Blocked(c, es, e.key, at) && AfterConsume(c, es, e.key, at) == [e]
    requires Undisturbed(c, [e], rest, e.key, at)
    ensures Undisturbed(c, es, [Try(e.key, at)] + rest, e.key, now)
    ensures Passed(c, es, [Try(e.key, at)] + rest, e.key, t) ==
              (if t <= at < t + c.windowMs then 1 else 0) + Passed(c, [e], rest, e.key, t)
  {
    assert ([Try(e.key, at)] + rest)[1..] == rest;
    assert Find([e], e.key) == Some(e);
    hide AfterConsume, Blocked;
  }

  lemma Earlier(c: Config, es: seq<Entry>, run: seq<Call>, k: Key, at: int, now: int)
    requires now <= at && Undisturbed(c, es, run, k, at)
    ensures Undisturbed(c, es, run, k, now)
  {}

  /** Up to the limit all consumes of an open window succeed. */
  lemma {:induction false} Filling(c: Config, e: Entry, last: Entry, at: int, rest: seq<Call>, now: int, t: int)
    returns (run: seq<Call>)
    requires ValidConfig(c) && now <= at && !Expired(c, e, at) && t <= at < t + c.windowMs
    requires e.count <= last.count <= c.limit && last == e.(count := last.count)
    requires Undisturbed(c, [last], rest, e.key, at)
    ensures Undisturbed(c, [e], run, e.key, now)
    ensures Passed(c, [e], run, e.key, t) == last.count - e.count + Passed(c, [last], rest, e.key, t)
    decreases last.count - e.count
  {
    hide Undisturbed, Passed, Blocked, AfterConsume;
    if e == last {
      run := rest;
      Earlier(c, [e], rest, e.key, at, now);
    } else {
      var e' := e.(count := e.count + 1);
      var later := Filling(c, e', last, at, rest, at, t);
      ConsumeAgain(c, e, at);
      InFront(c, [e], e', at, later, now, t);
      run := [Try(e.key, at)] + later;
    }
  }

  /** A whole limit in a window that opens when a full one ends. */
  lemma NextWindow(c: Config, k: Key, full: Entry) returns (run: seq<Call>)
    requires ValidConfig(c) && c.windowMs >= 2 && full == Entry(k, 0, c.limit)
    ensures Undisturbed(c, [full], run, k, c.windowMs - 1)
    ensures Passed(c, [full], run, k, c.windowMs - 1) == c.limit
  {
    hide Undisturbed, Passed, Blocked, AfterConsume;
    var w, first, last := c.windowMs, Entry(k, c.windowMs, 1), Entry(k, c.windowMs, c.limit);
    NoCalls(c, last, w, w - 1);
    var rest := Filling(c, first, last, w, [], w, w - 1);
    ConsumeAgain(c, full, w);
    InFront(c, [full], first, w, rest, w - 1, w - 1);
    run := [Try(k, w)] + rest;
  }

  /** For every limit and every window longer than one tick the bound is met: one consume opens a
      window, the rest of the limit comes at its end, and a whole limit when the next one opens. */
  lemma TheBoundIsMet(c: Config, k: Key) returns (run: seq<Call>, t: int)
    requires ValidConfig(c) && c.windowMs >= 2
    ensures Undisturbed(c, [], run, k, 0) && Passed(c, [], run, k, t) == 2 * c.limit - 1
  {
    hide Undisturbed, Passed, Blocked, AfterConsume;
    t := c.windowMs - 1;
    var first, full := Entry(k, 0, 1), Entry(k, 0, c.limit);
    var next := NextWindow(c, k, full);
    var late := Filling(c, first, full, t, next, 0, t);
    ConsumeOnly(c, k, 0);
    InFront(c, [], first, 0, late, 0, t);
    run := [Try(k, 0)] + late;
  }

  lemma NoCalls(c: Config, e: Entry, now: int, t: int)
    ensures Undisturbed(c, [e], [], e.key, now) && Passed(c, [e], [], e.key, t) == 0
  {}
}
