/** The streaming redactor of process output and the bounded buffer before it. Whatever the chunks,
    the stream emits the line-by-line redaction of the first `limit` bytes. */
module Redactor {
  type Byte = bv8

  const REDACTED := "[REDACTED]"

  /** The two private-key patterns and the redaction of one line, as the redactor uses them. */
  datatype Policy = Policy(begins: string -> bool, ends: string -> bool, redact: string -> string)

  /** An incremental text decoder: one byte at a time, and what is left at the end. */
  datatype Decoder<!S> = Decoder(start: S, step: (S, Byte) -> (S, string), end: S -> string)

  function Decode<S>(dec: Decoder<S>, s: S, bytes: seq<Byte>): (S, string) {
    if bytes == [] then (s, "")
    else
      var first := dec.step(s, bytes[0]);
      var rest := Decode(dec, first.0, bytes[1..]);
      (rest.0, first.1 + rest.1)
  }

  lemma Regroup<T>(a: seq<T>, b: seq<T>, c: seq<T>)
    ensures (a + b) + c == a + (b + c)
  {}

  lemma {:induction false} DecodeJoins<S>(dec: Decoder<S>, s: S, a: seq<Byte>, b: seq<Byte>)
    ensures var first := Decode(dec, s, a);
            var second := Decode(dec, first.0, b);
            Decode(dec, s, a + b) == (second.0, first.1 + second.1)
  {
    if a == [] {
      assert a + b == b && "" + Decode(dec, s, b).1 == Decode(dec, s, b).1;
      return;
    }
    var head := dec.step(s, a[0]);
    DecodeJoins(dec, head.0, a[1..], b);
    assert (a + b)[0] == a[0] && (a + b)[1..] == a[1..] + b;
    var tail := Decode(dec, head.0, a[1..]);
    Regroup(head.1, tail.1, Decode(dec, tail.0, b).1);
  }

  // ---------------------------------------------------------------- one line, many lines

  /** `indexOf('\n')`. */
  function NewlineAt(t: string): (r: int)
    ensures -1 <= r < |t|
    ensures r >= 0 ==> t[r] == '\n' && forall i | 0 <= i < r :: t[i] != '\n'
    ensures r < 0 ==> forall i | 0 <= i < |t| :: t[i] != '\n'
  {
    if t == [] then -1
    else if t[0] == '\n' then 0
    else
      var r := NewlineAt(t[1..]);
      if r < 0 then -1 else r + 1
  }

  function LineLength(t: string): (n: nat)
    ensures n <= |t| && (t != [] ==> n > 0)
  {
    var r := NewlineAt(t);
    if r < 0 then |t| else r + 1
  }

  function Marker(line: string): string {
    if line != [] && line[|line| - 1] == '\n' then REDACTED + "\n" else REDACTED
  }

  /** What one line emits, and whether the next one starts inside a key block. */
  function Step(p: Policy, inside: bool, line: string): (string, bool) {
    if inside then ("", !p.ends(line))
    else if p.begins(line) then (Marker(line), !p.ends(line))
    else (p.redact(line), false)
  }

  datatype Drained = Drained(output: string, inside: bool, pending: string)

  /** `drain`: the complete lines, or with `flush` everything. */
  function Drain(p: Policy, inside: bool, t: string, flush: bool): Drained
    decreases |t|
  {
    if t == [] || (NewlineAt(t) < 0 && !flush) then Drained("", inside, t)
    else
      var n := LineLength(t);
      var emitted := Step(p, inside, t[..n]);
      var rest := Drain(p, emitted.1, t[n..], flush);
      Drained(emitted.0 + rest.output, rest.inside, rest.pending)
  }

  lemma FlushLeavesNothing(p: Policy, inside: bool, t: string)
    ensures Drain(p, inside, t, true).pending == []
    decreases |t|
  {
    if t != [] {
      var n := LineLength(t);
      FlushLeavesNothing(p, Step(p, inside, t[..n]).1, t[n..]);
    }
  }

  lemma {:induction false} NewlineOfJoin(a: string, b: string)
    requires NewlineAt(a) >= 0
    ensures NewlineAt(a + b) == NewlineAt(a)
  {
    assert (a + b)[0] == a[0] && (a + b)[1..] == a[1..] + b;
    if a[0] != '\n' { NewlineOfJoin(a[1..], b); }
  }

  lemma FirstLineOfJoin(a: string, b: string)
    requires NewlineAt(a) >= 0
    ensures NewlineAt(a + b) == NewlineAt(a) && LineLength(a + b) == LineLength(a)
    ensures (a + b)[..LineLength(a)] == a[..LineLength(a)] && (a + b)[LineLength(a)..] == a[LineLength(a)..] + b
  {
    NewlineOfJoin(a, b);
  }

  predicate Stops(t: string, flush: bool) { t == [] || (NewlineAt(t) < 0 && !flush) }

  lemma DrainStops(p: Policy, inside: bool, t: string, flush: bool)
    requires Stops(t, flush)
    ensures Drain(p, inside, t, flush) == Drained("", inside, t)
  {}

  /** One line taken off the front. */
  lemma DrainGoesOn(p: Policy, inside: bool, t: string, flush: bool)
    requires !Stops(t, flush)
    ensures var n := LineLength(t);
            var emitted := Step(p, inside, t[..n]);
            var rest := Drain(p, emitted.1, t[n..], flush);
            0 < n <= |t| && Drain(p, inside, t, flush) == Drained(emitted.0 + rest.output, rest.inside, rest.pending)
  {
    hide Step;
  }

  /** Draining in two goes emits what draining at once does. */
  lemma {:induction false} DrainJoins(p: Policy, inside: bool, a: string, b: string, flush: bool)
    ensures var first := Drain(p, inside, a, false);
            var second := Drain(p, first.inside, first.pending + b, flush);
            Drain(p, inside, a + b, flush) == Drained(first.output + second.output, second.inside, second.pending)
    decreases |a|
  {
    hide Drain, Step;
    if Stops(a, false) {
      DrainStops(p, inside, a, false);
      return;
    }
    FirstLineOfJoin(a, b);
    hide NewlineAt, LineLength;
    DrainGoesOn(p, inside, a, false);
    DrainGoesOn(p, inside, a + b, flush);
    var n := LineLength(a);
    var emitted := Step(p, inside, a[..n]);
    DrainJoins(p, emitted.1, a[n..], b, flush);
    var first := Drain(p, emitted.1, a[n..], false);
    Regroup(emitted.0, first.output, Drain(p, first.inside, first.pending + b, flush).output);
  }

  // ---------------------------------------------------------------- the batch redaction

  function Lines(t: string): seq<string>
    decreases |t|
  {
    if t == [] then [] else [t[..LineLength(t)]] + Lines(t[LineLength(t)..])
  }

  /** Whether line k starts inside a private-key block. */
  predicate Inside(p: Policy, lines: seq<string>, k: nat)
    requires k <= |lines|
  {
    k > 0 && !p.ends(lines[k - 1]) && (Inside(p, lines, k - 1) || p.begins(lines[k - 1]))
  }

  /** What line k contributes: nothing inside a block, the marker where one begins. */
  function Emitted(p: Policy, lines: seq<string>, k: nat): string
    requires k < |lines|
  {
    if Inside(p, lines, k) then "" else if p.begins(lines[k]) then Marker(lines[k]) else p.redact(lines[k])
  }

  function Upto(p: Policy, lines: seq<string>, n: nat): string
    requires n <= |lines|
  {
    if n == 0 then "" else Upto(p, lines, n - 1) + Emitted(p, lines, n - 1)
  }

  /** The redaction of a whole text, line by line. */
  function Batch(p: Policy, t: string): string { Upto(p, Lines(t), |Lines(t)|) }

  lemma LinesGoOn(t: string, lines: seq<string>, n: nat)
    requires n < |lines| && Lines(t) == lines[n..]
    ensures t != [] && t[..LineLength(t)] == lines[n] && Lines(t[LineLength(t)..]) == lines[n + 1..]
  {
    assert Lines(t)[0] == lines[n] && Lines(t)[1..] == lines[n + 1..];
  }

  lemma {:induction false} DrainFollowsLines(p: Policy, lines: seq<string>, n: nat, t: string)
    requires n <= |lines| && Lines(t) == lines[n..]
    ensures Upto(p, lines, n) + Drain(p, Inside(p, lines, n), t, true).output == Upto(p, lines, |lines|)
    decreases |lines| - n
  {
    hide Drain, Emitted;
    if n == |lines| {
      DrainStops(p, Inside(p, lines, n), t, true);
      return;
    }
    LinesGoOn(t, lines, n);
    hide Lines;
    DrainGoesOn(p, Inside(p, lines, n), t, true);
    var rest := t[LineLength(t)..];
    hide LineLength;
    DrainFollowsLines(p, lines, n + 1, rest);
    StepEmits(p, lines, n);
    hide Inside, Step;
    Regroup(Upto(p, lines, n), Emitted(p, lines, n), Drain(p, Inside(p, lines, n + 1), rest, true).output);
  }

  lemma StepEmits(p: Policy, lines: seq<string>, n: nat)
    requires n < |lines|
    ensures Step(p, Inside(p, lines, n), lines[n]) == (Emitted(p, lines, n), Inside(p, lines, n + 1))
  {}

  /** Draining everything at once is the batch redaction. */
  lemma DrainIsBatch(p: Policy, t: string)
    ensures Drain(p, false, t, true).output == Batch(p, t)
  {
    assert Lines(t)[0..] == Lines(t);
    DrainFollowsLines(p, Lines(t), 0, t);
  }

  /** Some line in front of k begins a block, and none from there on ends it. */
  predicate Open(p: Policy, lines: seq<string>, k: nat)
    requires k <= |lines|
  {
    exists b | 0 <= b < k :: p.begins(lines[b]) && forall j | b <= j < k :: !p.ends(lines[j])
  }

  lemma {:induction false} InsideIffOpen(p: Policy, lines: seq<string>, k: nat)
    requires k <= |lines|
    ensures Inside(p, lines, k) <==> Open(p, lines, k)
    decreases k
  {
    if k > 0 {
      InsideIffOpen(p, lines, k - 1);
      if Inside(p, lines, k) && Inside(p, lines, k - 1) {
        var b :| 0 <= b < k - 1 && p.begins(lines[b]) && forall j | b <= j < k - 1 :: !p.ends(lines[j]);
        assert forall j | b <= j < k :: !p.ends(lines[j]);
      } else if Inside(p, lines, k) {
        assert p.begins(lines[k - 1]) && forall j | k - 1 <= j < k :: !p.ends(lines[j]);
      }
      if Open(p, lines, k) {
        var b :| 0 <= b < k && p.begins(lines[b]) && forall j | b <= j < k :: !p.ends(lines[j]);
        assert !p.ends(lines[k - 1]);
        if b < k - 1 { assert Open(p, lines, k - 1); }
      }
    }
  }

  /** What each line contributes to the redaction of a text: nothing while a block is open, the
      marker where one begins, and its own redaction everywhere else. */
  lemma BatchIs(p: Policy, lines: seq<string>, k: nat)
    requires k < |lines|
    ensures Upto(p, lines, k + 1) == Upto(p, lines, k) +
              (if exists b | 0 <= b < k :: p.begins(lines[b]) && forall j | b <= j < k :: !p.ends(lines[j]) then ""
               else if p.begins(lines[k]) then
                 if lines[k] != [] && lines[k][|lines[k]| - 1] == '\n' then "[REDACTED]\n" else "[REDACTED]"
               else p.redact(lines[k]))
  {
    InsideIffOpen(p, lines, k);
    hide Inside;
  }

  /** The same lines, except that inside a key block, and on the line that opens it, only the marks
      and the line's end need to agree. */
  predicate AgreeOutside(p: Policy, a: seq<string>, b: seq<string>) {
    && |a| == |b|
    && forall k | 0 <= k < |a| ::
         || a[k] == b[k]
         || (Inside(p, a, k) && p.ends(a[k]) == p.ends(b[k]))
         || (!Inside(p, a, k) && p.begins(a[k]) && p.begins(b[k]) && p.ends(a[k]) == p.ends(b[k])
              && Marker(a[k]) == Marker(b[k]))
  }

  /** Nothing of a private-key block reaches the output: change its lines and the output stays. */
  lemma {:induction false} KeyBlocksNeverShow(p: Policy, a: seq<string>, b: seq<string>, n: nat)
    requires AgreeOutside(p, a, b) && n <= |a|
    ensures Inside(p, a, n) == Inside(p, b, n)
    ensures Upto(p, a, n) == Upto(p, b, n)
  {
    if n > 0 { KeyBlocksNeverShow(p, a, b, n - 1); }
  }

  /** The same for two texts. */
  lemma KeyTextNeverShows(p: Policy, t: string, u: string)
    requires AgreeOutside(p, Lines(t), Lines(u))
    ensures Batch(p, t) == Batch(p, u)
  {
    KeyBlocksNeverShow(p, Lines(t), Lines(u), |Lines(t)|);
  }

  // ---------------------------------------------------------------- the streaming class

  class SafeStreamingRedactor<S> {
    const policy: Policy
    const decoder: Decoder<S>
    var state: S
    var pending: string
    var insidePrivateKey: bool
    ghost var seen: seq<Byte>
    ghost var sent: string

    /** The fields are what draining everything seen so far leaves. */
    ghost predicate Valid()
      reads this
    {
      var decoded := Decode(decoder, decoder.start, seen);
      state == decoded.0 && Drained(sent, insidePrivateKey, pending) == Drain(policy, false, decoded.1, false)
    }

    constructor (policy: Policy, decoder: Decoder<S>)
      ensures Valid() && seen == [] && sent == "" && this.policy == policy && this.decoder == decoder
    {
      this.policy, this.decoder := policy, decoder;
      state := decoder.start;
      pending, insidePrivateKey := "", false;
      seen, sent := [], "";
    }

    method Push(chunk: seq<Byte>) returns (output: string)
      requires Valid()
      modifies this
      ensures Valid() && seen == old(seen) + chunk && sent == old(sent) + output
    {
      var decoded := Decode(decoder, state, chunk);
      DecodeJoins(decoder, decoder.start, seen, chunk);
      DrainJoins(policy, false, Decode(decoder, decoder.start, seen).1, decoded.1, false);
      state := decoded.0;
      pending := pending + decoded.1;
      output := DrainPending(false);
      seen, sent := seen + chunk, sent + output;
    }

    /** The rest of the output; the redactor is as new. */
    method Flush() returns (output: string)
      requires Valid()
      modifies this
      ensures Valid() && seen == [] && sent == ""
      ensures var decoded := Decode(decoder, decoder.start, old(seen));
              old(sent) + output == Batch(policy, decoded.1 + decoder.end(decoded.0))
    {
      var tail := decoder.end(state);
      var decoded := Decode(decoder, decoder.start, seen);
      DrainJoins(policy, false, decoded.1, tail, true);
      DrainIsBatch(policy, decoded.1 + tail);
      FlushLeavesNothing(policy, insidePrivateKey, pending + tail);
      state := decoder.start;
      pending := pending + tail;
      output := DrainPending(true);
      if insidePrivateKey {
        pending := "";
        insidePrivateKey := false;
      }
      seen, sent := [], "";
    }

    /** The loop of `drain`. */
    method DrainPending(flush: bool) returns (output: string)
      modifies this`pending, this`insidePrivateKey
      ensures Drained(output, insidePrivateKey, pending) == Drain(policy, old(insidePrivateKey), old(pending), flush)
    {
      hide Drain;
      output := "";
      while true
        invariant var rest := Drain(policy, insidePrivateKey, pending, flush);
                  Drain(policy, old(insidePrivateKey), old(pending), flush) ==
                      Drained(output + rest.output, rest.inside, rest.pending)
        decreases |pending|
      {
        var newline := NewlineAt(pending);
        if newline < 0 && !flush {
          DrainStops(policy, insidePrivateKey, pending, flush);
          break;
        }
        if |pending| == 0 {
          DrainStops(policy, insidePrivateKey, pending, flush);
          break;
        }
        DrainGoesOn(policy, insidePrivateKey, pending, flush);
        var take := if newline < 0 then |pending| else newline + 1;
        var line := pending[..take];
        ghost var before, emitted := output, Step(policy, insidePrivateKey, line);
        pending := pending[take..];
        if insidePrivateKey {
          if policy.ends(line) { insidePrivateKey := false; }
        } else if policy.begins(line) {
          var endsHere := policy.ends(line);
          insidePrivateKey := !endsHere;
          output := output + Marker(line);
        } else {
          output := output + policy.redact(line);
        }
        assert output == before + emitted.0 && insidePrivateKey == emitted.1;
        Regroup(before, emitted.0, Drain(policy, insidePrivateKey, pending, flush).output);
      }
    }
  }

  // ---------------------------------------------------------------- the bounded buffer

  datatype Appended = Appended(buffer: seq<Byte>, accepted: seq<Byte>, truncated: bool)

  function BoundedAppend(current: seq<Byte>, chunk: seq<Byte>, limit: nat): Appended {
    if |current| >= limit then Appended(current, [], true)
    else
      var remaining := limit - |current|;
      var accepted := if |chunk| <= remaining then chunk else chunk[..remaining];
      Appended(current + accepted, accepted, |chunk| > remaining)
  }

  function Concat(chunks: seq<seq<Byte>>): seq<Byte> {
    if chunks == [] then [] else Concat(chunks[..|chunks| - 1]) + chunks[|chunks| - 1]
  }

  function Take(bytes: seq<Byte>, limit: nat): seq<Byte> { if |bytes| <= limit then bytes else bytes[..limit] }

  /** Exactly when the flag is set: bytes were lost, or a chunk came, even an empty one, with the
      buffer already full. */
  predicate Overran(chunks: seq<seq<Byte>>, limit: nat) {
    |Concat(chunks)| > limit || (chunks != [] && |Concat(chunks[..|chunks| - 1])| >= limit)
  }

  lemma AppendStep(chunks: seq<seq<Byte>>, chunk: seq<Byte>, limit: nat)
    ensures var r := BoundedAppend(Take(Concat(chunks), limit), chunk, limit);
            && r.buffer == Take(Concat(chunks + [chunk]), limit)
            && r.buffer == Take(Concat(chunks), limit) + r.accepted
            && (Overran(chunks, limit) || r.truncated <==> Overran(chunks + [chunk], limit))
  {
    assert (chunks + [chunk])[..|chunks|] == chunks;
    if chunks != [] { assert Concat(chunks) == Concat(chunks[..|chunks| - 1]) + chunks[|chunks| - 1]; }
  }

  /** Streams deliver no empty chunk: then the flag says exactly that bytes were lost. */
  lemma OverranMeansLost(chunks: seq<seq<Byte>>, limit: nat)
    requires forall i | 0 <= i < |chunks| :: chunks[i] != []
    ensures Overran(chunks, limit) <==> |Concat(chunks)| > limit
  {}

  /** The text a stream's first bytes decode to. */
  function TextOf<S>(dec: Decoder<S>, chunks: seq<seq<Byte>>, limit: nat): string {
    var decoded := Decode(dec, dec.start, Take(Concat(chunks), limit));
    decoded.1 + dec.end(decoded.0)
  }

  /** All that a stream passes on, from its chunks: what `CapturedStream` emits until it closes. */
  function PassedOn<S>(p: Policy, dec: Decoder<S>, chunks: seq<seq<Byte>>, limit: nat): string {
    Batch(p, TextOf(dec, chunks, limit))
  }

  /** However two streams are cut into chunks: when their texts differ only in key blocks, the same
      is passed on. */
  lemma KeyStreamNeverShows<S>(p: Policy, dec: Decoder<S>, a: seq<seq<Byte>>, b: seq<seq<Byte>>, limit: nat)
    requires AgreeOutside(p, Lines(TextOf(dec, a, limit)), Lines(TextOf(dec, b, limit)))
    ensures PassedOn(p, dec, a, limit) == PassedOn(p, dec, b, limit)
  {
    KeyTextNeverShows(p, TextOf(dec, a, limit), TextOf(dec, b, limit));
  }

  /** One output stream of a child process: buffer, flag and redactor. */
  class CapturedStream<S> {
    const limit: nat
    const redactor: SafeStreamingRedactor<S>
    var buffer: seq<Byte>
    var truncated: bool
    ghost var arrived: seq<seq<Byte>>
    ghost var emitted: string

    ghost predicate Valid()
      reads this, redactor
    {
      && redactor.Valid() && redactor.seen == buffer && redactor.sent == emitted
      && buffer == Take(Concat(arrived), limit)
      && truncated == Overran(arrived, limit)
    }

    constructor (limit: nat, policy: Policy, decoder: Decoder<S>)
      ensures Valid() && fresh(redactor) && arrived == [] && emitted == ""
      ensures this.limit == limit && redactor.policy == policy && redactor.decoder == decoder
    {
      this.limit := limit;
      redactor := new SafeStreamingRedactor(policy, decoder);
      buffer, truncated, arrived, emitted := [], false, [], "";
    }

    /** The `data` event. */
    method OnData(chunk: seq<Byte>) returns (text: string)
      requires Valid()
      modifies this, redactor
      ensures Valid() && arrived == old(arrived) + [chunk] && emitted == old(emitted) + text
    {
      AppendStep(arrived, chunk, limit);
      var next := BoundedAppend(buffer, chunk, limit);
      buffer := next.buffer;
      truncated := truncated || next.truncated;
      text := redactor.Push(next.accepted);
      arrived, emitted := arrived + [chunk], emitted + text;
    }

    /** The end of the process: all that was emitted is the batch redaction of the first bytes. */
    method OnClose() returns (text: string)
      requires Valid()
      modifies this, redactor
      ensures old(emitted) + text == PassedOn(redactor.policy, redactor.decoder, old(arrived), limit)
      ensures buffer == Take(Concat(old(arrived)), limit) && truncated == Overran(old(arrived), limit)
    {
      text := redactor.Flush();
    }
  }
}
