/** The canonical printer behind the idempotency fingerprint, with a parser that undoes it. Two
    values print alike exactly when they are the same value up to the order of object keys. */
module Canonical {
  import opened Prelude

  /** One UTF-16 code unit; a JavaScript string is a sequence of them. */
  type Unit = u: int | 0 <= u < 0x1_0000
  type Text = seq<Unit>

  const QUOTE: Unit := 34
  const PLUS: Unit := 43
  const COMMA: Unit := 44
  const MINUS: Unit := 45
  const DOT: Unit := 46
  const SLASH: Unit := 47
  const COLON: Unit := 58
  const EQUALS: Unit := 61
  const UPPER_E: Unit := 69
  const OPEN_BRACKET: Unit := 91
  const BACKSLASH: Unit := 92
  const CLOSE_BRACKET: Unit := 93
  const LOWER_E: Unit := 101
  const LOWER_U: Unit := 117
  const OPEN_BRACE: Unit := 123
  const CLOSE_BRACE: Unit := 125

  const NULL: Text := [110, 117, 108, 108]
  const TRUE: Text := [116, 114, 117, 101]
  const FALSE: Text := [102, 97, 108, 115, 101]
  const UNDEFINED: Text := [117, 110, 100, 101, 102, 105, 110, 101, 100]
  const BYTES_PREFIX: Text := [98, 121, 116, 101, 115, 58]

  /** The values the printer meets. A finite number is known by the numeral `JSON.stringify`
      gives it, a byte array by its base64 text. The keys of an object come in any order. */
  datatype Json =
    | Null
    | Undefined
    | Bool(flag: bool)
    | Num(numeral: Text)
    | NonFinite
    | Str(text: Text)
    | Bytes(base64: Text)
    | Arr(items: seq<Json>)
    | Obj(members: seq<Member>)

  datatype Member = Member(key: Text, value: Json)

  predicate NumberUnit(u: Unit) { 48 <= u <= 57 || u == PLUS || u == MINUS || u == DOT || u == LOWER_E || u == UPPER_E }

  predicate Base64Unit(u: Unit) {
    48 <= u <= 57 || 65 <= u <= 90 || 97 <= u <= 122 || u == PLUS || u == SLASH || u == EQUALS
  }

  predicate DistinctKeys(ms: seq<Member>) {
    forall i, j | 0 <= i < j < |ms| :: ms[i].key != ms[j].key
  }

  /** Numerals are numerals, base64 is base64, and no object has a key twice. */
  predicate Valid(v: Json) {
    match v
    case Num(t) => t != [] && forall u | u in t :: NumberUnit(u)
    case Bytes(b) => forall u | u in b :: Base64Unit(u)
    case Arr(items) => forall i | 0 <= i < |items| :: Valid(items[i])
    case Obj(ms) => DistinctKeys(ms) && forall i | 0 <= i < |ms| :: Valid(ms[i].value)
    case _ => true
  }

  // ---------------------------------------------------------------- strings

  predicate HighSurrogate(u: Unit) { 0xD800 <= u < 0xDC00 }
  predicate LowSurrogate(u: Unit) { 0xDC00 <= u < 0xE000 }

  function HexDigit(n: int): Unit
    requires 0 <= n < 16
  {
    if n < 10 then 48 + n else 87 + n
  }

  function Hex(u: Unit): Text { [HexDigit(u / 4096), HexDigit(u / 256 % 16), HexDigit(u / 16 % 16), HexDigit(u % 16)] }

  /** The short escapes of section 7 of RFC 8259 that the printer uses. */
  function ShortEscape(u: Unit): Option<Unit> {
    if u == 8 then Some(98)
    else if u == 9 then Some(116)
    else if u == 10 then Some(110)
    else if u == 12 then Some(102)
    else if u == 13 then Some(114)
    else if u == QUOTE || u == BACKSLASH then Some(u)
    else None
  }

  /** A unit on its own: escaped if the grammar demands it or if it is half a surrogate pair. */
  function EscapeUnit(u: Unit): Text {
    if ShortEscape(u).Some? then [BACKSLASH, ShortEscape(u).value]
    else if u < 32 || HighSurrogate(u) || LowSurrogate(u) then [BACKSLASH, LOWER_U] + Hex(u)
    else [u]
  }

  function Escape(s: Text): Text {
    if s == [] then []
    else if |s| >= 2 && HighSurrogate(s[0]) && LowSurrogate(s[1]) then s[..2] + Escape(s[2..])
    else EscapeUnit(s[0]) + Escape(s[1..])
  }

  /** `JSON.stringify` of a string. */
  function Quote(s: Text): Text { [QUOTE] + Escape(s) + [QUOTE] }

  // ---------------------------------------------------------------- keys

  /** The order `Array.prototype.sort` gives strings: by code unit, a prefix first. */
  predicate Precedes(a: Text, b: Text) {
    b != [] && (a == [] || a[0] < b[0] || (a[0] == b[0] && Precedes(a[1..], b[1..])))
  }

  function Insert(k: Text, keys: seq<Text>): seq<Text> {
    if keys == [] then [k]
    else if Precedes(keys[0], k) then [keys[0]] + Insert(k, keys[1..])
    else [k] + keys
  }

  function Sort(keys: seq<Text>): seq<Text> {
    if keys == [] then [] else Insert(keys[0], Sort(keys[1..]))
  }

  function Keys(ms: seq<Member>): (r: seq<Text>)
    ensures |r| == |ms| && forall i | 0 <= i < |ms| :: r[i] == ms[i].key
  {
    seq(|ms|, i requires 0 <= i < |ms| => ms[i].key)
  }

  function IndexOf(ms: seq<Member>, k: Text): (i: nat)
    requires k in Keys(ms)
    ensures i < |ms| && ms[i].key == k
  {
    if ms[0].key == k then 0 else KeysTail(ms); 1 + IndexOf(ms[1..], k)
  }

  lemma KeysTail(ms: seq<Member>)
    requires ms != []
    ensures Keys(ms) == [ms[0].key] + Keys(ms[1..])
  {}

  function Lookup(ms: seq<Member>, k: Text): Json
    requires k in Keys(ms)
  {
    ms[IndexOf(ms, k)].value
  }

  // ---------------------------------------------------------------- the printer

  function Join(parts: seq<Text>): Text {
    if parts == [] then []
    else if |parts| == 1 then parts[0]
    else parts[0] + [COMMA] + Join(parts[1..])
  }

  lemma SortedKeysThere(ms: seq<Member>)
    ensures forall k | k in Sort(Keys(ms)) :: k in Keys(ms)
  {
    SortKeepsElements(Keys(ms));
  }

  /** `stable`: keys sorted, each printed with the value found under it. */
  function Stable(v: Json): Text
    decreases v, 0
  {
    match v
    case Null => NULL
    case Undefined => UNDEFINED
    case Bool(b) => if b then TRUE else FALSE
    case Num(t) => t
    case NonFinite => NULL
    case Str(s) => Quote(s)
    case Bytes(b) => [QUOTE] + BYTES_PREFIX + b + [QUOTE]
    case Arr(items) => [OPEN_BRACKET] + Join(StableItems(items)) + [CLOSE_BRACKET]
    case Obj(ms) => SortedKeysThere(ms); [OPEN_BRACE] + Join(StableFields(Sort(Keys(ms)), ms)) + [CLOSE_BRACE]
  }

  function StableItems(items: seq<Json>): seq<Text>
    decreases items, |items|
  {
    if items == [] then [] else [Stable(items[0])] + StableItems(items[1..])
  }

  function StableFields(keys: seq<Text>, ms: seq<Member>): seq<Text>
    requires forall k | k in keys :: k in Keys(ms)
    decreases ms, |keys|
  {
    if keys == [] then []
    else [Quote(keys[0]) + [COLON] + Stable(ms[IndexOf(ms, keys[0])].value)] + StableFields(keys[1..], ms)
  }

  // ---------------------------------------------------------------- the canonical form

  /** What the printer keeps: no number but a finite one, no byte array, keys sorted. */
  function Canon(v: Json): Json
    decreases v, 0
  {
    match v
    case NonFinite => Null
    case Bytes(b) => Str(BYTES_PREFIX + b)
    case Arr(items) => Arr(CanonItems(items))
    case Obj(ms) => SortedKeysThere(ms); Obj(CanonFields(Sort(Keys(ms)), ms))
    case _ => v
  }

  function CanonItems(items: seq<Json>): (r: seq<Json>)
    ensures |r| == |items| && forall i | 0 <= i < |items| :: r[i] == Canon(items[i])
    decreases items, |items|
  {
    if items == [] then [] else [Canon(items[0])] + CanonItems(items[1..])
  }

  function CanonFields(keys: seq<Text>, ms: seq<Member>): (r: seq<Member>)
    requires forall k | k in keys :: k in Keys(ms)
    ensures |r| == |keys|
    ensures forall i | 0 <= i < |keys| :: r[i] == Member(keys[i], Canon(Lookup(ms, keys[i])))
    decreases ms, |keys|
  {
    if keys == [] then []
    else [Member(keys[0], Canon(ms[IndexOf(ms, keys[0])].value))] + CanonFields(keys[1..], ms)
  }

  /** The printer without the sorting and without the values `Canon` removes. */
  function Print(c: Json): Text
    decreases c, 0
  {
    match c
    case Null => NULL
    case Undefined => UNDEFINED
    case Bool(b) => if b then TRUE else FALSE
    case Num(t) => t
    case Str(s) => Quote(s)
    case Arr(items) => [OPEN_BRACKET] + PrintItems(items)
    case Obj(ms) => [OPEN_BRACE] + PrintMembers(ms)
    case _ => []
  }

  /** The items with their separators, up to and with the closing bracket. */
  function PrintItems(items: seq<Json>): Text
    decreases items, |items|
  {
    if items == [] then [CLOSE_BRACKET]
    else if |items| == 1 then Print(items[0]) + [CLOSE_BRACKET]
    else Print(items[0]) + [COMMA] + PrintItems(items[1..])
  }

  function PrintMembers(ms: seq<Member>): Text
    decreases ms, |ms|
  {
    if ms == [] then [CLOSE_BRACE]
    else if |ms| == 1 then PrintMember(ms[0]) + [CLOSE_BRACE]
    else PrintMember(ms[0]) + [COMMA] + PrintMembers(ms[1..])
  }

  function PrintMember(m: Member): Text
    decreases m, 0
  {
    Quote(m.key) + [COLON] + Print(m.value)
  }

  // ---------------------------------------------------------------- the parser

  datatype Parsed<T> = Parsed(value: T, rest: Text)

  function Word(t: Text, word: Text, v: Json): (r: Option<Parsed<Json>>)
    requires word != []
    ensures r.Some? ==> |r.value.rest| < |t|
  {
    if word <= t then Some(Parsed(v, t[|word|..])) else None
  }

  function NumeralLength(t: Text): (n: nat)
    ensures n <= |t|
  {
    if t == [] || !NumberUnit(t[0]) then 0 else 1 + NumeralLength(t[1..])
  }

  function HexValue(u: Unit): int {
    if 48 <= u <= 57 then u - 48 else if 97 <= u <= 102 then u - 87 else 0
  }

  function Unescape(u: Unit): Unit {
    if u == 98 then 8 else if u == 116 then 9 else if u == 110 then 10 else if u == 102 then 12 else if u == 114 then 13
       else u
  }

  function UnHex(t: Text): Unit
    requires |t| >= 4
  {
    HexValueRange(t[0]); HexValueRange(t[1]); HexValueRange(t[2]); HexValueRange(t[3]);
    4096 * HexValue(t[0]) + 256 * HexValue(t[1]) + 16 * HexValue(t[2]) + HexValue(t[3])
  }

  lemma HexValueRange(u: Unit)
    ensures 0 <= HexValue(u) < 16
  {}

  /** The characters of a string, up to and with the closing quote. */
  function ParseChars(t: Text): (r: Option<Parsed<Text>>)
    ensures r.Some? ==> |r.value.rest| < |t|
    decreases |t|
  {
    if t == [] then None
    else if t[0] == QUOTE then Some(Parsed([], t[1..]))
    else if t[0] == BACKSLASH then
      if |t| >= 2 && t[1] != LOWER_U then Prepend(Unescape(t[1]), ParseChars(t[2..]))
      else if |t| >= 6 then Prepend(UnHex(t[2..6]), ParseChars(t[6..]))
      else None
    else Prepend(t[0], ParseChars(t[1..]))
  }

  function Prepend<T>(x: T, r: Option<Parsed<seq<T>>>): Option<Parsed<seq<T>>> {
    if r.None? then None else Some(Parsed([x] + r.value.value, r.value.rest))
  }

  function ParseValue(t: Text): (r: Option<Parsed<Json>>)
    ensures r.Some? ==> |r.value.rest| < |t|
    decreases |t|, 0
  {
    if t == [] then None
    else if t[0] == NULL[0] then Word(t, NULL, Null)
    else if t[0] == TRUE[0] then Word(t, TRUE, Bool(true))
    else if t[0] == FALSE[0] then Word(t, FALSE, Bool(false))
    else if t[0] == UNDEFINED[0] then Word(t, UNDEFINED, Undefined)
    else if t[0] == QUOTE then
      var s := ParseChars(t[1..]);
      if s.None? then None else Some(Parsed(Str(s.value.value), s.value.rest))
    else if t[0] == OPEN_BRACKET then
      var items := ParseItems(t[1..]);
      if items.None? then None else Some(Parsed(Arr(items.value.value), items.value.rest))
    else if t[0] == OPEN_BRACE then
      var ms := ParseMembers(t[1..]);
      if ms.None? then None else Some(Parsed(Obj(ms.value.value), ms.value.rest))
    else
      var n := NumeralLength(t);
      if n == 0 then None else Some(Parsed(Num(t[..n]), t[n..]))
  }

  function ParseItems(t: Text): (r: Option<Parsed<seq<Json>>>)
    ensures r.Some? ==> |r.value.rest| < |t|
    decreases |t|, 1
  {
    if t != [] && t[0] == CLOSE_BRACKET then Some(Parsed([], t[1..]))
    else
      var v := ParseValue(t);
      if v.None? || v.value.rest == [] then None
      else if v.value.rest[0] == CLOSE_BRACKET then Some(Parsed([v.value.value], v.value.rest[1..]))
      else if v.value.rest[0] == COMMA then Prepend(v.value.value, ParseItems(v.value.rest[1..]))
      else None
  }

  function ParseMembers(t: Text): (r: Option<Parsed<seq<Member>>>)
    ensures r.Some? ==> |r.value.rest| < |t|
    decreases |t|, 1
  {
    if t == [] then None
    else if t[0] == CLOSE_BRACE then Some(Parsed([], t[1..]))
    else
      var k := ParseChars(t[1..]);
      if k.None? || k.value.rest == [] then None
      else
        var v := ParseValue(k.value.rest[1..]);
        if v.None? || v.value.rest == [] then None
        else
          var m := Member(k.value.value, v.value.value);
          if v.value.rest[0] == CLOSE_BRACE then Some(Parsed([m], v.value.rest[1..]))
          else if v.value.rest[0] == COMMA then Prepend(m, ParseMembers(v.value.rest[1..]))
          else None
  }

  // ---------------------------------------------------------------- the parser undoes the printer

  lemma Regroup(a: Text, b: Text, c: Text)
    ensures (a + b) + c == a + (b + c)
  {}

  lemma First(u: Unit, t: Text)
    ensures [u] + t != [] && ([u] + t)[0] == u && ([u] + t)[1..] == t
  {}

  lemma FirstTwo(u: Unit, v: Unit, t: Text)
    ensures |[u, v] + t| >= 2 && ([u, v] + t)[0] == u && ([u, v] + t)[1] == v && ([u, v] + t)[2..] == t
  {}

  lemma HexDigitBack(n: int)
    requires 0 <= n < 16
    ensures HexValue(HexDigit(n)) == n
  {}

  lemma FourDigits(u: Unit)
    ensures u == 4096 * (u / 4096) + 256 * (u / 256 % 16) + 16 * (u / 16 % 16) + u % 16
  {
    var q := u / 16;
    assert u == 16 * q + u % 16;
    assert q == 16 * (q / 16) + q % 16 && q / 16 == u / 256;
    var p := u / 256;
    assert p == 16 * (p / 16) + p % 16 && p / 16 == u / 4096;
  }

  lemma HexRoundTrip(u: Unit)
    ensures UnHex(Hex(u)) == u
  {
    HexDigitBack(u / 4096);
    HexDigitBack(u / 256 % 16);
    HexDigitBack(u / 16 % 16);
    HexDigitBack(u % 16);
    FourDigits(u);
    hide HexDigit, HexValue;
  }

  lemma RawUnit(u: Unit, rest: Text)
    requires u != QUOTE && u != BACKSLASH
    ensures ParseChars([u] + rest) == Prepend(u, ParseChars(rest))
  {
    First(u, rest);
  }

  lemma HexEscapeText(h: Text, rest: Text)
    requires |h| == 4
    ensures var t := [BACKSLASH, LOWER_U] + h + rest;
            |t| >= 6 && t[0] == BACKSLASH && t[1] == LOWER_U && t[2..6] == h && t[6..] == rest
  {}

  lemma HexUnit(u: Unit, rest: Text)
    ensures ParseChars([BACKSLASH, LOWER_U] + Hex(u) + rest) == Prepend(u, ParseChars(rest))
  {
    HexRoundTrip(u);
    HexEscapeText(Hex(u), rest);
    hide Hex, UnHex;
  }

  lemma ShortUnit(u: Unit, rest: Text)
    requires ShortEscape(u).Some?
    ensures ParseChars([BACKSLASH, ShortEscape(u).value] + rest) == Prepend(u, ParseChars(rest))
  {
    var v := ShortEscape(u).value;
    assert v != LOWER_U && Unescape(v) == u;
    hide ShortEscape, Unescape;
    FirstTwo(BACKSLASH, v, rest);
  }

  /** Reading an escaped unit gives the unit back. */
  lemma UnitRoundTrip(u: Unit, rest: Text)
    ensures ParseChars(EscapeUnit(u) + rest) == Prepend(u, ParseChars(rest))
  {
    hide ParseChars, Hex;
    if ShortEscape(u).Some? {
      ShortUnit(u, rest);
      return;
    }
    if u < 32 || HighSurrogate(u) || LowSurrogate(u) {
      HexUnit(u, rest);
      return;
    }
    RawUnit(u, rest);
  }

  lemma ClosingQuote(rest: Text)
    ensures ParseChars([QUOTE] + rest) == Some(Parsed([], rest))
  {
    First(QUOTE, rest);
  }

  /** An escaped string and its closing quote, whatever follows. */
  function Chars(s: Text, rest: Text): Text { Escape(s) + ([QUOTE] + rest) }

  lemma {:induction false} CharsRoundTrip(s: Text, rest: Text)
    ensures ParseChars(Chars(s, rest)) == Some(Parsed(s, rest))
  {
    hide ParseChars, EscapeUnit;
    if s == [] {
      ClosingQuote(rest);
      assert Chars(s, rest) == [QUOTE] + rest;
      return;
    }
    if |s| >= 2 && HighSurrogate(s[0]) && LowSurrogate(s[1]) {
      CharsRoundTrip(s[2..], rest);
      RawUnit(s[1], Chars(s[2..], rest));
      RawUnit(s[0], [s[1]] + Chars(s[2..], rest));
      PairChars(s, rest);
      return;
    }
    CharsRoundTrip(s[1..], rest);
    UnitRoundTrip(s[0], Chars(s[1..], rest));
    Regroup(EscapeUnit(s[0]), Escape(s[1..]), [QUOTE] + rest);
    assert s == [s[0]] + s[1..];
  }

  lemma PairChars(s: Text, rest: Text)
    requires |s| >= 2 && HighSurrogate(s[0]) && LowSurrogate(s[1])
    ensures Chars(s, rest) == [s[0]] + ([s[1]] + Chars(s[2..], rest))
    ensures s == [s[0]] + ([s[1]] + s[2..])
  {
    assert s[..2] == [s[0]] + [s[1]];
    Regroup(s[..2], Escape(s[2..]), [QUOTE] + rest);
    Regroup([s[0]], [s[1]], Chars(s[2..], rest));
  }

  /** The values `Canon` gives: what the parser can return. */
  predicate Plain(c: Json) {
    match c
    case NonFinite => false
    case Bytes(_) => false
    case Num(t) => t != [] && forall u | u in t :: NumberUnit(u)
    case Arr(items) => forall i | 0 <= i < |items| :: Plain(items[i])
    case Obj(ms) => forall i | 0 <= i < |ms| :: Plain(ms[i].value)
    case _ => true
  }

  /** What may follow a value. */
  predicate Delimited(rest: Text) { rest == [] || !NumberUnit(rest[0]) }

  lemma FirstUnit(c: Json)
    requires Plain(c)
    ensures Print(c) != [] && Print(c)[0] != CLOSE_BRACKET
  {
    match c
    case Num(t) => assert t[0] in t;
    case _ =>
  }

  lemma {:induction false} NumeralEnds(t: Text, rest: Text)
    requires Delimited(rest) && forall u | u in t :: NumberUnit(u)
    ensures NumeralLength(t + rest) == |t|
  {
    if t == [] {
      assert t + rest == rest;
    } else {
      assert t[0] in t && (t + rest)[1..] == t[1..] + rest;
      NumeralEnds(t[1..], rest);
    }
  }

  lemma Split(word: Text, rest: Text)
    ensures (word + rest)[..|word|] == word && (word + rest)[|word|..] == rest
  {}

  lemma NumeralRoundTrip(n: Text, rest: Text)
    requires n != [] && Delimited(rest) && forall u | u in n :: NumberUnit(u)
    ensures ParseValue(n + rest) == Some(Parsed(Num(n), rest))
  {
    assert n[0] in n && (n + rest)[0] == n[0];
    NumeralEnds(n, rest);
    Split(n, rest);
    hide NumeralLength;
  }

  lemma StringRoundTrip(s: Text, rest: Text)
    ensures ParseValue(Quote(s) + rest) == Some(Parsed(Str(s), rest))
  {
    CharsRoundTrip(s, rest);
    QuoteText(s, rest);
    First(QUOTE, Chars(s, rest));
    hide ParseChars, Quote, Chars;
  }

  lemma QuoteText(s: Text, rest: Text)
    ensures Quote(s) + rest == [QUOTE] + Chars(s, rest)
  {
    hide Escape;
    Regroup([QUOTE] + Escape(s), [QUOTE], rest);
    Regroup([QUOTE], Escape(s), [QUOTE] + rest);
  }

  /** What follows the first item of a list, and the first member of an object. */
  function AfterItem(tail: seq<Json>, rest: Text): Text {
    if tail == [] then [CLOSE_BRACKET] + rest else [COMMA] + (PrintItems(tail) + rest)
  }

  function AfterMember(tail: seq<Member>, rest: Text): Text {
    if tail == [] then [CLOSE_BRACE] + rest else [COMMA] + (PrintMembers(tail) + rest)
  }

  lemma ItemsText(items: seq<Json>, rest: Text)
    requires items != []
    ensures PrintItems(items) + rest == Print(items[0]) + AfterItem(items[1..], rest)
    ensures Delimited(AfterItem(items[1..], rest))
  {
    hide Print;
    if |items| == 1 {
      Regroup(Print(items[0]), [CLOSE_BRACKET], rest);
    } else {
      Regroup(Print(items[0]) + [COMMA], PrintItems(items[1..]), rest);
      Regroup(Print(items[0]), [COMMA], PrintItems(items[1..]) + rest);
    }
  }

  lemma MembersText(ms: seq<Member>, rest: Text)
    requires ms != []
    ensures PrintMembers(ms) + rest == PrintMember(ms[0]) + AfterMember(ms[1..], rest)
    ensures Delimited(AfterMember(ms[1..], rest))
  {
    hide PrintMember;
    if |ms| == 1 {
      Regroup(PrintMember(ms[0]), [CLOSE_BRACE], rest);
    } else {
      Regroup(PrintMember(ms[0]) + [COMMA], PrintMembers(ms[1..]), rest);
      Regroup(PrintMember(ms[0]), [COMMA], PrintMembers(ms[1..]) + rest);
    }
  }

  lemma MemberText(m: Member, after: Text)
    ensures PrintMember(m) + after == [QUOTE] + Chars(m.key, [COLON] + (Print(m.value) + after))
  {
    hide Quote, Print, Chars;
    Regroup(Quote(m.key) + [COLON], Print(m.value), after);
    Regroup(Quote(m.key), [COLON], Print(m.value) + after);
    QuoteText(m.key, [COLON] + (Print(m.value) + after));
  }

  lemma ItemsStep(t: Text, v: Json, after: Text)
    requires t != [] && t[0] != CLOSE_BRACKET && ParseValue(t) == Some(Parsed(v, after)) && after != []
    ensures after[0] == CLOSE_BRACKET ==> ParseItems(t) == Some(Parsed([v], after[1..]))
    ensures after[0] == COMMA ==> ParseItems(t) == Prepend(v, ParseItems(after[1..]))
  {
    hide ParseValue;
  }

  lemma MembersStep(t: Text, key: Text, colon: Text, v: Json, after: Text)
    requires t != [] && t[0] != CLOSE_BRACE && ParseChars(t[1..]) == Some(Parsed(key, colon)) && colon != []
    requires ParseValue(colon[1..]) == Some(Parsed(v, after)) && after != []
    ensures after[0] == CLOSE_BRACE ==> ParseMembers(t) == Some(Parsed([Member(key, v)], after[1..]))
    ensures after[0] == COMMA ==> ParseMembers(t) == Prepend(Member(key, v), ParseMembers(after[1..]))
  {
    hide ParseValue, ParseChars;
  }

  lemma ArrayRead(items: seq<Json>, rest: Text)
    requires ParseItems(PrintItems(items) + rest) == Some(Parsed(items, rest))
    ensures ParseValue(Print(Arr(items)) + rest) == Some(Parsed(Arr(items), rest))
  {
    hide ParseItems, PrintItems;
    Regroup([OPEN_BRACKET], PrintItems(items), rest);
    First(OPEN_BRACKET, PrintItems(items) + rest);
    assert Print(Arr(items)) + rest == [OPEN_BRACKET] + (PrintItems(items) + rest);
    hide Print;
  }

  lemma ObjectRead(ms: seq<Member>, rest: Text)
    requires ParseMembers(PrintMembers(ms) + rest) == Some(Parsed(ms, rest))
    ensures ParseValue(Print(Obj(ms)) + rest) == Some(Parsed(Obj(ms), rest))
  {
    hide ParseMembers, PrintMembers;
    Regroup([OPEN_BRACE], PrintMembers(ms), rest);
    First(OPEN_BRACE, PrintMembers(ms) + rest);
    assert Print(Obj(ms)) + rest == [OPEN_BRACE] + (PrintMembers(ms) + rest);
    hide Print;
  }

  lemma WordRoundTrip(c: Json, rest: Text)
    requires c.Null? || c.Undefined? || c.Bool?
    ensures ParseValue(Print(c) + rest) == Some(Parsed(c, rest))
  {
    Split(Print(c), rest);
    assert (Print(c) + rest)[0] == Print(c)[0];
  }

  /** Unique readability: whatever follows, the parser reads back exactly what was printed. */
  lemma {:induction false} RoundTrip(c: Json, rest: Text)
    requires Plain(c) && Delimited(rest)
    ensures ParseValue(Print(c) + rest) == Some(Parsed(c, rest))
    decreases c, 0
  {
    hide ParseValue, ParseItems, ParseMembers, PrintItems, PrintMembers, Delimited, Quote;
    match c
    case Arr(items) =>
      ItemsRoundTrip(items, rest);
      ArrayRead(items, rest);
    case Obj(ms) =>
      MembersRoundTrip(ms, rest);
      ObjectRead(ms, rest);
    case Num(n) => NumeralRoundTrip(n, rest);
    case Str(s) => StringRoundTrip(s, rest);
    case _ => WordRoundTrip(c, rest);
  }

  lemma {:induction false} ItemsRoundTrip(items: seq<Json>, rest: Text)
    requires forall i | 0 <= i < |items| :: Plain(items[i])
    ensures ParseItems(PrintItems(items) + rest) == Some(Parsed(items, rest))
    decreases items, |items|
  {
    if items == [] {
      First(CLOSE_BRACKET, rest);
      return;
    }
    FirstUnit(items[0]);
    hide Plain, ParseValue, ParseItems, Print, PrintItems, Delimited;
    var after := AfterItem(items[1..], rest);
    ItemsText(items, rest);
    RoundTrip(items[0], after);
    ItemsStep(Print(items[0]) + after, items[0], after);
    if |items| == 1 {
      First(CLOSE_BRACKET, rest);
      assert items == [items[0]];
      return;
    }
    ItemsRoundTrip(items[1..], rest);
    First(COMMA, PrintItems(items[1..]) + rest);
    assert items == [items[0]] + items[1..];
  }

  lemma {:induction false} MembersRoundTrip(ms: seq<Member>, rest: Text)
    requires forall i | 0 <= i < |ms| :: Plain(ms[i].value)
    ensures ParseMembers(PrintMembers(ms) + rest) == Some(Parsed(ms, rest))
    decreases ms, |ms|
  {
    if ms == [] {
      First(CLOSE_BRACE, rest);
      return;
    }
    hide Plain, ParseValue, ParseMembers, ParseChars, Print, PrintMember, PrintMembers, Chars, Delimited;
    var m, after := ms[0], AfterMember(ms[1..], rest);
    var colon := [COLON] + (Print(m.value) + after);
    MembersText(ms, rest);
    MemberText(m, after);
    CharsRoundTrip(m.key, colon);
    RoundTrip(m.value, after);
    First(QUOTE, Chars(m.key, colon));
    First(COLON, Print(m.value) + after);
    MembersStep(PrintMember(m) + after, m.key, colon, m.value, after);
    if |ms| == 1 {
      First(CLOSE_BRACE, rest);
      assert ms == [m];
      return;
    }
    MembersRoundTrip(ms[1..], rest);
    First(COMMA, PrintMembers(ms[1..]) + rest);
    assert ms == [m] + ms[1..];
  }

  // ---------------------------------------------------------------- sorting

  predicate Increasing(keys: seq<Text>) {
    forall i, j | 0 <= i < j < |keys| :: Precedes(keys[i], keys[j])
  }

  lemma {:induction false} PrecedesIsTotal(a: Text, b: Text)
    ensures a == b || Precedes(a, b) || Precedes(b, a)
    ensures !(Precedes(a, b) && Precedes(b, a)) && !Precedes(a, a)
  {
    if a != [] && b != [] {
      PrecedesIsTotal(a[1..], b[1..]);
      if a[0] == b[0] && a[1..] == b[1..] { assert a == [a[0]] + a[1..] && b == [b[0]] + b[1..]; }
      PrecedesIrreflexive(a);
    } else {
      PrecedesIrreflexive(a);
    }
  }

  lemma {:induction false} PrecedesIrreflexive(a: Text)
    ensures !Precedes(a, a)
  {
    if a != [] { PrecedesIrreflexive(a[1..]); }
  }

  lemma {:induction false} PrecedesTransitive(a: Text, b: Text, c: Text)
    requires Precedes(a, b) && Precedes(b, c)
    ensures Precedes(a, c)
  {
    if a != [] && a[0] == b[0] && b[0] == c[0] { PrecedesTransitive(a[1..], b[1..], c[1..]); }
  }

  lemma {:induction false} InsertKeepsElements(k: Text, keys: seq<Text>)
    ensures forall x :: x in Insert(k, keys) <==> x == k || x in keys
  {
    if keys != [] && Precedes(keys[0], k) { InsertKeepsElements(k, keys[1..]); }
  }

  lemma {:induction false} SortKeepsElements(keys: seq<Text>)
    ensures forall x :: x in Sort(keys) <==> x in keys
  {
    if keys != [] {
      SortKeepsElements(keys[1..]);
      InsertKeepsElements(keys[0], Sort(keys[1..]));
    }
  }

  lemma {:induction false} InsertIncreasing(k: Text, keys: seq<Text>)
    requires Increasing(keys) && k !in keys
    ensures Increasing(Insert(k, keys))
  {
    if keys != [] {
      PrecedesIsTotal(k, keys[0]);
      assert keys[0] in keys;
      if Precedes(keys[0], k) {
        InsertIncreasing(k, keys[1..]);
        InsertKeepsElements(k, keys[1..]);
        var r := Insert(k, keys[1..]);
        forall j | 0 <= j < |r| ensures Precedes(keys[0], r[j]) {
          assert r[j] in r;
          if r[j] != k {
            var i :| 0 <= i < |keys[1..]| && keys[1..][i] == r[j];
            assert keys[i + 1] == r[j];
          }
        }
      } else {
        forall j | 0 <= j < |keys| ensures Precedes(k, keys[j]) {
          if j > 0 { PrecedesTransitive(k, keys[0], keys[j]); }
        }
      }
    }
  }

  lemma {:induction false} SortIncreasing(keys: seq<Text>)
    requires forall i, j | 0 <= i < j < |keys| :: keys[i] != keys[j]
    ensures Increasing(Sort(keys))
  {
    if keys != [] {
      SortIncreasing(keys[1..]);
      SortKeepsElements(keys[1..]);
      assert keys[0] !in keys[1..];
      InsertIncreasing(keys[0], Sort(keys[1..]));
    }
  }

  /** Increasing sequences over the same keys are the same sequence. */
  lemma {:induction false} IncreasingUnique(a: seq<Text>, b: seq<Text>)
    requires Increasing(a) && Increasing(b) && forall x :: x in a <==> x in b
    ensures a == b
  {
    EmptyTogether(a, b);
    if a != [] {
      assert a[0] in a && b[0] in b;
      SmallestFirst(a, b);
      forall x ensures x in a[1..] <==> x in b[1..] {
        PrecedesIrreflexive(a[0]);
        assert x in a <==> x == a[0] || x in a[1..];
        assert x in b <==> x == b[0] || x in b[1..];
      }
      IncreasingUnique(a[1..], b[1..]);
    }
  }

  lemma EmptyTogether(a: seq<Text>, b: seq<Text>)
    requires forall x :: x in a <==> x in b
    ensures a == [] <==> b == []
  {
    if a != [] { assert a[0] in b; }
    if b != [] { assert b[0] in a; }
  }

  lemma SmallestFirst(a: seq<Text>, b: seq<Text>)
    requires Increasing(a) && Increasing(b) && a != [] && b != [] && a[0] in b && b[0] in a
    ensures a[0] == b[0]
    ensures a[0] !in a[1..] && b[0] !in b[1..]
  {
    PrecedesIrreflexive(a[0]);
    PrecedesIrreflexive(b[0]);
    PrecedesIsTotal(a[0], b[0]);
  }

  // ---------------------------------------------------------------- the printer prints the canonical form

  lemma {:induction false} EscapeOfPlainUnits(s: Text)
    requires forall u | u in s :: Base64Unit(u) || u == COLON
    ensures Escape(s) == s
  {
    if s != [] {
      assert s[0] in s;
      EscapeOfPlainUnits(s[1..]);
      assert s == [s[0]] + s[1..];
    }
  }

  lemma BytesPrintAsText(b: Text)
    requires forall u | u in b :: Base64Unit(u)
    ensures Quote(BYTES_PREFIX + b) == [QUOTE] + BYTES_PREFIX + b + [QUOTE]
  {
    EscapeOfPlainUnits(BYTES_PREFIX + b);
  }

  /** Printing `stable` style is printing the canonical form. */
  lemma {:induction false} StableIsPrintedCanon(v: Json)
    requires Valid(v)
    ensures Plain(Canon(v)) && Stable(v) == Print(Canon(v))
    decreases v, 0
  {
    match v
    case Bytes(b) => BytesPrintAsText(b);
    case Arr(items) =>
      ItemsPrinted(items);
    case Obj(ms) =>
      SortedKeysThere(ms);
      FieldsPrinted(Sort(Keys(ms)), ms);
    case _ =>
  }

  lemma {:induction false} ItemsPrinted(items: seq<Json>)
    requires forall i | 0 <= i < |items| :: Valid(items[i])
    ensures forall i | 0 <= i < |items| :: Plain(CanonItems(items)[i])
    ensures Join(StableItems(items)) + [CLOSE_BRACKET] == PrintItems(CanonItems(items))
    decreases items, |items|
  {
    if items != [] {
      StableIsPrintedCanon(items[0]);
      ItemsPrinted(items[1..]);
      assert CanonItems(items)[1..] == CanonItems(items[1..]);
      assert StableItems(items)[1..] == StableItems(items[1..]);
      if |items| == 1 { assert StableItems(items) == [Stable(items[0])]; }
    }
  }

  lemma {:induction false} FieldsPrinted(keys: seq<Text>, ms: seq<Member>)
    requires forall k | k in keys :: k in Keys(ms)
    requires forall i | 0 <= i < |ms| :: Valid(ms[i].value)
    ensures forall i | 0 <= i < |keys| :: Plain(CanonFields(keys, ms)[i].value)
    ensures Join(StableFields(keys, ms)) + [CLOSE_BRACE] == PrintMembers(CanonFields(keys, ms))
    decreases ms, |keys|
  {
    if keys != [] {
      var at := IndexOf(ms, keys[0]);
      StableIsPrintedCanon(ms[at].value);
      FieldsPrinted(keys[1..], ms);
      var all, texts := CanonFields(keys, ms), StableFields(keys, ms);
      assert all[1..] == CanonFields(keys[1..], ms);
      assert texts[1..] == StableFields(keys[1..], ms);
      assert texts[0] == PrintMember(all[0]);
      if |keys| == 1 { assert texts == [texts[0]]; }
    }
  }

  // ---------------------------------------------------------------- equality up to key order

  /** The same value, whatever the order of object keys. Numbers that are not finite are `null`,
      and a byte array is the string that describes it. */
  predicate Same(a: Json, b: Json)
    decreases a
  {
    match a
    case Null => b.Null? || b.NonFinite?
    case NonFinite => b.Null? || b.NonFinite?
    case Str(s) => b == a || (b.Bytes? && s == BYTES_PREFIX + b.base64)
    case Bytes(t) => b == a || (b.Str? && b.text == BYTES_PREFIX + t)
    case Arr(items) => b.Arr? && |b.items| == |items| && forall i | 0 <= i < |items| :: Same(items[i], b.items[i])
    case Obj(ms) =>
      && b.Obj?
      && (forall i | 0 <= i < |ms| :: ms[i].key in Keys(b.members) && Same(ms[i].value, Lookup(b.members, ms[i].key)))
      && (forall j | 0 <= j < |b.members| :: b.members[j].key in Keys(ms))
    case _ => b == a
  }

  /** On JSON trees, which have none of the exceptions, it is plain equality but for key order. */
  predicate Tree(v: Json) {
    match v
    case Undefined => false
    case NonFinite => false
    case Bytes(_) => false
    case Arr(items) => forall i | 0 <= i < |items| :: Tree(items[i])
    case Obj(ms) => forall i | 0 <= i < |ms| :: Tree(ms[i].value)
    case _ => true
  }

  /** The same tree with the same keys in the same places. */
  predicate EqualUpToOrder(a: Json, b: Json)
    decreases a
  {
    match a
    case Arr(items) =>
      b.Arr? && |b.items| == |items| && forall i | 0 <= i < |items| :: EqualUpToOrder(items[i], b.items[i])
    case Obj(ms) =>
      && b.Obj?
      && (forall k | k in Keys(ms) :: k in Keys(b.members)) && (forall k | k in Keys(b.members) :: k in Keys(ms))
      && (forall i | 0 <= i < |ms| :: ms[i].key in Keys(b.members)
           && EqualUpToOrder(ms[i].value, Lookup(b.members, ms[i].key)))
    case _ => a == b
  }

  lemma KeysDistinct(ms: seq<Member>)
    requires DistinctKeys(ms)
    ensures Increasing(Sort(Keys(ms)))
    ensures forall k :: k in Sort(Keys(ms)) <==> k in Keys(ms)
  {
    SortIncreasing(Keys(ms));
    SortKeepsElements(Keys(ms));
  }

  lemma LookupOwn(ms: seq<Member>, i: nat)
    requires DistinctKeys(ms) && i < |ms|
    ensures ms[i].key in Keys(ms) && IndexOf(ms, ms[i].key) == i && Lookup(ms, ms[i].key) == ms[i].value
  {
    assert Keys(ms)[i] == ms[i].key;
    assert ms[IndexOf(ms, ms[i].key)].key == ms[i].key;
  }

  /** Same values have one canonical form. */
  lemma {:induction false} SameHasOneCanon(a: Json, b: Json)
    requires Valid(a) && Valid(b) && Same(a, b)
    ensures Canon(a) == Canon(b)
    decreases a
  {
    match a
    case Arr(items) =>
      forall i | 0 <= i < |items| ensures Canon(items[i]) == Canon(b.items[i]) {
        SameHasOneCanon(items[i], b.items[i]);
      }
      assert CanonItems(items) == CanonItems(b.items);
    case Obj(ms) =>
      var ns := b.members;
      KeysDistinct(ms);
      KeysDistinct(ns);
      forall k ensures k in Keys(ms) <==> k in Keys(ns) { SameKeySets(a, b, k); }
      IncreasingUnique(Sort(Keys(ms)), Sort(Keys(ns)));
      var keys := Sort(Keys(ms));
      forall k | k in keys ensures Canon(Lookup(ms, k)) == Canon(Lookup(ns, k)) {
        var i := IndexOf(ms, k);
        SameHasOneCanon(ms[i].value, Lookup(ns, ms[i].key));
      }
      assert CanonFields(keys, ms) == CanonFields(keys, ns);
    case _ =>
  }

  lemma SameKeySets(a: Json, b: Json, k: Text)
    requires a.Obj? && Same(a, b)
    ensures k in Keys(a.members) <==> k in Keys(b.members)
  {
    if k in Keys(a.members) { assert a.members[IndexOf(a.members, k)].key in Keys(b.members); }
    if k in Keys(b.members) { assert b.members[IndexOf(b.members, k)].key in Keys(a.members); }
  }

  /** And one canonical form comes from same values only. */
  lemma {:induction false} OneCanonIsSame(a: Json, b: Json)
    requires Valid(a) && Valid(b) && Canon(a) == Canon(b)
    ensures Same(a, b)
    decreases a
  {
    match a
    case Bytes(t) =>
      Split(BYTES_PREFIX, t);
      if b.Bytes? { Split(BYTES_PREFIX, b.base64); }
    case Arr(items) =>
      assert b.Arr? && CanonItems(items) == CanonItems(b.items);
      forall i | 0 <= i < |items| ensures Same(items[i], b.items[i]) { OneCanonIsSame(items[i], b.items[i]); }
    case Obj(ms) =>
      assert b.Obj?;
      ObjectsWithOneCanon(ms, b.members);
      var ns := b.members;
      forall i | 0 <= i < |ms| ensures ms[i].key in Keys(ns) && Same(ms[i].value, Lookup(ns, ms[i].key)) {
        LookupOwn(ms, i);
        OneCanonIsSame(ms[i].value, Lookup(ns, ms[i].key));
      }
      forall j | 0 <= j < |ns| ensures ns[j].key in Keys(ms) { LookupOwn(ns, j); }
    case _ =>
  }

  lemma ObjectsWithOneCanon(ms: seq<Member>, ns: seq<Member>)
    requires Valid(Obj(ms)) && Valid(Obj(ns)) && Canon(Obj(ms)) == Canon(Obj(ns))
    ensures forall k | k in Keys(ms) :: k in Keys(ns) && Canon(Lookup(ms, k)) == Canon(Lookup(ns, k))
    ensures forall k | k in Keys(ns) :: k in Keys(ms)
  {
    KeysDistinct(ms);
    KeysDistinct(ns);
    var keys, keys' := Sort(Keys(ms)), Sort(Keys(ns));
    var c, c' := CanonFields(keys, ms), CanonFields(keys', ns);
    assert c == c';
    assert |keys| == |keys'| && forall i | 0 <= i < |keys| :: c[i].key == keys[i] && c'[i].key == keys'[i];
    assert keys == keys';
    forall k | k in Keys(ms) ensures k in Keys(ns) && Canon(Lookup(ms, k)) == Canon(Lookup(ns, k)) {
      var i :| 0 <= i < |keys| && keys[i] == k;
      assert k in keys';
      assert c[i].value == Canon(Lookup(ms, k)) && c'[i].value == Canon(Lookup(ns, k));
    }
    forall k | k in Keys(ns) ensures k in Keys(ms) { assert k in keys'; }
  }

  /** The printer is uniquely readable: for any two values it can be given, it prints the same text
      exactly when they are the same up to the order of object keys, a byte array being the string
      that describes it and a number that is not finite being null. */
  lemma PrintsAlikeIffSame(a: Json, b: Json)
    requires Valid(a) && Valid(b)
    ensures Stable(a) == Stable(b) <==> Same(a, b)
  {
    StableIsPrintedCanon(a);
    StableIsPrintedCanon(b);
    RoundTrip(Canon(a), []);
    RoundTrip(Canon(b), []);
    assert Print(Canon(a)) + [] == Stable(a) && Print(Canon(b)) + [] == Stable(b);
    if Same(a, b) { SameHasOneCanon(a, b); }
    if Stable(a) == Stable(b) { OneCanonIsSame(a, b); }
  }

  lemma {:induction false} SameTreesAreEqual(a: Json, b: Json)
    requires Tree(a) && Tree(b)
    ensures Same(a, b) <==> EqualUpToOrder(a, b)
    decreases a
  {
    match a
    case Arr(items) =>
      if b.Arr? && |b.items| == |items| {
        forall i | 0 <= i < |items| ensures Same(items[i], b.items[i]) <==> EqualUpToOrder(items[i], b.items[i]) {
          SameTreesAreEqual(items[i], b.items[i]);
        }
      }
    case Obj(ms) =>
      if b.Obj? {
        forall i | 0 <= i < |ms| && ms[i].key in Keys(b.members)
          ensures Same(ms[i].value, Lookup(b.members, ms[i].key))
                  <==> EqualUpToOrder(ms[i].value, Lookup(b.members, ms[i].key))
        {
          SameTreesAreEqual(ms[i].value, Lookup(b.members, ms[i].key));
        }
        if Same(a, b) { forall k: Text ensures k in Keys(ms) <==> k in Keys(b.members) { SameKeySets(a, b, k); } }
        forall j | 0 <= j < |b.members| ensures b.members[j].key in Keys(b.members) {
          assert Keys(b.members)[j] == b.members[j].key;
        }
      }
    case _ =>
  }

  /** On JSON trees, without undefined and byte arrays, two values print equal exactly when they
      are equal up to the order of object keys. */
  lemma TreesPrintAlikeIffEqual(a: Json, b: Json)
    requires Valid(a) && Valid(b) && Tree(a) && Tree(b)
    ensures Stable(a) == Stable(b) <==> EqualUpToOrder(a, b)
  {
    PrintsAlikeIffSame(a, b);
    SameTreesAreEqual(a, b);
  }

  /** What the exceptions cost: distinct values with one fingerprint. */
  lemma BytesCollideWithText()
    ensures Stable(Bytes([65, 65, 61, 61])) == Stable(Str(BYTES_PREFIX + [65, 65, 61, 61]))
    ensures Stable(NonFinite) == Stable(Null) && Stable(Undefined) != Stable(Null)
  {
    PrintsAlikeIffSame(Bytes([65, 65, 61, 61]), Str(BYTES_PREFIX + [65, 65, 61, 61]));
    assert UNDEFINED[0] != NULL[0];
  }
}
