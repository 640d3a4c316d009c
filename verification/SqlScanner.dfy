/** The multiple-statement scanner and the comment stripper in front of the SQL classifier. The
    scanner's five flags are compared with a lexer that reads one token at a time. */
module SqlScanner {

  /** White space and line terminators, as `trim` and `\s` have them. */
  predicate IsSpace(c: char) {
    var u := c as int;
    9 <= u <= 13 || u == 0x20 || u == 0xA0 || u == 0x1680 || 0x2000 <= u <= 0x200A || u == 0x2028 || u == 0x2029
    || u == 0x202F || u == 0x205F || u == 0x3000 || u == 0xFEFF
  }

  predicate Blank(s: string) { forall i | 0 <= i < |s| :: IsSpace(s[i]) }

  function TrimStart(s: string): string {
    if s != [] && IsSpace(s[0]) then TrimStart(s[1..]) else s
  }

  function TrimEnd(s: string): string {
    if s != [] && IsSpace(s[|s| - 1]) then TrimEnd(s[..|s| - 1]) else s
  }

  function Trim(s: string): string { TrimStart(TrimEnd(s)) }

  // ---------------------------------------------------------------- the lexer

  predicate At(s: string, i: nat, c: char) { i < |s| && s[i] == c }

  /** Past the closing quote; a doubled quote is an escaped one. */
  function EndQuote(s: string, i: nat, q: char): (e: nat)
    requires i <= |s|
    ensures i <= e <= |s|
    decreases |s| - i
  {
    if i == |s| then i
    else if s[i] != q then EndQuote(s, i + 1, q)
    else if At(s, i + 1, q) then EndQuote(s, i + 2, q)
    else i + 1
  }

  function EndLine(s: string, i: nat): (e: nat)
    requires i <= |s|
    ensures i <= e <= |s|
    decreases |s| - i
  {
    if i == |s| then i else if s[i] == '\n' then i + 1 else EndLine(s, i + 1)
  }

  function EndBlock(s: string, i: nat): (e: nat)
    requires i <= |s|
    ensures i <= e <= |s|
    decreases |s| - i
  {
    if i == |s| then i else if s[i] == '*' && At(s, i + 1, '/') then i + 2 else EndBlock(s, i + 1)
  }

  /** The end of the token that starts at i: a comment, a quoted text, or one character. */
  function Next(s: string, i: nat): (e: nat)
    requires i < |s|
    ensures i < e <= |s|
  {
    if s[i] == '-' && At(s, i + 1, '-') then EndLine(s, i + 2)
    else if s[i] == '/' && At(s, i + 1, '*') then EndBlock(s, i + 2)
    else if s[i] in {'\'', '"', '`'} then EndQuote(s, i + 1, s[i])
    else i + 1
  }

  /** From the token start i on, some `;` of its own has a remainder that is not blank. */
  predicate Separates(s: string, i: nat)
    requires i <= |s|
    decreases |s| - i
  {
    i < |s| && ((s[i] == ';' && !Blank(s[i + 1..])) || Separates(s, Next(s, i)))
  }

  /** Position p is read as the start of a token, from the token start i on. */
  predicate TokenAt(s: string, i: nat, p: nat)
    requires i <= |s|
    decreases |s| - i
  {
    i < |s| && (i == p || TokenAt(s, Next(s, i), p))
  }

  /** What the recursion says in one piece. */
  lemma {:induction false} SeparatesIffSome(s: string, i: nat)
    requires i <= |s|
    ensures Separates(s, i) <==> exists p | 0 <= p < |s| :: TokenAt(s, i, p) && s[p] == ';' && !Blank(s[p + 1..])
    decreases |s| - i
  {
    if i < |s| {
      SeparatesIffSome(s, Next(s, i));
      if s[i] == ';' && !Blank(s[i + 1..]) { assert TokenAt(s, i, i); }
      if Separates(s, Next(s, i)) {
        var p :| 0 <= p < |s| && TokenAt(s, Next(s, i), p) && s[p] == ';' && !Blank(s[p + 1..]);
        assert TokenAt(s, i, p);
      }
    }
  }

  // ---------------------------------------------------------------- the scanner

  /** Where the scanner is; at most one of its five flags is up. */
  datatype Mode = Plain | Single | Double | Backtick | LineComment | BlockComment

  predicate FlagsShow(mode: Mode, single: bool, double: bool, backtick: bool, lineComment: bool, blockComment: bool) {
    single == mode.Single? && double == mode.Double? && backtick == mode.Backtick?
    && lineComment == mode.LineComment? && blockComment == mode.BlockComment?
  }

  /** What is left to find in a mode at position i. */
  ghost predicate Left(s: string, i: nat, mode: Mode)
    requires i <= |s|
  {
    match mode
    case LineComment => Separates(s, EndLine(s, i))
    case BlockComment => Separates(s, EndBlock(s, i))
    case Single => Separates(s, EndQuote(s, i, '\''))
    case Double => Separates(s, EndQuote(s, i, '"'))
    case Backtick => Separates(s, EndQuote(s, i, '`'))
    case Plain => Separates(s, i)
  }

  /** One step of the lexer, in every mode. */
  lemma LexerStep(s: string, i: nat)
    requires i < |s|
    ensures EndLine(s, i) == if s[i] == '\n' then i + 1 else EndLine(s, i + 1)
    ensures EndBlock(s, i) == if s[i] == '*' && At(s, i + 1, '/') then i + 2 else EndBlock(s, i + 1)
    ensures Separates(s, i) == if s[i] == '-' && At(s, i + 1, '-') then Separates(s, EndLine(s, i + 2))
                               else if s[i] == '/' && At(s, i + 1, '*') then Separates(s, EndBlock(s, i + 2))
                               else if s[i] in {'\'', '"', '`'} then Separates(s, EndQuote(s, i + 1, s[i]))
                               else (s[i] == ';' && !Blank(s[i + 1..])) || Separates(s, i + 1)
  {
    hide Blank;
  }

  lemma QuoteStep(s: string, i: nat, q: char)
    requires i < |s|
    ensures EndQuote(s, i, q) == if s[i] != q then EndQuote(s, i + 1, q)
            else if At(s, i + 1, q) then EndQuote(s, i + 2, q) else i + 1
  {}

  /** A doubled quote read as closing and opening again leaves the lexer where the escape does. */
  lemma DoubledQuote(s: string, i: nat, q: char)
    requires i < |s| && s[i] == q && q in {'\'', '"', '`'}
    ensures Separates(s, EndQuote(s, i, q)) == Separates(s, i + 1)
  {
    QuoteStep(s, i, q);
    if At(s, i + 1, q) { LexerStep(s, i + 1); }
    hide Separates, EndQuote;
  }

  // One lemma a mode: what one turn of the loop does leaves what is to be found.

  lemma InLineComment(s: string, i: nat)
    requires i < |s|
    ensures Left(s, i, LineComment) == Left(s, i + 1, if s[i] == '\n' then Plain else LineComment)
  {
    LexerStep(s, i);
    hide Separates, EndLine;
  }

  lemma InBlockComment(s: string, i: nat)
    requires i < |s|
    ensures Left(s, i, BlockComment) ==
            if s[i] == '*' && At(s, i + 1, '/') then Left(s, i + 2, Plain) else Left(s, i + 1, BlockComment)
  {
    LexerStep(s, i);
    hide Separates, EndBlock;
  }

  lemma InSingle(s: string, i: nat)
    requires i < |s|
    ensures Left(s, i, Single) ==
            if s[i] == '\'' && At(s, i + 1, '\'') then Left(s, i + 2, Single)
            else Left(s, i + 1, if s[i] == '\'' then Plain else Single)
  {
    QuoteStep(s, i, '\'');
    hide Separates, EndQuote;
  }

  lemma InDouble(s: string, i: nat)
    requires i < |s|
    ensures Left(s, i, Double) == Left(s, i + 1, if s[i] == '"' then Plain else Double)
  {
    QuoteStep(s, i, '"');
    if s[i] == '"' { DoubledQuote(s, i, '"'); }
    hide Separates, EndQuote;
  }

  lemma InBacktick(s: string, i: nat)
    requires i < |s|
    ensures Left(s, i, Backtick) == Left(s, i + 1, if s[i] == '`' then Plain else Backtick)
  {
    QuoteStep(s, i, '`');
    if s[i] == '`' { DoubledQuote(s, i, '`'); }
    hide Separates, EndQuote;
  }

  lemma InPlain(s: string, i: nat)
    requires i < |s|
    ensures Left(s, i, Plain) ==
            if s[i] == '-' && At(s, i + 1, '-') then Left(s, i + 2, LineComment)
            else if s[i] == '/' && At(s, i + 1, '*') then Left(s, i + 2, BlockComment)
            else if s[i] == '\'' then Left(s, i + 1, Single)
            else if s[i] == '"' then Left(s, i + 1, Double)
            else if s[i] == '`' then Left(s, i + 1, Backtick)
            else (s[i] == ';' && !Blank(s[i + 1..])) || Left(s, i + 1, Plain)
  {
    LexerStep(s, i);
    hide Separates, EndLine, EndBlock, EndQuote, Blank;
  }

  lemma NothingLeft(s: string, mode: Mode)
    ensures !Left(s, |s|, mode)
  {}

  /** The five-flag loop answers what the lexer answers, with no two flags ever up together. */
  method ContainsMultipleStatements(sql: string) returns (r: bool)
    ensures r <==> exists p | 0 <= p < |sql| :: TokenAt(sql, 0, p) && sql[p] == ';' && !Blank(sql[p + 1..])
  {
    var single, double, backtick, lineComment, blockComment := false, false, false, false, false;
    ghost var mode := Plain;
    assert Separates(sql, 0) == Left(sql, 0, mode);
    hide Blank, TokenAt, Separates, Left;
    var i := 0;
    while i < |sql|
      invariant 0 <= i <= |sql|
      invariant FlagsShow(mode, single, double, backtick, lineComment, blockComment)
      invariant Separates(sql, 0) == Left(sql, i, mode)
    {
      var c := sql[i];
      if lineComment {
        InLineComment(sql, i);
        if c == '\n' { lineComment, mode := false, Plain; }
        i := i + 1;
        continue;
      }
      if blockComment {
        InBlockComment(sql, i);
        if c == '*' && At(sql, i + 1, '/') {
          blockComment, mode := false, Plain;
          i := i + 1;
        }
        i := i + 1;
        continue;
      }
      match mode {
        case Single => InSingle(sql, i);
        case Double => InDouble(sql, i);
        case Backtick => InBacktick(sql, i);
        case _ => InPlain(sql, i);
      }
      if !single && !double && !backtick && c == '-' && At(sql, i + 1, '-') {
        lineComment, mode := true, LineComment;
        i := i + 2;
        continue;
      }
      if !single && !double && !backtick && c == '/' && At(sql, i + 1, '*') {
        blockComment, mode := true, BlockComment;
        i := i + 2;
        continue;
      }
      if !double && !backtick && c == '\'' {
        if single && At(sql, i + 1, '\'') {
          i := i + 2;
          continue;
        }
        single, mode := !single, if single then Plain else Single;
        i := i + 1;
        continue;
      }
      if !single && !backtick && c == '"' {
        double, mode := !double, if double then Plain else Double;
        i := i + 1;
        continue;
      }
      if !single && !double && c == '`' {
        backtick, mode := !backtick, if backtick then Plain else Backtick;
        i := i + 1;
        continue;
      }
      if !single && !double && !backtick && c == ';' && !Blank(sql[i + 1..]) {
        SeparatesIffSome(sql, 0);
        return true;
      }
      i := i + 1;
    }
    NothingLeft(sql, mode);
    SeparatesIffSome(sql, 0);
    return false;
  }

  // ---------------------------------------------------------------- leading comments

  /** The length of a comment at the start, 0 when there is none. A line comment may end with the
      text; a block comment must be closed. */
  function CommentLength(s: string): (n: nat)
    ensures n <= |s|
  {
    if At(s, 0, '-') && At(s, 1, '-') then EndLine(s, 2)
    else if At(s, 0, '/') && At(s, 1, '*') && Closed(s, 2) then EndBlock(s, 2)
    else 0
  }

  predicate Closed(s: string, i: nat)
    requires i <= |s|
  {
    exists k | i <= k < |s| :: s[k] == '*' && At(s, k + 1, '/')
  }

  function Strip(s: string): string
    decreases |s|
  {
    var n := CommentLength(s);
    if n == 0 then s else TrimShrinks(s[n..]); Strip(TrimStart(s[n..]))
  }

  lemma TrimShrinks(s: string)
    ensures |TrimStart(s)| <= |s| && |TrimEnd(s)| <= |s|
  {}

  /** The loop ends, and leaves a text that starts with neither white space nor a comment. */
  method StripLeadingComments(sql: string) returns (value: string)
    ensures value == Strip(Trim(sql))
    ensures CommentLength(value) == 0 && (value != [] ==> !IsSpace(value[0]))
  {
    value := Trim(sql);
    StartsTrimmed(TrimEnd(sql));
    while CommentLength(value) > 0
      invariant Strip(value) == Strip(Trim(sql))
      invariant value != [] ==> !IsSpace(value[0])
      decreases |value|
    {
      TrimShrinks(value[CommentLength(value)..]);
      StartsTrimmed(value[CommentLength(value)..]);
      value := TrimStart(value[CommentLength(value)..]);
    }
  }

  lemma StartsTrimmed(s: string)
    ensures TrimStart(s) != [] ==> !IsSpace(TrimStart(s)[0])
  {}

  lemma {:induction false} TrimStartIsSuffix(s: string)
    ensures exists k | 0 <= k <= |s| :: TrimStart(s) == s[k..]
    decreases |s|
  {
    if s != [] && IsSpace(s[0]) {
      TrimStartIsSuffix(s[1..]);
      var k :| 0 <= k <= |s[1..]| && TrimStart(s[1..]) == s[1..][k..];
      assert s[1..][k..] == s[k + 1..];
    } else {
      assert s == s[0..];
    }
  }

  predicate EndsTrimmed(s: string) { s == [] || !IsSpace(s[|s| - 1]) }

  lemma {:induction false} TrimEndTrims(s: string)
    ensures EndsTrimmed(TrimEnd(s))
    decreases |s|
  {
    if s != [] && IsSpace(s[|s| - 1]) { TrimEndTrims(s[..|s| - 1]); }
  }

  lemma TrimStartKeepsEnd(s: string)
    requires EndsTrimmed(s)
    ensures EndsTrimmed(TrimStart(s))
  {
    TrimStartIsSuffix(s);
  }

  lemma {:induction false} StripKeeps(s: string)
    requires EndsTrimmed(s) && TrimStart(s) == s
    ensures EndsTrimmed(Strip(s)) && TrimStart(Strip(s)) == Strip(s) && CommentLength(Strip(s)) == 0
    decreases |s|
  {
    var n := CommentLength(s);
    if n > 0 {
      TrimShrinks(s[n..]);
      TrimStartKeepsEnd(s[n..]);
      TrimStartTwice(s[n..]);
      StripKeeps(TrimStart(s[n..]));
    }
  }

  lemma {:induction false} TrimStartTwice(s: string)
    ensures TrimStart(TrimStart(s)) == TrimStart(s)
    decreases |s|
  {
    if s != [] && IsSpace(s[0]) { TrimStartTwice(s[1..]); }
  }

  /** Stripping twice is stripping once. */
  lemma StripIsIdempotent(sql: string)
    ensures Strip(Trim(Strip(Trim(sql)))) == Strip(Trim(sql))
  {
    var t := Trim(sql);
    TrimEndTrims(sql);
    TrimStartKeepsEnd(TrimEnd(sql));
    TrimStartTwice(TrimEnd(sql));
    StripKeeps(t);
    assert TrimEnd(Strip(t)) == Strip(t);
  }

  // ---------------------------------------------------------------- a text behind a prefix

  /** Tokens only depend on what follows them. */
  lemma {:induction false} ShiftQuote(a: string, s: string, i: nat, q: char)
    requires i <= |s|
    ensures EndQuote(a + s, |a| + i, q) == |a| + EndQuote(s, i, q)
    decreases |s| - i
  {
    if i < |s| {
      assert (a + s)[|a| + i] == s[i];
      assert At(a + s, |a| + i + 1, q) == At(s, i + 1, q);
      if s[i] != q {
        ShiftQuote(a, s, i + 1, q);
      } else if At(s, i + 1, q) {
        ShiftQuote(a, s, i + 2, q);
      }
    }
  }

  lemma {:induction false} ShiftLine(a: string, s: string, i: nat)
    requires i <= |s|
    ensures EndLine(a + s, |a| + i) == |a| + EndLine(s, i)
    decreases |s| - i
  {
    if i < |s| {
      assert (a + s)[|a| + i] == s[i];
      ShiftLine(a, s, i + 1);
    }
  }

  lemma {:induction false} ShiftBlock(a: string, s: string, i: nat)
    requires i <= |s|
    ensures EndBlock(a + s, |a| + i) == |a| + EndBlock(s, i)
    decreases |s| - i
  {
    if i < |s| {
      assert (a + s)[|a| + i] == s[i];
      assert At(a + s, |a| + i + 1, '/') == At(s, i + 1, '/');
      ShiftBlock(a, s, i + 1);
    }
  }

  lemma ShiftNext(a: string, s: string, i: nat)
    requires i < |s|
    ensures Next(a + s, |a| + i) == |a| + Next(s, i)
  {
    assert (a + s)[|a| + i] == s[i];
    assert At(a + s, |a| + i + 1, '-') == At(s, i + 1, '-') && At(a + s, |a| + i + 1, '*') == At(s, i + 1, '*');
    if s[i] == '-' && At(s, i + 1, '-') {
      ShiftLine(a, s, i + 2);
    } else if s[i] == '/' && At(s, i + 1, '*') {
      ShiftBlock(a, s, i + 2);
    } else if s[i] in {'\'', '"', '`'} {
      ShiftQuote(a, s, i + 1, s[i]);
    }
    hide EndLine, EndBlock, EndQuote;
  }

  lemma {:induction false} ShiftTokens(a: string, s: string, i: nat, p: nat)
    requires i <= |s|
    ensures TokenAt(a + s, |a| + i, |a| + p) <==> TokenAt(s, i, p)
    decreases |s| - i
  {
    hide Next;
    if i < |s| {
      ShiftNext(a, s, i);
      ShiftTokens(a, s, Next(s, i), p);
    }
  }

  lemma {:induction false} ShiftSeparates(a: string, s: string, i: nat)
    requires i <= |s|
    ensures Separates(a + s, |a| + i) <==> Separates(s, i)
    decreases |s| - i
  {
    hide Next, Blank;
    if i < |s| {
      ShiftNext(a, s, i);
      ShiftSeparates(a, s, Next(s, i));
      assert (a + s)[|a| + i] == s[i] && (a + s)[|a| + i + 1..] == s[i + 1..];
    }
  }

  // ---------------------------------------------------------------- comments in front change nothing

  /** A comment and nothing else: a line with its newline, or a closed block. */
  predicate CompleteComment(c: string) {
    || (At(c, 0, '-') && At(c, 1, '-') && EndLine(c, 2) == |c| && |c| > 2 && c[|c| - 1] == '\n')
    || (At(c, 0, '/') && At(c, 1, '*') && EndBlock(c, 2) == |c| && Closed(c, 2))
  }

  lemma {:induction false} LineEndsWithin(c: string, s: string, i: nat)
    requires i < |c| && EndLine(c, i) == |c| && c[|c| - 1] == '\n'
    ensures EndLine(c + s, i) == |c|
    decreases |c| - i
  {
    assert (c + s)[i] == c[i];
    if c[i] != '\n' {
      assert i + 1 < |c|;
      LineEndsWithin(c, s, i + 1);
    }
  }

  lemma {:induction false} BlockEndsWithin(c: string, s: string, i: nat)
    requires i <= |c| && EndBlock(c, i) == |c| && Closed(c, i)
    ensures EndBlock(c + s, i) == |c| && Closed(c + s, i)
    decreases |c| - i
  {
    var k :| i <= k < |c| && c[k] == '*' && At(c, k + 1, '/');
    assert (c + s)[k] == '*' && At(c + s, k + 1, '/');
    assert (c + s)[i] == c[i];
    if c[i] == '*' && At(c, i + 1, '/') {
      assert At(c + s, i + 1, '/');
    } else {
      assert k > i;
      if At(c + s, i + 1, '/') { assert i + 1 < |c|; }
      BlockEndsWithin(c, s, i + 1);
    }
  }

  lemma CommentIsOneToken(c: string, s: string)
    requires CompleteComment(c)
    ensures c + s != [] && Next(c + s, 0) == |c| && CommentLength(c + s) == |c| && (c + s)[0] == c[0]
            && c[0] in {'-', '/'}
  {
    assert (c + s)[0] == c[0] && (c + s)[1] == c[1];
    if c[0] == '-' { LineEndsWithin(c, s, 2); } else { BlockEndsWithin(c, s, 2); }
  }

  /** The scan does not see a comment in front. */
  lemma CommentKeepsScan(c: string, s: string)
    requires CompleteComment(c)
    ensures Separates(c + s, 0) <==> Separates(s, 0)
  {
    CommentIsOneToken(c, s);
    ShiftSeparates(c, s, 0);
    hide Next;
  }

  lemma {:induction false} TrimEndBehind(c: string, s: string)
    requires !Blank(s)
    ensures TrimEnd(c + s) == c + TrimEnd(s)
    decreases |s|
  {
    assert s != [] && (c + s)[|c + s| - 1] == s[|s| - 1];
    if IsSpace(s[|s| - 1]) {
      assert (c + s)[..|c + s| - 1] == c + s[..|s| - 1];
      TrimEndBehind(c, s[..|s| - 1]);
    }
  }

  /** Nor does the stripper. */
  lemma CommentKeepsStrip(c: string, s: string)
    requires CompleteComment(c) && !Blank(s)
    ensures Strip(Trim(c + s)) == Strip(Trim(s))
  {
    TrimEndBehind(c, s);
    CommentIsOneToken(c, TrimEnd(s));
    assert (c + TrimEnd(s))[|c|..] == TrimEnd(s);
    TrimShrinks(TrimEnd(s));
    hide CommentLength, TrimEnd;
  }

  // ---------------------------------------------------------------- classification

  datatype Refusal = EmptyQuery | NullByte | ManyStatements
  datatype Verdict<C> = Refused(refusal: Refusal) | Classified(kind: C)

  /** The leftmost `;` with nothing but white space after it: the match of `;\s*$`. */
  function LastSeparator(s: string, i: nat): (j: nat)
    requires i <= |s|
    ensures i <= j <= |s|
    ensures j < |s| ==> s[j] == ';' && Blank(s[j + 1..])
    ensures forall k | i <= k < j :: !(s[k] == ';' && Blank(s[k + 1..]))
    decreases |s| - i
  {
    if i == |s| || (s[i] == ';' && Blank(s[i + 1..])) then i else LastSeparator(s, i + 1)
  }

  function DropSeparator(s: string): string { s[..LastSeparator(s, 0)] }

  /** The text `classifySql` looks at. */
  function Statement(input: string): string { Trim(DropSeparator(Strip(Trim(input)))) }

  function ClassifySql<C>(classify: string -> C, input: string): Verdict<C> {
    if Trim(input) == "" then Refused(EmptyQuery)
    else if '\0' in input then Refused(NullByte)
    else if Separates(input, 0) then Refused(ManyStatements)
    else Classified(classify(Statement(input)))
  }

  lemma {:induction false} TrimOfBlank(s: string)
    ensures TrimEnd(s) == [] <==> Blank(s)
    decreases |s|
  {
    if s != [] && IsSpace(s[|s| - 1]) {
      TrimOfBlank(s[..|s| - 1]);
      assert Blank(s) <==> Blank(s[..|s| - 1]);
    }
  }

  lemma {:induction false} TrimStartOfBlank(s: string)
    requires EndsTrimmed(s)
    ensures TrimStart(s) == [] <==> s == []
    decreases |s|
  {
    if s != [] && IsSpace(s[0]) { TrimStartOfBlank(s[1..]); }
  }

  lemma TrimIsEmptyIffBlank(s: string)
    ensures Trim(s) == "" <==> Blank(s)
  {
    TrimOfBlank(s);
    TrimEndTrims(s);
    TrimStartOfBlank(TrimEnd(s));
  }

  /** A complete comment without NUL in front of a statement that is not blank changes neither the
      scan nor the classification, whatever the classifier. */
  lemma CommentChangesNothing<C>(classify: string -> C, c: string, s: string)
    requires CompleteComment(c) && '\0' !in c && !Blank(s)
    ensures Separates(c + s, 0) <==> Separates(s, 0)
    ensures ClassifySql(classify, c + s) == ClassifySql(classify, s)
  {
    CommentKeepsScan(c, s);
    CommentKeepsStrip(c, s);
    TrimIsEmptyIffBlank(s);
    TrimIsEmptyIffBlank(c + s);
    CommentIsOneToken(c, s);
    assert !IsSpace((c + s)[0]);
    assert !Blank(c + s);
    hide Separates, Strip, Trim, Next, CommentLength;
  }

  // ---------------------------------------------------------------- no separator is left

  /** A prefix has no token starts of its own. */
  lemma {:induction false} PrefixTokens(s: string, j: nat, i: nat, p: nat)
    requires i <= j <= |s| && TokenAt(s[..j], i, p)
    ensures TokenAt(s, i, p) && p < j
    decreases j - i
  {
    if i != p {
      var e := Next(s[..j], i);
      assert e < j by { TokenNeedsRoom(s[..j], e, p); }
      PrefixNext(s, j, i);
      PrefixTokens(s, j, e, p);
    }
  }

  lemma {:induction false} TokenNeedsRoom(s: string, i: nat, p: nat)
    requires i <= |s| && TokenAt(s, i, p)
    ensures i <= p < |s|
    decreases |s| - i
  {
    if i != p { TokenNeedsRoom(s, Next(s, i), p); }
  }

  /** A token that ends before the cut is the same token without the cut. */
  lemma PrefixNext(s: string, j: nat, i: nat)
    requires i < j <= |s| && Next(s[..j], i) < j
    ensures Next(s, i) == Next(s[..j], i)
  {
    var t := s[..j];
    if t[i] == '-' && At(t, i + 1, '-') {
      PrefixLine(s, j, i + 2);
    } else if t[i] == '/' && At(t, i + 1, '*') {
      PrefixBlock(s, j, i + 2);
    } else if t[i] in {'\'', '"', '`'} {
      PrefixQuote(s, j, i + 1, t[i]);
    } else {
      assert i + 1 < j && t[i + 1] == s[i + 1];
    }
    hide EndLine, EndBlock, EndQuote;
  }

  lemma {:induction false} PrefixLine(s: string, j: nat, i: nat)
    requires i <= j <= |s| && EndLine(s[..j], i) < j
    ensures EndLine(s, i) == EndLine(s[..j], i)
    decreases j - i
  {
    if s[i] != '\n' { PrefixLine(s, j, i + 1); }
  }

  lemma {:induction false} PrefixBlock(s: string, j: nat, i: nat)
    requires i <= j <= |s| && EndBlock(s[..j], i) < j
    ensures EndBlock(s, i) == EndBlock(s[..j], i)
    decreases j - i
  {
    if i + 1 < j { assert s[..j][i + 1] == s[i + 1]; }
    if !(s[i] == '*' && At(s, i + 1, '/')) { PrefixBlock(s, j, i + 1); }
  }

  lemma {:induction false} PrefixQuote(s: string, j: nat, i: nat, q: char)
    requires i <= j <= |s| && EndQuote(s[..j], i, q) < j
    ensures EndQuote(s, i, q) == EndQuote(s[..j], i, q)
    decreases j - i
  {
    if i + 1 < j { assert s[..j][i + 1] == s[i + 1]; }
    if s[i] != q {
      PrefixQuote(s, j, i + 1, q);
    } else if At(s[..j], i + 1, q) {
      PrefixQuote(s, j, i + 2, q);
    }
  }

  predicate NoSeparator(s: string) { forall p | 0 <= p < |s| :: TokenAt(s, 0, p) ==> s[p] != ';' }

  lemma PrefixSeparates(s: string, j: nat)
    requires j <= |s| && !Separates(s, 0)
    ensures !Separates(s[..j], 0)
  {
    SeparatesIffSome(s, 0);
    SeparatesIffSome(s[..j], 0);
    forall p | 0 <= p < j && TokenAt(s[..j], 0, p) && s[p] == ';' ensures Blank(s[..j][p + 1..]) {
      PrefixTokens(s, j, 0, p);
      assert s[..j][p + 1..] == s[p + 1..j] && s[p + 1..j] == s[p + 1..][..j - p - 1];
    }
  }

  lemma {:induction false} TrimEndIsPrefix(s: string)
    ensures exists j | 0 <= j <= |s| :: TrimEnd(s) == s[..j]
    decreases |s|
  {
    if s != [] && IsSpace(s[|s| - 1]) {
      TrimEndIsPrefix(s[..|s| - 1]);
      var j :| 0 <= j <= |s[..|s| - 1]| && TrimEnd(s[..|s| - 1]) == s[..|s| - 1][..j];
      assert s[..|s| - 1][..j] == s[..j];
    } else {
      assert s == s[..|s|];
    }
  }

  lemma {:induction false} TrimStartScan(s: string)
    ensures Separates(TrimStart(s), 0) <==> Separates(s, 0)
    ensures NoSeparator(s) ==> NoSeparator(TrimStart(s))
    decreases |s|
  {
    if s != [] && IsSpace(s[0]) {
      var t := s[1..];
      assert [s[0]] + t == s && Next(s, 0) == 1;
      ShiftSeparates([s[0]], t, 0);
      TrimStartScan(t);
      if NoSeparator(s) {
        forall p | 0 <= p < |t| && TokenAt(t, 0, p) ensures t[p] != ';' {
          ShiftTokens([s[0]], t, 0, p);
          assert TokenAt(s, 0, p + 1);
        }
      }
    }
  }

  lemma TrimScan(s: string)
    ensures !Separates(s, 0) ==> !Separates(Trim(s), 0)
    ensures NoSeparator(s) ==> NoSeparator(Trim(s))
  {
    TrimEndIsPrefix(s);
    var j :| 0 <= j <= |s| && TrimEnd(s) == s[..j];
    if !Separates(s, 0) { PrefixSeparates(s, j); }
    if NoSeparator(s) {
      forall p | 0 <= p < j && TokenAt(s[..j], 0, p) ensures s[..j][p] != ';' { PrefixTokens(s, j, 0, p); }
    }
    TrimStartScan(TrimEnd(s));
    hide TrimEnd, TrimStart, Separates, TokenAt;
  }

  lemma CommentIsNext(s: string)
    requires CommentLength(s) > 0
    ensures s != [] && Next(s, 0) == CommentLength(s)
  {}

  lemma {:induction false} StripScan(s: string)
    requires !Separates(s, 0)
    ensures !Separates(Strip(s), 0)
    decreases |s|
  {
    var n := CommentLength(s);
    if n > 0 {
      CommentIsNext(s);
      assert s[..n] + s[n..] == s;
      ShiftSeparates(s[..n], s[n..], 0);
      TrimStartScan(s[n..]);
      TrimShrinks(s[n..]);
      StripScan(TrimStart(s[n..]));
      hide Next, CommentLength;
    }
  }

  lemma NotBlankFrom(t: string, a: nat, p: nat)
    requires a <= p < |t| && !IsSpace(t[p])
    ensures !Blank(t[a..])
  {
    assert t[a..][p - a] == t[p];
  }

  /** Of an accepted text at most the last separator is one outside quotes and comments. */
  lemma LastSeparatorOnly(t: string, p: nat)
    requires !Separates(t, 0) && p < |t| && TokenAt(t, 0, p) && t[p] == ';'
    ensures LastSeparator(t, 0) == p
  {
    SeparatesIffSome(t, 0);
    var j := LastSeparator(t, 0);
    assert Blank(t[p + 1..]);
    assert j <= p;
    if j < p { NotBlankFrom(t, j + 1, p); }
  }

  /** What an accepted query hands to the classifier has no separator left outside quotes and
      comments. */
  lemma NoSeparatorLeft(input: string)
    requires !Separates(input, 0)
    ensures NoSeparator(Statement(input))
  {
    TrimScan(input);
    StripScan(Trim(input));
    var t := Strip(Trim(input));
    var j := LastSeparator(t, 0);
    forall p | 0 <= p < j && TokenAt(t[..j], 0, p) ensures t[..j][p] != ';' {
      PrefixTokens(t, j, 0, p);
      if t[p] == ';' { LastSeparatorOnly(t, p); }
    }
    assert NoSeparator(DropSeparator(t));
    TrimScan(DropSeparator(t));
  }

  /** A query is handed to the classifier exactly when it is not blank, has no NUL and no semicolon of
      its own is followed by anything but white space. */
  lemma AcceptedIff<C>(classify: string -> C, input: string)
    ensures ClassifySql(classify, input).Classified? <==>
            && !Blank(input) && '\0' !in input
            && forall p | 0 <= p < |input| :: TokenAt(input, 0, p) && input[p] == ';' ==> Blank(input[p + 1..])
    ensures ClassifySql(classify, input).Classified? ==>
              ClassifySql(classify, input) == Classified(classify(Statement(input))) && NoSeparator(Statement(input))
  {
    TrimIsEmptyIffBlank(input);
    SeparatesIffSome(input, 0);
    if !Separates(input, 0) { NoSeparatorLeft(input); }
    hide Blank, Trim, Statement, TokenAt;
  }

  /** Nothing is lost: a trimmed statement that starts with no comment is handed on as it is, with or
      without a semicolon behind it. */
  lemma StatementIsKept(s: string, tail: string)
    requires s != "" && !IsSpace(s[0]) && !IsSpace(s[|s| - 1]) && s[|s| - 1] != ';' && Blank(tail)
    requires CommentLength(s) == 0 && CommentLength(s + ";") == 0
    ensures Statement(s) == s && Statement(s + ";" + tail) == s
  {
    TrimKeeps(s);
    NoLastSeparator(s);
    assert s[..|s|] == s;
    var t := s + ";";
    TrimDropsTail(t, tail);
    assert t[0] == s[0] && t[|t| - 1] == ';';
    TrimKeeps(t);
    LastSeparatorIs(s);
    assert t[..|s|] == s;
  }

  lemma TrimKeeps(s: string)
    requires s != "" && !IsSpace(s[0]) && !IsSpace(s[|s| - 1])
    ensures Trim(s) == s
  {}

  lemma {:induction false} TrimDropsTail(s: string, tail: string)
    requires Blank(tail)
    ensures TrimEnd(s + tail) == TrimEnd(s)
    decreases |tail|
  {
    if tail == "" {
      assert s + tail == s;
    } else {
      var n := |tail| - 1;
      assert (s + tail)[..|s + tail| - 1] == s + tail[..n];
      assert (s + tail)[|s + tail| - 1] == tail[n];
      TrimDropsTail(s, tail[..n]);
    }
  }

  lemma NoLastSeparator(s: string)
    requires s != "" && !IsSpace(s[|s| - 1]) && s[|s| - 1] != ';'
    ensures LastSeparator(s, 0) == |s|
  {
    forall j | 0 <= j < |s| ensures !(s[j] == ';' && Blank(s[j + 1..])) {
      if j < |s| - 1 { assert !IsSpace(s[j + 1..][|s| - j - 2]); }
    }
  }

  lemma LastSeparatorIs(s: string)
    ensures LastSeparator(s + ";", 0) == |s|
  {
    var t := s + ";";
    assert t[|s|] == ';' && Blank(t[|s| + 1..]);
    forall j | 0 <= j < |s| ensures !(t[j] == ';' && Blank(t[j + 1..])) {
      assert !IsSpace(t[j + 1..][|s| - j - 1]);
    }
  }
}
