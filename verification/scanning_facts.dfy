/**
 * Properties of the Ember lexer, stated on the pure scanning rules that
 * `Lexer.Lexer.Tokenize` is proved to follow.
 */
module ScanningFacts {
  import opened Util
  import opened Errors
  import opened Tokens
  import opened Scanning

  // ---------------------------------------------------------------
  // Line and column counting
  // ---------------------------------------------------------------

  /** The line number at a position is one more than the newlines before it. */
  lemma {:induction false} LineIsNewlinesPlusOne(src: string, p: nat)
    requires p <= |src|
    ensures LineCol(src, p).line == 1 + Count(src[..p], '\n')
    decreases p
  {
    if p > 0 {
      LineIsNewlinesPlusOne(src, p - 1);
      CountSnoc(src[..p - 1], src[p - 1], '\n');
      assert src[..p] == src[..p - 1] + [src[p - 1]];
    }
  }

  /** Over text without a newline the line stays and the column grows by the length. */
  lemma {:induction false} LineColAcrossLine(src: string, i: nat, j: nat)
    requires i <= j <= |src|
    requires forall k :: i <= k < j ==> src[k] != '\n'
    ensures LineCol(src, j) == Pos(LineCol(src, i).line, LineCol(src, i).column + (j - i))
    decreases j - i
  {
    if i < j {
      LineColAcrossLine(src, i, j - 1);
    }
  }

  // ---------------------------------------------------------------
  // Shape of the token stream
  // ---------------------------------------------------------------

  /**
   * What every token the scanner emits satisfies: a line of at least 1,
   * a column of at least 1 except for strings, the literal that its type
   * calls for, and identifiers never spelled like keywords.
   */
  predicate TokenOK(t: Token) {
    && t.line >= 1
    && (t.kind != STRING ==> t.column >= 1)
    && (t.kind == NUMBER ==> t.literal.NumberValue?)
    && (t.kind == STRING ==> t.literal.StringValue?)
    && (t.kind == IDENTIFIER ==> t.lexeme !in KEYWORDS)
    && (t.kind == TRUE ==> t.literal == BoolValue(true))
    && (t.kind == FALSE ==> t.literal == BoolValue(false))
  }

  /** Tokens emitted before the closing ones: no EOF, no NEWLINE first, never two NEWLINEs in a row. */
  predicate RawStream(ts: seq<Token>) {
    && (forall i :: 0 <= i < |ts| ==> TokenOK(ts[i]) && ts[i].kind != EOF)
    && (ts != [] ==> ts[0].kind != NEWLINE)
    && (forall i :: 0 <= i < |ts| - 1 ==> !(ts[i].kind == NEWLINE && ts[i + 1].kind == NEWLINE))
  }

  /**
   * A complete token list: exactly one EOF, at the end; no NEWLINE first;
   * never two NEWLINEs in a row; and a NEWLINE just before EOF whenever
   * there is any other token.
   */
  predicate LexedStream(ts: seq<Token>) {
    && |ts| >= 1
    && ts[|ts| - 1].kind == EOF && TokenOK(ts[|ts| - 1])
    && RawStream(ts[..|ts| - 1])
    && (|ts| >= 2 ==> ts[|ts| - 2].kind == NEWLINE)
  }

  lemma AppendToken(ts: seq<Token>, t: Token)
    requires RawStream(ts) && TokenOK(t) && t.kind != EOF && t.kind != NEWLINE
    ensures RawStream(ts + [t])
  {
  }

  lemma {:induction false} AppendNewline(ts: seq<Token>, t: Token)
    requires RawStream(ts) && ts != [] && ts[|ts| - 1].kind != NEWLINE
    requires TokenOK(t) && t.kind == NEWLINE
    ensures RawStream(ts + [t])
  {
    var r := ts + [t];
    assert forall i :: 0 <= i < |ts| ==> r[i] == ts[i];
  }

  lemma {:induction false} EmitNewlineKeepsRaw(ts: seq<Token>, at: Pos)
    requires RawStream(ts) && at.line >= 2 && at.column >= 1
    ensures RawStream(EmitNewline(ts, at))
  {
    if ts != [] && ts[|ts| - 1].kind != NEWLINE {
      AppendNewline(ts, Token(NEWLINE, "\\n", NoLiteral, at.line - 1, at.column));
    }
  }

  lemma {:induction false} ReadIdentifierOK(src: string, i: nat, ts: seq<Token>)
    requires i < |src| && IsIdentStart(src[i]) && RawStream(ts)
    ensures RawStream(ReadIdentifier(src, i, ts).tokens)
  {
    var j := IdentRun(src, i + 1);
    LineColAcrossLine(src, i, j);
    var lexeme := src[i..j];
    var kind := KeywordKind(lexeme);
    var t := MakeToken(kind, lexeme, KeywordLiteral(kind), LineCol(src, j));
    WordTokenOK(lexeme, LineCol(src, j));
    AppendToken(ts, t);
  }

  lemma WordTokenOK(lexeme: string, at: Pos)
    requires at.line >= 1 && at.column - |lexeme| >= 1
    ensures var kind := KeywordKind(lexeme);
            var t := MakeToken(kind, lexeme, KeywordLiteral(kind), at);
            TokenOK(t) && t.kind != EOF && t.kind != NEWLINE
  {
    KeywordKindIsWord(lexeme);
  }

  lemma {:induction false} ReadNumberOK(src: string, i: nat, ts: seq<Token>)
    requires i < |src| && IsDigit(src[i]) && RawStream(ts)
    ensures RawStream(ReadNumber(src, i, ts).tokens)
  {
    var t := ReadNumber(src, i, ts).tokens[|ts|];
    assert LineCol(src, i + 1).column == LineCol(src, i).column + 1;
    LineIsNewlinesPlusOne(src, NumberEnd(src, i + 1));
    AppendToken(ts, t);
    assert ReadNumber(src, i, ts).tokens == ts + [t];
  }

  lemma {:induction false} ReadOperatorOK(src: string, i: nat, ts: seq<Token>)
    requires i < |src| && RawStream(ts)
    requires ReadOperator(src, i, ts).Ok?
    ensures RawStream(ReadOperator(src, i, ts).value.tokens)
  {
    var ch := src[i];
    if TwoCharKind(ch).Some? && i + 1 < |src| && src[i + 1] == '=' {
      TwoCharOK(src, i, ts);
    } else {
      SingleCharOK(src, i, ts);
    }
  }

  lemma {:induction false} SingleCharOK(src: string, i: nat, ts: seq<Token>)
    requires i < |src| && RawStream(ts) && SingleKind(src[i]).Some?
    requires !(TwoCharKind(src[i]).Some? && i + 1 < |src| && src[i + 1] == '=')
    ensures RawStream(ReadOperator(src, i, ts).value.tokens)
  {
    var ch := src[i];
    var k := SingleKind(ch).value;
    OperatorKindsPlain(ch);
    LineColAcrossLine(src, i, i + 1);
    var at := LineCol(src, i + 1);
    PlainTokenOK(k, [ch], at);
    AppendToken(ts, MakeToken(k, [ch], NoLiteral, at));
  }

  lemma {:induction false} TwoCharOK(src: string, i: nat, ts: seq<Token>)
    requires i + 1 < |src| && RawStream(ts)
    requires TwoCharKind(src[i]).Some? && src[i + 1] == '='
    ensures RawStream(ReadOperator(src, i, ts).value.tokens)
  {
    var ch := src[i];
    var k := TwoCharKind(ch).value;
    OperatorKindsPlain(ch);
    LineColAcrossLine(src, i, i + 2);
    var at := LineCol(src, i + 2);
    PlainTokenOK(k, [ch, '='], at);
    AppendToken(ts, MakeToken(k, [ch, '='], NoLiteral, at));
  }

  /** Operators and delimiters: no literal, no keyword, not a special token. */
  predicate PlainKind(k: TokenType) {
    k != NUMBER && k != STRING && k != IDENTIFIER && k != TRUE && k != FALSE && k != NEWLINE && k != EOF
  }

  lemma OperatorKindsPlain(c: char)
    ensures SingleKind(c).Some? ==> PlainKind(SingleKind(c).value)
    ensures TwoCharKind(c).Some? ==> PlainKind(TwoCharKind(c).value)
  {
  }

  lemma PlainTokenOK(k: TokenType, lexeme: string, at: Pos)
    requires PlainKind(k) && at.line >= 1 && at.column - |lexeme| >= 1
    ensures TokenOK(MakeToken(k, lexeme, NoLiteral, at))
  {
  }

  lemma {:induction false} ReadStringOK(src: string, start: nat, ts: seq<Token>)
    requires 1 <= start <= |src| && RawStream(ts)
    requires ReadString(src, start, ts).Ok?
    ensures RawStream(ReadString(src, start, ts).value.tokens)
  {
    var r := ReadString(src, start, ts).value.tokens;
    AppendToken(ts, r[|ts|]);
    assert r == ts + [r[|ts|]];
  }

  /** One scanning step keeps the emitted tokens a well-shaped stream. */
  lemma {:induction false} StepKeepsRaw(src: string, st: LexState)
    requires st.pos < |src| && RawStream(st.tokens)
    requires Step(src, st).Ok?
    ensures RawStream(Step(src, st).value.tokens)
  {
    var i := st.pos;
    var ch := src[i];
    if IsBlank(ch) {
    } else if ch == '\n' {
      EmitNewlineKeepsRaw(st.tokens, LineCol(src, i + 1));
    } else if ch == '#' {
    } else if ch == '"' {
      ReadStringOK(src, i + 1, st.tokens);
    } else if IsDigit(ch) {
      ReadNumberOK(src, i, st.tokens);
    } else if IsIdentStart(ch) {
      ReadIdentifierOK(src, i, st.tokens);
    } else {
      ReadOperatorOK(src, i, st.tokens);
    }
  }

  lemma {:induction false} RunKeepsRaw(src: string, st: LexState)
    requires st.pos <= |src| && RawStream(st.tokens)
    requires Run(src, st).Ok?
    ensures RawStream(Run(src, st).value.tokens)
    decreases |src| - st.pos
  {
    if st.pos < |src| {
      StepKeepsRaw(src, st);
      RunKeepsRaw(src, Step(src, st).value);
    }
  }

  /** EOF after a well-shaped stream that is empty or ends in NEWLINE gives a complete token list. */
  lemma CloseWithEof(closed: seq<Token>, eof: Token)
    requires RawStream(closed) && (closed != [] ==> closed[|closed| - 1].kind == NEWLINE)
    requires TokenOK(eof) && eof.kind == EOF
    ensures LexedStream(closed + [eof])
  {
    var ts := closed + [eof];
    assert ts[|ts| - 1] == eof && ts[..|ts| - 1] == closed;
    assert |ts| >= 2 ==> ts[|ts| - 2] == closed[|closed| - 1];
  }

  /** Closing a well-shaped stream gives a complete token list. */
  lemma {:induction false} FinishShape(raw: seq<Token>, at: Pos)
    requires RawStream(raw) && at.line >= 1 && at.column >= 1
    ensures LexedStream(Finish(raw, at))
  {
    var eof := Token(EOF, "", NoLiteral, at.line, at.column);
    if raw != [] && raw[|raw| - 1].kind != NEWLINE {
      var newline := Token(NEWLINE, "\\n", NoLiteral, at.line, at.column);
      AppendNewline(raw, newline);
      assert Finish(raw, at) == (raw + [newline]) + [eof];
      CloseWithEof(raw + [newline], eof);
    } else {
      assert Finish(raw, at) == raw + [eof];
      CloseWithEof(raw, eof);
    }
  }

  /** Every successful tokenization has the documented stream shape. */
  lemma LexShape(src: string)
    requires Lex(src).Ok?
    ensures LexedStream(Lex(src).value)
  {
    var run := Run(src, LexState(0, []));
    RunKeepsRaw(src, LexState(0, []));
    FinishShape(run.value.tokens, LineCol(src, |src|));
  }

  // ---------------------------------------------------------------
  // Input that produces no tokens
  // ---------------------------------------------------------------

  /** From `i` on there are only blanks, newlines and comments. */
  predicate SilentFrom(src: string, i: nat)
    requires i <= |src|
    decreases |src| - i
  {
    i == |src|
    || (IsBlank(src[i]) && SilentFrom(src, i + 1))
    || (src[i] == '\n' && SilentFrom(src, i + 1))
    || (src[i] == '#' && SilentFrom(src, CommentEnd(src, i + 1)))
  }

  lemma {:induction false} SilentRunEmitsNothing(src: string, st: LexState)
    requires st.pos <= |src| && SilentFrom(src, st.pos) && st.tokens == []
    ensures Run(src, st) == Ok(LexState(|src|, []))
    decreases |src| - st.pos
  {
    if st.pos < |src| {
      var i := st.pos;
      if IsBlank(src[i]) && SilentFrom(src, i + 1) {
        SilentRunEmitsNothing(src, LexState(i + 1, []));
      } else if src[i] == '\n' && SilentFrom(src, i + 1) {
        SilentRunEmitsNothing(src, LexState(i + 1, []));
      } else {
        SilentRunEmitsNothing(src, LexState(CommentEnd(src, i + 1), []));
      }
    }
  }

  /** Blank lines and comments alone lex to the single EOF token. */
  lemma SilentSourceLexesToEof(src: string)
    requires SilentFrom(src, 0)
    ensures Lex(src) == Ok([Token(EOF, "", NoLiteral, LineCol(src, |src|).line, LineCol(src, |src|).column)])
  {
    SilentRunEmitsNothing(src, LexState(0, []));
    var at := LineCol(src, |src|);
    assert Finish([], at) == [] + [Token(EOF, "", NoLiteral, at.line, at.column)];
    assert [] + [Token(EOF, "", NoLiteral, at.line, at.column)] == [Token(EOF, "", NoLiteral, at.line, at.column)];
    assert Lex(src) == Ok(Finish([], at));
  }

  // ---------------------------------------------------------------
  // Numbers
  // ---------------------------------------------------------------

  /** The decimal text of a natural number lexes to one NUMBER token carrying that number. */
  lemma NumberTextRoundTrip(n: nat)
    ensures var s := NatToString(n);
            Lex(s) == Ok([Token(NUMBER, s, NumberValue(n as real), 1, 1),
                          Token(NEWLINE, "\\n", NoLiteral, 1, |s| + 1),
                          Token(EOF, "", NoLiteral, 1, |s| + 1)])
  {
    DigitsValueOfNatToString(n);
    DigitsLex(NatToString(n), n);
  }

  /** A text of digits alone lexes to one NUMBER token carrying their value, then NEWLINE and EOF. */
  lemma DigitsLex(s: string, v: nat)
    requires |s| >= 1 && AllDigits(s) && DigitsValue(s) == v
    ensures Lex(s) == Ok([Token(NUMBER, s, NumberValue(v as real), 1, 1),
                          Token(NEWLINE, "\\n", NoLiteral, 1, |s| + 1),
                          Token(EOF, "", NoLiteral, 1, |s| + 1)])
  {
    DigitsRun(s, v);
    assert forall k :: 0 <= k < |s| ==> s[k] != '\n' by {
      assert forall k :: 0 <= k < |s| ==> IsDigit(s[k]);
    }
    LexOfOneToken(s, Token(NUMBER, s, NumberValue(v as real), 1, 1));
  }

  /** A line scanned as one ordinary token lexes to that token, NEWLINE and EOF, both just past the line. */
  lemma LexOfOneToken(s: string, tok: Token)
    requires Run(s, LexState(0, [])) == Ok(LexState(|s|, [tok]))
    requires tok.kind != NEWLINE && tok.kind != EOF
    requires forall k :: 0 <= k < |s| ==> s[k] != '\n'
    ensures Lex(s) == Ok([tok, Token(NEWLINE, "\\n", NoLiteral, 1, |s| + 1), Token(EOF, "", NoLiteral, 1, |s| + 1)])
  {
    var n := |s| + 1;
    LineColAcrossLine(s, 0, |s|);
    assert LineCol(s, |s|) == Pos(1, n);
    FinishAfterToken([tok], Pos(1, n));
    SingletonThenPair(tok, Token(NEWLINE, "\\n", NoLiteral, 1, n), Token(EOF, "", NoLiteral, 1, n));
    LexOfRun(s, LexState(|s|, [tok]));
  }

  lemma SingletonThenPair<T>(a: T, b: T, c: T)
    ensures [a] + [b, c] == [a, b, c]
  {
  }

  lemma DigitsRun(s: string, v: nat)
    requires |s| >= 1 && AllDigits(s) && DigitsValue(s) == v
    ensures Run(s, LexState(0, [])) == Ok(LexState(|s|, [Token(NUMBER, s, NumberValue(v as real), 1, 1)]))
  {
    DigitsLexAsOneNumber(s);
    var st := LexState(|s|, [Token(NUMBER, s, NumberValue(v as real), 1, 1)]);
    RunAfterStep(s, LexState(0, []), st);
    RunAtEnd(s, st);
  }

  /** A text made of digits only is scanned in one step as a single NUMBER token. */
  lemma DigitsLexAsOneNumber(s: string)
    requires |s| >= 1 && AllDigits(s)
    ensures Step(s, LexState(0, [])) == Ok(LexState(|s|, [Token(NUMBER, s, NumberValue(DigitsValue(s) as real), 1, 1)]))
  {
    StepOnDigit(s, LexState(0, []));
    ReadAllDigits(s);
  }

  lemma ReadAllDigits(s: string)
    requires |s| >= 1 && AllDigits(s)
    ensures ReadNumber(s, 0, []) == LexState(|s|, [Token(NUMBER, s, NumberValue(DigitsValue(s) as real), 1, 1)])
  {
    DigitRunToEnd(s, 1);
    assert NumberEnd(s, 1) == |s|;
    assert s[0..|s|] == s;
    NoDotIndex(s);
    assert DecimalValue(s) == DigitsValue(s) as real;
    LineColAcrossLine(s, 0, |s|);
    assert LineCol(s, 1).column == 2;
  }

  lemma StepOnDigit(src: string, st: LexState)
    requires st.pos < |src| && IsDigit(src[st.pos])
    ensures Step(src, st) == Ok(ReadNumber(src, st.pos, st.tokens))
  {
  }

  lemma {:induction false} DigitRunToEnd(s: string, i: nat)
    requires i <= |s| && AllDigits(s)
    ensures DigitRun(s, i) == |s|
    decreases |s| - i
  {
    if i < |s| {
      DigitRunToEnd(s, i + 1);
    }
  }

  lemma {:induction false} NoDotIndex(s: string)
    requires AllDigits(s)
    ensures DotIndex(s) == |s|
    decreases |s|
  {
    if s != [] {
      NoDotIndex(s[1..]);
    }
  }

  /** The value of the decimal "a.b": the whole part `a` plus `b` tenths, hundredths, ... */
  function FractionOf(a: string, b: string): real {
    DigitsValue(a) as real + (DigitsValue(b) as real) / (Pow10(|b|) as real)
  }

  /**
   * Digits, a '.' and more digits lex to one NUMBER token whose value is
   * the whole part plus the fraction, then the closing NEWLINE and EOF.
   */
  lemma FractionRoundTrip(a: string, b: string)
    requires |a| >= 1 && AllDigits(a) && |b| >= 1 && AllDigits(b)
    ensures Lex(a + "." + b) == Ok([Token(NUMBER, a + "." + b, NumberValue(FractionOf(a, b)), 1, 1),
                                    Token(NEWLINE, "\\n", NoLiteral, 1, |a| + |b| + 2),
                                    Token(EOF, "", NoLiteral, 1, |a| + |b| + 2)])
  {
    var s := a + "." + b;
    assert |s| + 1 == |a| + |b| + 2;
    var tok := Token(NUMBER, s, NumberValue(FractionOf(a, b)), 1, 1);
    ReadFraction(a, b);
    StepOnDigit(s, LexState(0, []));
    RunAfterStep(s, LexState(0, []), LexState(|s|, [tok]));
    RunAtEnd(s, LexState(|s|, [tok]));
    FractionOnOneLine(a, b);
    LexOfOneToken(s, tok);
  }

  lemma ReadFraction(a: string, b: string)
    requires |a| >= 1 && AllDigits(a) && |b| >= 1 && AllDigits(b)
    ensures ReadNumber(a + "." + b, 0, [])
         == LexState(|a| + 1 + |b|, [Token(NUMBER, a + "." + b, NumberValue(FractionOf(a, b)), 1, 1)])
  {
    var s := a + "." + b;
    var x := FractionOf(a, b);
    FractionEnd(a, b);
    var j := NumberEnd(s, 1);
    assert s[0..j] == s;
    FractionValue(a, b);
    assert DecimalValue(s[0..j]) == x;
    FractionOnOneLine(a, b);
    LineColAcrossLine(s, 0, |s|);
    assert LineCol(s, j).line == 1;
    assert LineCol(s, 1).column == 2;
    var t := Token(NUMBER, s[0..j], NumberValue(DecimalValue(s[0..j])), LineCol(s, j).line, LineCol(s, 1).column - 1);
    assert ReadNumber(s, 0, []) == LexState(j, [] + [t]);
    assert [] + [t] == [Token(NUMBER, s, NumberValue(x), 1, 1)];
  }

  lemma FractionEnd(a: string, b: string)
    requires |a| >= 1 && AllDigits(a) && |b| >= 1 && AllDigits(b)
    ensures NumberEnd(a + "." + b, 1) == |a + "." + b|
  {
    var s := a + "." + b;
    var k := |a|;
    assert forall m :: 1 <= m < k ==> IsDigit(s[m]) by {
      forall m | 1 <= m < k ensures IsDigit(s[m]) {
        assert s[m] == a[m];
      }
    }
    assert s[k] == '.';
    DigitRunStops(s, 1, k);
    assert s[k + 1] == b[0];
    assert forall m :: k + 1 <= m < |s| ==> IsDigit(s[m]) by {
      forall m | k + 1 <= m < |s| ensures IsDigit(s[m]) {
        assert s[m] == b[m - k - 1];
      }
    }
    DigitRunStops(s, k + 1, |s|);
  }

  lemma FractionValue(a: string, b: string)
    requires AllDigits(a) && |b| >= 1
    ensures DecimalValue(a + "." + b) == FractionOf(a, b)
  {
    var s := a + "." + b;
    DotAfterDigits(a, b);
    assert s[..|a|] == a && s[|a| + 1..] == b;
    assert |s| - |a| - 1 == |b|;
  }

  lemma FractionOnOneLine(a: string, b: string)
    requires AllDigits(a) && AllDigits(b)
    ensures forall m :: 0 <= m < |a + "." + b| ==> (a + "." + b)[m] != '\n'
  {
    var s := a + "." + b;
    forall m | 0 <= m < |s| ensures s[m] != '\n' {
      if m < |a| {
        assert s[m] == a[m];
      } else if m > |a| {
        assert s[m] == b[m - |a| - 1];
      }
    }
  }

  /** A run of digits from `i` that ends at `j` is the whole run `DigitRun` finds. */
  lemma {:induction false} DigitRunStops(src: string, i: nat, j: nat)
    requires i <= j <= |src|
    requires forall m :: i <= m < j ==> IsDigit(src[m])
    requires j < |src| ==> !IsDigit(src[j])
    ensures DigitRun(src, i) == j
    decreases j - i
  {
    if i < j {
      DigitRunStops(src, i + 1, j);
    }
  }

  /** The first '.' of "digits.rest" is the one after the digits. */
  lemma {:induction false} DotAfterDigits(a: string, b: string)
    requires AllDigits(a)
    ensures DotIndex(a + "." + b) == |a|
    decreases |a|
  {
    if a != [] {
      assert (a + "." + b)[1..] == a[1..] + "." + b;
      DotAfterDigits(a[1..], b);
    }
  }

  // ---------------------------------------------------------------
  // Operators, strings and error positions
  // ---------------------------------------------------------------

  /** `==`, `!=`, `<=` and `>=` are scanned as one token, never as their one-character prefix. */
  lemma {:induction false} TwoCharOperatorWins(src: string, st: LexState)
    requires st.pos + 1 < |src| && TwoCharKind(src[st.pos]).Some? && src[st.pos + 1] == '='
    ensures Step(src, st).Ok?
    ensures var t := Token(TwoCharKind(src[st.pos]).value, [src[st.pos], '='], NoLiteral,
                           LineCol(src, st.pos).line, LineCol(src, st.pos).column);
            Step(src, st).value == LexState(st.pos + 2, st.tokens + [t])
  {
    StepOnOther(src, st);
    LineColAcrossLine(src, st.pos, st.pos + 2);
  }

  /** A character no rule accepts is reported at its own line and column. */
  lemma {:induction false} UnexpectedCharacterPosition(src: string, st: LexState)
    requires st.pos < |src| && src[st.pos] != '"' && Step(src, st).Err?
    ensures Step(src, st).error
         == SyntaxError("Unexpected character '" + [src[st.pos]] + "'", LineCol(src, st.pos).line, LineCol(src, st.pos).column)
  {
    var c := src[st.pos];
    assert !IsBlank(c) && c != '\n' && c != '#' && !IsDigit(c) && !IsIdentStart(c);
    StepOnOther(src, st);
    LineColAcrossLine(src, st.pos, st.pos + 1);
  }

  /** A string left open is reported at its opening quote. */
  lemma {:induction false} UnterminatedStringPosition(src: string, st: LexState)
    requires st.pos < |src| && src[st.pos] == '"' && Step(src, st).Err?
    ensures Step(src, st).error == SyntaxError("Unterminated string", LineCol(src, st.pos).line, LineCol(src, st.pos).column)
  {
    StepOnQuote(src, st);
    LineColAcrossLine(src, st.pos, st.pos + 1);
  }

  /**
   * A string on one line and without escapes gets the column of its
   * opening quote: its lexeme is exactly the text between the quotes.
   */
  lemma {:induction false} PlainStringColumn(src: string, st: LexState)
    requires st.pos < |src| && src[st.pos] == '"' && Step(src, st).Ok?
    requires var stop := StringScan(src, st.pos + 1).1;
             forall k :: st.pos < k < stop ==> src[k] != '\n' && src[k] != '\\'
    ensures var t := Step(src, st).value.tokens[|st.tokens|];
            t.kind == STRING && t.line == LineCol(src, st.pos).line && t.column == LineCol(src, st.pos).column
  {
    StepOnQuote(src, st);
    var stop := StringScan(src, st.pos + 1).1;
    PlainStringScan(src, st.pos + 1);
    LineColAcrossLine(src, st.pos, stop + 1);
  }

  lemma {:induction false} PlainStringScan(src: string, i: nat)
    requires i <= |src|
    requires forall k :: i <= k < StringScan(src, i).1 ==> src[k] != '\\'
    ensures StringScan(src, i).0 == src[i..StringScan(src, i).1]
    decreases |src| - i
  {
    if i < |src| && src[i] != '"' {
      StringScanPlain(src, i);
      PlainStringScan(src, i + 1);
    }
  }

  /**
   * The column of a string token is its end column less the length of the
   * decoded lexeme, so a string spanning two lines can get a column below 1.
   */
  lemma MultiLineStringColumn(src: string)
    requires src == "\"a\nb\""
    ensures Lex(src).Ok?
    ensures Lex(src).value[0] == Token(STRING, "\"a\nb\"", StringValue("a\nb"), 2, -2)
  {
    var t := Token(STRING, "\"a\nb\"", StringValue("a\nb"), 2, -2);
    MultiLineStringRead(src);
    StepOnQuote(src, LexState(0, []));
    RunAfterStep(src, LexState(0, []), LexState(5, [t]));
    RunAtEnd(src, LexState(5, [t]));
    LexOfRun(src, LexState(5, [t]));
  }

  lemma MultiLineStringRead(src: string)
    requires src == "\"a\nb\""
    ensures ReadString(src, 1, []) == Ok(LexState(5, [Token(STRING, "\"a\nb\"", StringValue("a\nb"), 2, -2)]))
  {
    var t := Token(STRING, "\"a\nb\"", StringValue("a\nb"), 2, -2);
    MultiLineStringBody(src);
    assert LineCol(src, 5) == Pos(2, 3);
    assert "\"" + "a\nb" + "\"" == "\"a\nb\"";
    assert MakeToken(STRING, "\"a\nb\"", StringValue("a\nb"), Pos(2, 3)) == t;
    assert [] + [t] == [t];
  }

  lemma MultiLineStringBody(src: string)
    requires src == "\"a\nb\""
    ensures StringScan(src, 1) == ("a\nb", 4)
  {
    assert StringScan(src, 4) == ("", 4);
    StringScanPlain(src, 3);
    StringScanPlain(src, 2);
    StringScanPlain(src, 1);
    assert [src[1]] + ([src[2]] + ([src[3]] + "")) == "a\nb";
  }

  /**
   * An escape `\c` in a string decodes to a newline, a tab, a backslash
   * or a quote for `n`, `t`, `\` and `"`, and to the backslash and `c`
   * themselves for any other character; scanning goes on after it, so an
   * escaped quote does not end the string.
   */
  lemma EscapesDecoded(src: string, i: nat)
    requires i + 1 < |src| && src[i] == '\\'
    ensures var c := src[i + 1];
            var text := StringScan(src, i).0;
            var rest := StringScan(src, i + 2);
            && StringScan(src, i).1 == rest.1 >= i + 2
            && (c == 'n' ==> text == "\n" + rest.0)
            && (c == 't' ==> text == "\t" + rest.0)
            && (c == '\\' || c == '"' ==> text == [c] + rest.0)
            && (c != 'n' && c != 't' && c != '\\' && c != '"' ==> text == ['\\', c] + rest.0)
  {
    StringScanEscape(src, i);
  }

  /** The body of a string literal that spells `t`: a backslash before each backslash and each quote. */
  function Escaped(t: string): (e: string)
    ensures |e| >= |t|
    ensures '"' in t || '\\' in t ==> |e| > |t|
  {
    if t == [] then []
    else (if t[0] == '\\' || t[0] == '"' then ['\\', t[0]] else [t[0]]) + Escaped(t[1..])
  }

  /**
   * Scanning an escaped text back from just after `p` stops at the quote
   * that follows it and gives the text again.
   */
  lemma {:induction false} EscapedRoundTrip(p: string, t: string, tail: string)
    ensures StringScan(p + Escaped(t) + "\"" + tail, |p|) == (t, |p| + |Escaped(t)|)
    decreases |t|
  {
    var src := p + Escaped(t) + "\"" + tail;
    if t == [] {
      assert src[|p|] == '"';
    } else {
      var head := if t[0] == '\\' || t[0] == '"' then ['\\', t[0]] else [t[0]];
      assert Escaped(t) == head + Escaped(t[1..]);
      assert src == (p + head) + Escaped(t[1..]) + "\"" + tail;
      EscapedRoundTrip(p + head, t[1..], tail);
      if |head| == 2 {
        assert src[|p|] == '\\' && src[|p| + 1] == t[0];
        StringScanEscape(src, |p|);
      } else {
        assert src[|p|] == t[0];
        StringScanPlain(src, |p|);
      }
      assert [t[0]] + t[1..] == t;
    }
  }

  // ---------------------------------------------------------------
  // One step at a time
  // ---------------------------------------------------------------

  lemma StepOnBlank(src: string, st: LexState)
    requires st.pos < |src| && IsBlank(src[st.pos])
    ensures Step(src, st) == Ok(LexState(st.pos + 1, st.tokens))
  {
  }

  lemma StepOnNewline(src: string, st: LexState)
    requires st.pos < |src| && src[st.pos] == '\n'
    ensures Step(src, st) == Ok(LexState(st.pos + 1, EmitNewline(st.tokens, LineCol(src, st.pos + 1))))
  {
    assert !IsBlank(src[st.pos]);
  }

  lemma StepOnQuote(src: string, st: LexState)
    requires st.pos < |src| && src[st.pos] == '"'
    ensures Step(src, st) == ReadString(src, st.pos + 1, st.tokens)
  {
  }

  lemma StepOnIdentStart(src: string, st: LexState)
    requires st.pos < |src| && IsIdentStart(src[st.pos])
    ensures Step(src, st) == Ok(ReadIdentifier(src, st.pos, st.tokens))
  {
  }

  lemma StepOnOther(src: string, st: LexState)
    requires st.pos < |src|
    requires var c := src[st.pos]; !IsBlank(c) && c != '\n' && c != '#' && c != '"' && !IsDigit(c) && !IsIdentStart(c)
    ensures Step(src, st) == ReadOperator(src, st.pos, st.tokens)
  {
  }

  lemma RunStep(src: string, st: LexState)
    requires st.pos < |src|
    ensures Step(src, st).Ok? ==> Run(src, st) == Run(src, Step(src, st).value)
    ensures Step(src, st).Err? ==> Run(src, st) == Err(Step(src, st).error)
  {
  }

  lemma RunAfterStep(src: string, st: LexState, next: LexState)
    requires st.pos < |src| && Step(src, st) == Ok(next)
    ensures Run(src, st) == Run(src, next)
  {
  }

  lemma RunAtEnd(src: string, st: LexState)
    requires st.pos == |src|
    ensures Run(src, st) == Ok(st)
  {
  }

  lemma LexOfRun(src: string, st: LexState)
    requires Run(src, LexState(0, [])) == Ok(st)
    ensures Lex(src) == Ok(Finish(st.tokens, LineCol(src, |src|)))
  {
  }

  /** Closing a stream whose last token is an ordinary one adds a NEWLINE and the EOF. */
  lemma FinishAfterToken(ts: seq<Token>, at: Pos)
    requires ts != [] && ts[|ts| - 1].kind != NEWLINE && ts[|ts| - 1].kind != EOF
    ensures Finish(ts, at) == ts + [Token(NEWLINE, "\\n", NoLiteral, at.line, at.column), Token(EOF, "", NoLiteral, at.line, at.column)]
  {
  }

  // ---------------------------------------------------------------
  // Worked examples
  // ---------------------------------------------------------------

  function Kinds(ts: seq<Token>): (ks: seq<TokenType>)
    ensures |ks| == |ts| && forall i :: 0 <= i < |ts| ==> ks[i] == ts[i].kind
  {
    if ts == [] then [] else [ts[0].kind] + Kinds(ts[1..])
  }

  /** A run of blank lines between two statements yields a single NEWLINE. */
  lemma NewlinesCollapse(src: string)
    requires src == "a\n\n\nb"
    ensures Lex(src).Ok?
    ensures Kinds(Lex(src).value) == [IDENTIFIER, NEWLINE, IDENTIFIER, NEWLINE, EOF]
  {
    var a := Token(IDENTIFIER, "a", NoLiteral, 1, 1);
    var nl := Token(NEWLINE, "\\n", NoLiteral, 1, 1);
    var b := Token(IDENTIFIER, "b", NoLiteral, 4, 1);
    NewlinesRun(src);
    LexOfRun(src, LexState(5, [a, nl, b]));
    var at := LineCol(src, 5);
    FinishAfterToken([a, nl, b], at);
    var ts := [a, nl, b] + [Token(NEWLINE, "\\n", NoLiteral, at.line, at.column), Token(EOF, "", NoLiteral, at.line, at.column)];
    assert Kinds(ts) == [IDENTIFIER, NEWLINE, IDENTIFIER, NEWLINE, EOF];
  }

  lemma NewlinesRun(src: string)
    requires src == "a\n\n\nb"
    ensures Run(src, LexState(0, [])) == Ok(LexState(5, [Token(IDENTIFIER, "a", NoLiteral, 1, 1),
                                                         Token(NEWLINE, "\\n", NoLiteral, 1, 1),
                                                         Token(IDENTIFIER, "b", NoLiteral, 4, 1)]))
  {
    var a := Token(IDENTIFIER, "a", NoLiteral, 1, 1);
    var nl := Token(NEWLINE, "\\n", NoLiteral, 1, 1);
    var b := Token(IDENTIFIER, "b", NoLiteral, 4, 1);
    NewlinesFirstWord(src);
    NewlinesFirstBreak(src);
    NewlinesSkipped(src);
    NewlinesLastWord(src);
    assert [a, nl] + [b] == [a, nl, b];
    RunAtEnd(src, LexState(5, [a, nl, b]));
  }

  lemma NewlinesFirstWord(src: string)
    requires src == "a\n\n\nb"
    ensures Run(src, LexState(0, [])) == Run(src, LexState(1, [Token(IDENTIFIER, "a", NoLiteral, 1, 1)]))
  {
    StepOnIdentStart(src, LexState(0, []));
    assert IdentRun(src, 1) == 1;
    assert src[0..1] == "a" && "a" !in KEYWORDS;
    assert LineCol(src, 1) == Pos(1, 2);
    var a := Token(IDENTIFIER, "a", NoLiteral, 1, 1);
    assert MakeToken(KeywordKind("a"), "a", KeywordLiteral(IDENTIFIER), Pos(1, 2)) == a;
    assert ReadIdentifier(src, 0, []) == LexState(1, [] + [a]);
    assert [] + [a] == [a];
    RunAfterStep(src, LexState(0, []), LexState(1, [a]));
  }

  lemma NewlinesFirstBreak(src: string)
    requires src == "a\n\n\nb"
    ensures var a := Token(IDENTIFIER, "a", NoLiteral, 1, 1);
            Run(src, LexState(1, [a])) == Run(src, LexState(2, [a, Token(NEWLINE, "\\n", NoLiteral, 1, 1)]))
  {
    var a := Token(IDENTIFIER, "a", NoLiteral, 1, 1);
    StepOnNewline(src, LexState(1, [a]));
    assert LineCol(src, 2) == Pos(2, 1);
    var nl := Token(NEWLINE, "\\n", NoLiteral, 1, 1);
    assert EmitNewline([a], Pos(2, 1)) == [a] + [nl];
    assert [a] + [nl] == [a, nl];
    RunAfterStep(src, LexState(1, [a]), LexState(2, [a, nl]));
  }

  /** The second and third newlines add nothing: the stream already ends in a NEWLINE. */
  lemma NewlinesSkipped(src: string)
    requires src == "a\n\n\nb"
    ensures var ts := [Token(IDENTIFIER, "a", NoLiteral, 1, 1), Token(NEWLINE, "\\n", NoLiteral, 1, 1)];
            Run(src, LexState(2, ts)) == Run(src, LexState(4, ts))
  {
    var ts := [Token(IDENTIFIER, "a", NoLiteral, 1, 1), Token(NEWLINE, "\\n", NoLiteral, 1, 1)];
    StepOnNewline(src, LexState(2, ts));
    assert EmitNewline(ts, LineCol(src, 3)) == ts;
    RunAfterStep(src, LexState(2, ts), LexState(3, ts));
    StepOnNewline(src, LexState(3, ts));
    assert EmitNewline(ts, LineCol(src, 4)) == ts;
    RunAfterStep(src, LexState(3, ts), LexState(4, ts));
  }

  lemma NewlinesLastWord(src: string)
    requires src == "a\n\n\nb"
    ensures var ts := [Token(IDENTIFIER, "a", NoLiteral, 1, 1), Token(NEWLINE, "\\n", NoLiteral, 1, 1)];
            Run(src, LexState(4, ts)) == Run(src, LexState(5, ts + [Token(IDENTIFIER, "b", NoLiteral, 4, 1)]))
  {
    var ts := [Token(IDENTIFIER, "a", NoLiteral, 1, 1), Token(NEWLINE, "\\n", NoLiteral, 1, 1)];
    StepOnIdentStart(src, LexState(4, ts));
    assert IdentRun(src, 5) == 5;
    assert src[4..5] == "b" && "b" !in KEYWORDS;
    assert LineCol(src, 5) == Pos(4, 2);
    var b := Token(IDENTIFIER, "b", NoLiteral, 4, 1);
    assert MakeToken(KeywordKind("b"), "b", KeywordLiteral(IDENTIFIER), Pos(4, 2)) == b;
    RunAfterStep(src, LexState(4, ts), LexState(5, ts + [b]));
  }
}
