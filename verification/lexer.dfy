/**
 * The Ember lexer: a single pass over the source text that keeps a
 * cursor, the current line and column, and the list of tokens emitted so
 * far.  Each method is proved to do exactly what the corresponding
 * scanning rule in `Scanning` describes.
 */
module Lexer {
  import opened Util
  import opened Errors
  import opened Tokens
  import opened Scanning

  class Lexer {
    var source: string
    var tokens: seq<Token>
    var pos: nat
    var line: int
    var column: int

    /** The cursor is inside the text and line/column describe it. */
    ghost predicate Valid()
      reads this
    {
      pos <= |source| && Pos(line, column) == LineCol(source, pos)
    }

    ghost function State(): LexState
      reads this
    {
      LexState(pos, tokens)
    }

    /** A method's outcome `r` and final state `st` are those the scanning rule `s` gives. */
    ghost predicate Agrees(r: Result<()>, st: LexState, s: Result<LexState>) {
      match s
      case Ok(next) => r.Ok? && st == next
      case Err(e) => r == Err(e)
    }

    constructor ()
      ensures Valid() && source == "" && tokens == [] && pos == 0
    {
      source := "";
      tokens := [];
      pos := 0;
      line := 1;
      column := 1;
    }

    /** Tokenizes `src`: the token list ends with EOF, or the first lexical error is raised. */
    method Tokenize(src: string) returns (r: Result<seq<Token>>)
      modifies this
      ensures r == Lex(src)
      ensures r.Ok? ==> tokens == r.value
    {
      source := src;
      tokens := [];
      pos := 0;
      line := 1;
      column := 1;
      while !AtEnd()
        invariant Valid() && source == src
        invariant Run(source, State()) == Run(source, LexState(0, []))
        decreases |source| - pos
      {
        var scanned := ScanToken();
        if scanned.Err? {
          return Err(scanned.error);
        }
      }
      if tokens != [] && tokens[|tokens| - 1].kind != NEWLINE && tokens[|tokens| - 1].kind != EOF {
        tokens := tokens + [Token(NEWLINE, "\\n", NoLiteral, line, column)];
      }
      tokens := tokens + [Token(EOF, "", NoLiteral, line, column)];
      return Ok(tokens);
    }

    /** Scans one token starting at the cursor. */
    method ScanToken() returns (r: Result<()>)
      requires Valid() && pos < |source|
      modifies this`pos, this`line, this`column, this`tokens
      ensures Valid()
      ensures Agrees(r, State(), Step(source, old(State())))
    {
      var ch := Advance();
      if ch == ' ' || ch == '\t' || ch == '\r' {
        return Ok(());
      }
      if ch == '\n' {
        EmitNewlineToken();
        return Ok(());
      }
      if ch == '#' {
        SkipComment();
        return Ok(());
      }
      if ch == '"' {
        r := ReadString();
        return;
      }
      if IsDigit(ch) {
        ReadNumber(ch);
        return Ok(());
      }
      if IsAlpha(ch) || ch == '_' {
        ReadIdentifier(ch);
        return Ok(());
      }
      r := ReadOperator(ch);
    }

    /** Skips the rest of a comment, up to but not including the newline. */
    method SkipComment()
      requires Valid()
      modifies this`pos, this`line, this`column
      ensures Valid() && pos == CommentEnd(source, old(pos))
    {
      while !AtEnd() && Peek() != '\n'
        invariant Valid() && old(pos) <= pos
        invariant CommentEnd(source, pos) == CommentEnd(source, old(pos))
        decreases |source| - pos
      {
        var _ := Advance();
      }
    }

    /** Scans an operator or delimiter whose first character `ch` has just been consumed. */
    method ReadOperator(ch: char) returns (r: Result<()>)
      requires Valid() && 1 <= pos <= |source| && ch == source[pos - 1]
      modifies this`pos, this`line, this`column, this`tokens
      ensures Valid()
      ensures Agrees(r, State(), Scanning.ReadOperator(source, old(pos) - 1, old(tokens)))
    {
      // '=', '!', '<' and '>' followed by '=' form a two-character operator
      var two := TwoCharKind(ch);
      if two.Some? {
        var matched := Match('=');
        if matched {
          AddToken(two.value, [ch, '='], NoLiteral);
          return Ok(());
        }
      }
      var single := SingleKind(ch);
      if single.Some? {
        AddToken(single.value, [ch], NoLiteral);
        return Ok(());
      }
      return Err(SyntaxError("Unexpected character '" + [ch] + "'", line, column - 1));
    }

    predicate AtEnd()
      reads this
    {
      pos >= |source|
    }

    /** Consumes one character, moving to the next line after a newline. */
    method Advance() returns (ch: char)
      requires Valid() && pos < |source|
      modifies this`pos, this`line, this`column
      ensures Valid() && pos == old(pos) + 1 && ch == source[old(pos)]
    {
      ch := source[pos];
      pos := pos + 1;
      if ch == '\n' {
        line := line + 1;
        column := 1;
      } else {
        column := column + 1;
      }
    }

    /** The character at the cursor, or NUL at the end. */
    function Peek(): (c: char)
      reads this
      ensures pos < |source| ==> c == source[pos]
      ensures pos >= |source| ==> c == '\0'
    {
      if AtEnd() then '\0' else source[pos]
    }

    /** The character after the cursor, or NUL past the end. */
    function PeekNext(): (c: char)
      reads this
      ensures pos + 1 < |source| ==> c == source[pos + 1]
      ensures pos + 1 >= |source| ==> c == '\0'
    {
      if pos + 1 >= |source| then '\0' else source[pos + 1]
    }

    /** Consumes the next character only when it is `expected`. */
    method Match(expected: char) returns (matched: bool)
      requires Valid()
      modifies this`pos, this`line, this`column
      ensures Valid()
      ensures matched <==> old(pos) < |source| && source[old(pos)] == expected
      ensures pos == old(pos) + (if matched then 1 else 0)
    {
      if AtEnd() || source[pos] != expected {
        return false;
      }
      var _ := Advance();
      return true;
    }

    /** Appends a token that ends at the cursor. */
    method AddToken(kind: TokenType, lexeme: string, literal: Literal)
      modifies this`tokens
      ensures tokens == old(tokens) + [MakeToken(kind, lexeme, literal, Pos(line, column))]
    {
      var col := column - |lexeme|;
      tokens := tokens + [Token(kind, lexeme, literal, line, col)];
    }

    /** Emits a NEWLINE for the newline just read, collapsing runs of newlines. */
    method EmitNewlineToken()
      modifies this`tokens
      ensures tokens == EmitNewline(old(tokens), Pos(line, column))
    {
      if tokens == [] || tokens[|tokens| - 1].kind == NEWLINE {
        return;
      }
      tokens := tokens + [Token(NEWLINE, "\\n", NoLiteral, line - 1, column)];
    }

    /** Reads a string literal; the opening quote has just been consumed. */
    method ReadString() returns (r: Result<()>)
      requires Valid() && 1 <= pos <= |source|
      modifies this`pos, this`line, this`column, this`tokens
      ensures Valid()
      ensures Agrees(r, State(), Scanning.ReadString(source, old(pos), old(tokens)))
    {
      var startLine := line;
      var startCol := column - 1;
      var text := ReadStringBody();
      if AtEnd() {
        return Err(SyntaxError("Unterminated string", startLine, startCol));
      }
      var _ := Advance();
      AddToken(STRING, "\"" + text + "\"", StringValue(text));
      return Ok(());
    }

    /** Decodes a string body up to the closing quote or the end of the input. */
    method ReadStringBody() returns (value: string)
      requires Valid()
      modifies this`pos, this`line, this`column
      ensures Valid()
      ensures (value, pos) == StringScan(source, old(pos))
    {
      value := "";
      while !AtEnd() && Peek() != '"'
        invariant Valid() && old(pos) <= pos
        invariant StringScan(source, old(pos)).0 == value + StringScan(source, pos).0
        invariant StringScan(source, old(pos)).1 == StringScan(source, pos).1
        decreases |source| - pos
      {
        ghost var v0 := value;
        var piece := ReadStringPiece();
        value := value + piece;
        assert v0 + (piece + StringScan(source, pos).0) == value + StringScan(source, pos).0;
      }
      assert StringScan(source, pos) == ("", pos);
      assert value + "" == value;
    }

    /** Decodes one character of a string body, or one escape sequence. */
    method ReadStringPiece() returns (piece: string)
      requires Valid() && pos < |source| && source[pos] != '"'
      modifies this`pos, this`line, this`column
      ensures Valid() && old(pos) < pos
      ensures StringScan(source, old(pos)).0 == piece + StringScan(source, pos).0
      ensures StringScan(source, old(pos)).1 == StringScan(source, pos).1
    {
      ghost var b := pos;
      var ch := Advance();
      if ch == '\\' {
        if !AtEnd() {
          StringScanEscape(source, b);
          var esc := Advance();
          return Unescape(esc);
        }
        // a backslash at the very end is kept as is
        StringScanTrailingBackslash(source, b);
        return "\\";
      }
      // any other character, a raw newline included, is kept as is
      StringScanPlain(source, b);
      return [ch];
    }

    /** Reads a number literal; its first digit `first` has just been consumed. */
    method ReadNumber(first: char)
      requires Valid() && 1 <= pos <= |source| && first == source[pos - 1]
      modifies this`pos, this`line, this`column, this`tokens
      ensures Valid()
      ensures State() == Scanning.ReadNumber(source, old(pos) - 1, old(tokens))
    {
      var start := pos - 1;
      var startCol := column - 1;
      ReadNumberText();
      // the characters collected one by one are exactly the text consumed
      EmitNumber(start, startCol);
    }

    /** Consumes the rest of a number: its digits, then a fraction when a digit follows the '.'. */
    method ReadNumberText()
      requires Valid()
      modifies this`pos, this`line, this`column
      ensures Valid() && pos == NumberEnd(source, old(pos))
    {
      ReadDigits();
      if !AtEnd() && Peek() == '.' && IsDigit(PeekNext()) {
        var _ := Advance();
        ReadDigits();
      }
    }

    /** Appends the NUMBER token for the text from `start` to the cursor. */
    method EmitNumber(start: nat, startCol: int)
      requires start <= pos <= |source|
      modifies this`tokens
      ensures tokens == old(tokens) + [Token(NUMBER, source[start..pos], NumberValue(DecimalValue(source[start..pos])), line, startCol)]
    {
      var lexeme := source[start..pos];
      tokens := tokens + [Token(NUMBER, lexeme, NumberValue(DecimalValue(lexeme)), line, startCol)];
    }

    /** Consumes a run of digits. */
    method ReadDigits()
      requires Valid()
      modifies this`pos, this`line, this`column
      ensures Valid() && pos == DigitRun(source, old(pos))
    {
      while !AtEnd() && IsDigit(Peek())
        invariant Valid() && old(pos) <= pos
        invariant DigitRun(source, pos) == DigitRun(source, old(pos))
        decreases |source| - pos
      {
        var _ := Advance();
      }
    }

    /** Reads an identifier or keyword; its first character `first` has just been consumed. */
    method ReadIdentifier(first: char)
      requires Valid() && 1 <= pos <= |source| && first == source[pos - 1]
      modifies this`pos, this`line, this`column, this`tokens
      ensures Valid()
      ensures State() == Scanning.ReadIdentifier(source, old(pos) - 1, old(tokens))
    {
      var chars := [first];
      while !AtEnd() && (IsAlpha(Peek()) || IsDigit(Peek()) || Peek() == '_')
        invariant Valid() && old(pos) <= pos
        invariant tokens == old(tokens)
        invariant chars == source[old(pos) - 1..pos]
        invariant IdentRun(source, pos) == IdentRun(source, old(pos))
        decreases |source| - pos
      {
        var c := Advance();
        chars := chars + [c];
      }
      var lexeme := chars;
      var kind := KeywordKind(lexeme);
      var literal := NoLiteral;
      if kind == TRUE {
        literal := BoolValue(true);
      } else if kind == FALSE {
        literal := BoolValue(false);
      }
      AddToken(kind, lexeme, literal);
    }
  }
}
