/**
 * The scanning rules of the Ember lexer as pure functions.  A scan state
 * is the position reached and the tokens emitted so far; the line and
 * column at a position are a function of the text before it.  `Step`
 * scans one token (or skips blanks, a newline run or a comment), `Run`
 * repeats it to the end of the input and `Lex` adds the closing NEWLINE
 * and EOF tokens.
 */
module Scanning {
  import opened Util
  import opened Errors
  import opened Tokens

  /** A 1-based line and column. */
  datatype Pos = Pos(line: int, column: int)

  /** Position after reading `ch`: a newline starts a new line at column 1. */
  function Advanced(p: Pos, ch: char): Pos {
    if ch == '\n' then Pos(p.line + 1, 1) else Pos(p.line, p.column + 1)
  }

  /** Line and column reached after reading the first `p` characters of `src`. */
  function LineCol(src: string, p: nat): (r: Pos)
    requires p <= |src|
    ensures r.line >= 1 && r.column >= 1
    decreases p
  {
    if p == 0 then Pos(1, 1) else Advanced(LineCol(src, p - 1), src[p - 1])
  }

  // Character classes (ASCII)

  predicate IsAlpha(c: char) {
    'a' <= c <= 'z' || 'A' <= c <= 'Z'
  }

  predicate IsIdentStart(c: char) {
    IsAlpha(c) || c == '_'
  }

  predicate IsIdentChar(c: char) {
    IsAlpha(c) || IsDigit(c) || c == '_'
  }

  predicate IsBlank(c: char) {
    c == ' ' || c == '\t' || c == '\r'
  }

  /** End of the run of digits starting at `i`. */
  function DigitRun(src: string, i: nat): (j: nat)
    requires i <= |src|
    ensures i <= j <= |src|
    ensures forall k :: i <= k < j ==> IsDigit(src[k])
    ensures j < |src| ==> !IsDigit(src[j])
    decreases |src| - i
  {
    if i < |src| && IsDigit(src[i]) then DigitRun(src, i + 1) else i
  }

  /** End of the run of identifier characters starting at `i`. */
  function IdentRun(src: string, i: nat): (j: nat)
    requires i <= |src|
    ensures i <= j <= |src|
    ensures forall k :: i <= k < j ==> IsIdentChar(src[k])
    ensures j < |src| ==> !IsIdentChar(src[j])
    decreases |src| - i
  {
    if i < |src| && IsIdentChar(src[i]) then IdentRun(src, i + 1) else i
  }

  /** A comment runs up to, but not including, the next newline. */
  function CommentEnd(src: string, i: nat): (j: nat)
    requires i <= |src|
    ensures i <= j <= |src|
    ensures forall k :: i <= k < j ==> src[k] != '\n'
    ensures j < |src| ==> src[j] == '\n'
    decreases |src| - i
  {
    if i < |src| && src[i] != '\n' then CommentEnd(src, i + 1) else i
  }

  /**
   * End of a number whose first digit ends just before `i`: more digits,
   * then a '.' and digits only when a digit follows the '.'.
   */
  function NumberEnd(src: string, i: nat): (j: nat)
    requires i <= |src|
    ensures i <= j <= |src|
    ensures j < |src| ==> !IsDigit(src[j])
    ensures var k := DigitRun(src, i);
            && k <= j
            && (j > k <==> k + 1 < |src| && src[k] == '.' && IsDigit(src[k + 1]))
            && forall m :: i <= m < j && m != k ==> IsDigit(src[m])
  {
    var k := DigitRun(src, i);
    if k + 1 < |src| && src[k] == '.' && IsDigit(src[k + 1]) then DigitRun(src, k + 1) else k
  }

  /** Index of the first '.' in `s`, or |s|. */
  function DotIndex(s: string): (k: nat)
    ensures k <= |s|
    ensures forall i :: 0 <= i < k ==> s[i] != '.'
    ensures k < |s| ==> s[k] == '.'
  {
    if s == [] then 0 else if s[0] == '.' then 0 else 1 + DotIndex(s[1..])
  }

  /** The exact value of a number lexeme "digits" or "digits.digits". */
  function DecimalValue(lexeme: string): real {
    var k := DotIndex(lexeme);
    if k == |lexeme| then DigitsValue(lexeme) as real
    else DigitsValue(lexeme[..k]) as real
         + (DigitsValue(lexeme[k + 1..]) as real) / (Pow10(|lexeme| - k - 1) as real)
  }

  /** The text an escape sequence `\c` stands for. */
  function Unescape(c: char): string {
    if c == 'n' then "\n"
    else if c == 't' then "\t"
    else if c == '\\' then "\\"
    else if c == '"' then "\""
    else ['\\', c]
  }

  /**
   * Decoded text of a string body starting at `i`, and the index where
   * scanning stopped: the closing quote, or the end of the input.
   * Raw newlines are kept; a backslash at the very end stands for itself.
   */
  function StringScan(src: string, i: nat): (r: (string, nat))
    requires i <= |src|
    ensures i <= r.1 <= |src|
    ensures r.1 < |src| ==> src[r.1] == '"'
    decreases |src| - i
  {
    if i == |src| || src[i] == '"' then ("", i)
    else if src[i] == '\\' then
      if i + 1 == |src| then ("\\", i + 1)
      else var rest := StringScan(src, i + 2); (Unescape(src[i + 1]) + rest.0, rest.1)
    else
      var rest := StringScan(src, i + 1); ([src[i]] + rest.0, rest.1)
  }

  lemma StringScanPlain(src: string, i: nat)
    requires i < |src| && src[i] != '"' && src[i] != '\\'
    ensures StringScan(src, i).0 == [src[i]] + StringScan(src, i + 1).0
    ensures StringScan(src, i).1 == StringScan(src, i + 1).1
  {
  }

  lemma StringScanEscape(src: string, i: nat)
    requires i + 1 < |src| && src[i] == '\\'
    ensures StringScan(src, i).0 == Unescape(src[i + 1]) + StringScan(src, i + 2).0
    ensures StringScan(src, i).1 == StringScan(src, i + 2).1
  {
  }

  lemma StringScanTrailingBackslash(src: string, i: nat)
    requires i + 1 == |src| && src[i] == '\\'
    ensures StringScan(src, i).0 == "\\" + StringScan(src, i + 1).0
    ensures StringScan(src, i).1 == StringScan(src, i + 1).1
  {
  }

  /** Scan state: characters consumed so far and tokens emitted so far. */
  datatype LexState = LexState(pos: nat, tokens: seq<Token>)

  /** A token ending at `at`; its column is `at`'s column less the lexeme's length. */
  function MakeToken(kind: TokenType, lexeme: string, literal: Literal, at: Pos): (t: Token)
    ensures t.kind == kind && t.lexeme == lexeme && t.literal == literal && t.line == at.line
    ensures t.column + |lexeme| == at.column
  {
    Token(kind, lexeme, literal, at.line, at.column - |lexeme|)
  }

  /**
   * NEWLINE token for a newline just read (`at` is the position after it),
   * emitted only after some token and never twice in a row.
   */
  function EmitNewline(tokens: seq<Token>, at: Pos): (r: seq<Token>)
    ensures r == tokens || (|r| == |tokens| + 1 && r[..|tokens|] == tokens && r[|tokens|].kind == NEWLINE)
    ensures r != tokens <==> tokens != [] && tokens[|tokens| - 1].kind != NEWLINE
  {
    if tokens == [] || tokens[|tokens| - 1].kind == NEWLINE then tokens
    else tokens + [Token(NEWLINE, "\\n", NoLiteral, at.line - 1, at.column)]
  }

  /** Token type of a one-character operator or delimiter. */
  function SingleKind(c: char): Option<TokenType> {
    match c
    case '+' => Some(PLUS)
    case '-' => Some(MINUS)
    case '*' => Some(STAR)
    case '/' => Some(SLASH)
    case '%' => Some(PERCENT)
    case '=' => Some(EQUAL)
    case '<' => Some(LESS)
    case '>' => Some(GREATER)
    case '(' => Some(LPAREN)
    case ')' => Some(RPAREN)
    case '[' => Some(LBRACKET)
    case ']' => Some(RBRACKET)
    case ',' => Some(COMMA)
    case _ => None
  }

  /** Token type of a two-character operator `c=`. */
  function TwoCharKind(c: char): Option<TokenType> {
    match c
    case '=' => Some(EQUAL_EQUAL)
    case '!' => Some(BANG_EQUAL)
    case '<' => Some(LESS_EQUAL)
    case '>' => Some(GREATER_EQUAL)
    case _ => None
  }

  /** Reads a string whose opening quote ends just before `start`. */
  function ReadString(src: string, start: nat, tokens: seq<Token>): (r: Result<LexState>)
    requires 1 <= start <= |src|
    ensures r.Ok? ==> start < r.value.pos <= |src|
  {
    var opening := LineCol(src, start);
    var (text, stop) := StringScan(src, start);
    if stop == |src| then
      Err(SyntaxError("Unterminated string", opening.line, opening.column - 1))
    else
      Ok(LexState(stop + 1, tokens + [MakeToken(STRING, "\"" + text + "\"", StringValue(text), LineCol(src, stop + 1))]))
  }

  /** Reads a number whose first digit is at `i`. */
  function ReadNumber(src: string, i: nat, tokens: seq<Token>): (r: LexState)
    requires i < |src|
    ensures i < r.pos <= |src|
  {
    var j := NumberEnd(src, i + 1);
    var lexeme := src[i..j];
    LexState(j, tokens + [Token(NUMBER, lexeme, NumberValue(DecimalValue(lexeme)),
                                LineCol(src, j).line, LineCol(src, i + 1).column - 1)])
  }

  /** The literal a word carries: the boolean for `true` and `false`, none otherwise. */
  function KeywordLiteral(kind: TokenType): Literal {
    if kind == TRUE then BoolValue(true) else if kind == FALSE then BoolValue(false) else NoLiteral
  }

  /** Reads an identifier or keyword whose first character is at `i`. */
  function ReadIdentifier(src: string, i: nat, tokens: seq<Token>): (r: LexState)
    requires i < |src|
    ensures i < r.pos <= |src|
  {
    var j := IdentRun(src, i + 1);
    var lexeme := src[i..j];
    var kind := KeywordKind(lexeme);
    LexState(j, tokens + [MakeToken(kind, lexeme, KeywordLiteral(kind), LineCol(src, j))])
  }

  /** Scans what starts at `st.pos`: at most one token is appended. */
  function Step(src: string, st: LexState): (r: Result<LexState>)
    requires st.pos < |src|
    ensures r.Ok? ==> st.pos < r.value.pos <= |src|
  {
    var i := st.pos;
    var ch := src[i];
    if IsBlank(ch) then Ok(LexState(i + 1, st.tokens))
    else if ch == '\n' then Ok(LexState(i + 1, EmitNewline(st.tokens, LineCol(src, i + 1))))
    else if ch == '#' then Ok(LexState(CommentEnd(src, i + 1), st.tokens))
    else if ch == '"' then ReadString(src, i + 1, st.tokens)
    else if IsDigit(ch) then Ok(ReadNumber(src, i, st.tokens))
    else if IsIdentStart(ch) then Ok(ReadIdentifier(src, i, st.tokens))
    else ReadOperator(src, i, st.tokens)
  }

  /**
   * Scans an operator or delimiter at `i`: a two-character operator when
   * its second character '=' follows, else a one-character one, else the
   * character is rejected at its own column.
   */
  function ReadOperator(src: string, i: nat, tokens: seq<Token>): (r: Result<LexState>)
    requires i < |src|
    ensures r.Ok? ==> i < r.value.pos <= |src|
  {
    var ch := src[i];
    var after := LineCol(src, i + 1);
    if TwoCharKind(ch).Some? && i + 1 < |src| && src[i + 1] == '=' then
      Ok(LexState(i + 2, tokens + [MakeToken(TwoCharKind(ch).value, [ch, '='], NoLiteral, LineCol(src, i + 2))]))
    else if SingleKind(ch).Some? then
      Ok(LexState(i + 1, tokens + [MakeToken(SingleKind(ch).value, [ch], NoLiteral, after)]))
    else
      Err(SyntaxError("Unexpected character '" + [ch] + "'", after.line, after.column - 1))
  }

  /** Scans from `st` to the end of the input, stopping at the first error. */
  function Run(src: string, st: LexState): (r: Result<LexState>)
    requires st.pos <= |src|
    ensures r.Ok? ==> r.value.pos == |src|
    decreases |src| - st.pos
  {
    if st.pos == |src| then Ok(st)
    else match Step(src, st)
      case Err(e) => Err(e)
      case Ok(next) => Run(src, next)
  }

  /** Closing tokens: a NEWLINE unless the stream is empty or already ends in one, then EOF. */
  function Finish(tokens: seq<Token>, at: Pos): seq<Token> {
    var closed :=
      if tokens != [] && tokens[|tokens| - 1].kind != NEWLINE && tokens[|tokens| - 1].kind != EOF
      then tokens + [Token(NEWLINE, "\\n", NoLiteral, at.line, at.column)]
      else tokens;
    closed + [Token(EOF, "", NoLiteral, at.line, at.column)]
  }

  /** The token list of a whole source text, or the first lexical error. */
  function Lex(src: string): Result<seq<Token>> {
    match Run(src, LexState(0, []))
    case Err(e) => Err(e)
    case Ok(st) => Ok(Finish(st.tokens, LineCol(src, |src|)))
  }
}
