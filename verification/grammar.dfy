/**
 * The grammar of Ember as pure functions over a token list: a recursive
 * descent parser for statements and a Pratt (precedence climbing) parser
 * for expressions.  Every rule takes the position of the token it starts
 * at and yields the node it built together with the position of the first
 * token after it, or the syntax error that stopped it.
 */
module Grammar {
  import opened Util
  import opened Errors
  import opened Tokens
  import opened Ast

  // Binding powers, lowest to highest.
  const PREC_NONE: nat := 0
  const PREC_OR: nat := 1
  const PREC_AND: nat := 2
  const PREC_NOT: nat := 3
  const PREC_EQUALITY: nat := 4
  const PREC_COMPARISON: nat := 5
  const PREC_ADDITION: nat := 6
  const PREC_MULTIPLICATION: nat := 7
  const PREC_UNARY: nat := 8
  const PREC_CALL: nat := 9

  /** The binding power of a token used as an infix operator; PREC_NONE for every other token. */
  function InfixPrecedence(k: TokenType): (p: nat)
    ensures p <= PREC_CALL
    ensures p == PREC_NONE <==> k !in {OR, AND, EQUAL_EQUAL, BANG_EQUAL, LESS, GREATER,
                                       LESS_EQUAL, GREATER_EQUAL, PLUS, MINUS, STAR, SLASH,
                                       PERCENT, LPAREN, LBRACKET}
  {
    match k
    case OR => PREC_OR
    case AND => PREC_AND
    case EQUAL_EQUAL => PREC_EQUALITY
    case BANG_EQUAL => PREC_EQUALITY
    case LESS => PREC_COMPARISON
    case GREATER => PREC_COMPARISON
    case LESS_EQUAL => PREC_COMPARISON
    case GREATER_EQUAL => PREC_COMPARISON
    case PLUS => PREC_ADDITION
    case MINUS => PREC_ADDITION
    case STAR => PREC_MULTIPLICATION
    case SLASH => PREC_MULTIPLICATION
    case PERCENT => PREC_MULTIPLICATION
    case LPAREN => PREC_CALL
    case LBRACKET => PREC_CALL
    case _ => PREC_NONE
  }

  /** The outcome of one grammar rule: the node and the next position, or a syntax error. */
  datatype Parsed<T> = Parsed(node: T, next: nat) | Failed(error: EmberError) {
    predicate IsFailure() {
      Failed?
    }

    function PropagateFailure<U>(): Parsed<U>
      requires Failed?
    {
      Failed(error)
    }

    /** A successful outcome is kept whole, so that both its node and its position stay at hand. */
    function Extract(): (r: Parsed<T>)
      requires Parsed?
      ensures r.Parsed? && r == this
    {
      this
    }
  }

  /**
   * What the parser expects of its input: a non-empty token list that ends
   * with EOF, whose number and string tokens carry their literal values.
   */
  predicate Terminated(toks: seq<Token>) {
    |toks| > 0 && toks[|toks| - 1].kind == EOF &&
    forall i :: 0 <= i < |toks| ==> LiteralFits(toks[i])
  }

  predicate LiteralFits(t: Token) {
    (t.kind == NUMBER ==> t.literal.NumberValue?) &&
    (t.kind == STRING ==> t.literal.StringValue?)
  }

  /** The position after consuming the token at `pos`: EOF is never consumed. */
  function Next(toks: seq<Token>, pos: nat): (n: nat)
    requires Terminated(toks) && pos < |toks|
    ensures n < |toks|
    ensures toks[pos].kind == EOF ==> n == pos
    ensures toks[pos].kind != EOF ==> n == pos + 1
  {
    if toks[pos].kind != EOF then pos + 1 else pos
  }

  predicate Check(toks: seq<Token>, pos: nat, k: TokenType)
    requires pos < |toks|
  {
    toks[pos].kind == k
  }

  /**
   * Consumes a token of kind `k`; any other token is reported as `message`
   * plus the token found, at that token's position.  The parser never asks
   * for EOF this way, so a successful consume always advances.
   */
  function Consume(toks: seq<Token>, pos: nat, k: TokenType, message: string): (r: Parsed<Token>)
    requires Terminated(toks) && pos < |toks| && k != EOF
    ensures r.Parsed? <==> toks[pos].kind == k
    ensures r.Parsed? ==> r.node == toks[pos] && r.next == pos + 1 && r.next < |toks|
  {
    var tok := toks[pos];
    if tok.kind != k then
      Failed(SyntaxError(message + ", got '" + tok.lexeme + "'", tok.line, tok.column))
    else
      Parsed(tok, pos + 1)
  }

  /** The first position at or after `pos` that does not hold a NEWLINE. */
  function SkipNewlines(toks: seq<Token>, pos: nat): (p: nat)
    requires Terminated(toks) && pos < |toks|
    ensures pos <= p < |toks| && toks[p].kind != NEWLINE
    ensures forall k :: pos <= k < p ==> toks[k].kind == NEWLINE
    decreases |toks| - pos
  {
    if toks[pos].kind == NEWLINE then SkipNewlines(toks, pos + 1) else pos
  }

  /**
   * The end of a statement: a NEWLINE (consumed), or EOF, `end`, `elif` or
   * `else` (left in place); anything else is an error.
   */
  function ExpectNewline(toks: seq<Token>, pos: nat): (r: Parsed<()>)
    requires Terminated(toks) && pos < |toks|
    ensures r.Parsed? <==> toks[pos].kind == NEWLINE || EndsBlock(toks[pos].kind)
    ensures r.Parsed? ==> r.next < |toks| &&
                          r.next == (if toks[pos].kind == NEWLINE then pos + 1 else pos)
  {
    var tok := toks[pos];
    if tok.kind == EOF then Parsed((), pos)
    else if tok.kind == NEWLINE then Parsed((), pos + 1)
    else if tok.kind == END || tok.kind == ELIF || tok.kind == ELSE then Parsed((), pos)
    else Failed(SyntaxError("Expected newline after statement, got '" + tok.lexeme + "'",
                            tok.line, tok.column))
  }

  // ------------------------------------------------------------------
  // Whole programs and blocks
  // ------------------------------------------------------------------

  /** A whole program: statements up to EOF, leading and separating blank lines skipped. */
  function ProgramAt(toks: seq<Token>): (r: Parsed<Program>)
    requires Terminated(toks)
  {
    var stmts :- ProgramLoop(toks, [], SkipNewlines(toks, 0));
    Parsed(Program(1, 1, stmts.node), stmts.next)
  }

  function ProgramLoop(toks: seq<Token>, acc: seq<Stmt>, pos: nat): (r: Parsed<seq<Stmt>>)
    requires Terminated(toks) && pos < |toks|
    ensures r.Parsed? ==> pos <= r.next < |toks|
    decreases |toks| - pos, 7
  {
    if Check(toks, pos, EOF) then Parsed(acc, pos)
    else
      var s :- StatementAt(toks, pos);
      ProgramLoop(toks, acc + [s.node], SkipNewlines(toks, s.next))
  }

  /** The tokens that close a block. */
  predicate EndsBlock(k: TokenType) {
    k == END || k == ELIF || k == ELSE || k == EOF
  }

  /** Statements up to (not including) `end`, `elif`, `else` or EOF. */
  function BlockAt(toks: seq<Token>, pos: nat): (r: Parsed<seq<Stmt>>)
    requires Terminated(toks) && pos < |toks|
    ensures r.Parsed? ==> pos <= r.next < |toks|
    decreases |toks| - pos, 8
  {
    BlockLoop(toks, [], SkipNewlines(toks, pos))
  }

  function BlockLoop(toks: seq<Token>, acc: seq<Stmt>, pos: nat): (r: Parsed<seq<Stmt>>)
    requires Terminated(toks) && pos < |toks|
    ensures r.Parsed? ==> pos <= r.next < |toks|
    decreases |toks| - pos, 7
  {
    if EndsBlock(toks[pos].kind) then Parsed(acc, pos)
    else
      var s :- StatementAt(toks, pos);
      BlockLoop(toks, acc + [s.node], SkipNewlines(toks, s.next))
  }

  // ------------------------------------------------------------------
  // Statements
  // ------------------------------------------------------------------

  /** One statement, chosen by its first token. */
  function StatementAt(toks: seq<Token>, pos: nat): (r: Parsed<Stmt>)
    requires Terminated(toks) && pos < |toks|
    ensures r.Parsed? ==> pos < r.next < |toks|
    decreases |toks| - pos, 6
  {
    match toks[pos].kind
    case LET => LetAt(toks, pos)
    case IF => IfAt(toks, pos)
    case WHILE => WhileAt(toks, pos)
    case FN => FnAt(toks, pos)
    case RETURN => ReturnAt(toks, pos)
    case _ => ExprStatementAt(toks, pos)
  }

  /** `let name = value` or, with a `[` after the name, `let name[index] = value`. */
  function LetAt(toks: seq<Token>, pos: nat): (r: Parsed<Stmt>)
    requires Terminated(toks) && pos < |toks|
    ensures r.Parsed? ==> pos < r.next < |toks|
    decreases |toks| - pos, 5
  {
    var letTok :- Consume(toks, pos, LET, "Expected 'let'");
    var name :- Consume(toks, letTok.next, IDENTIFIER, "Expected variable name after 'let'");
    AssignmentAt(toks, letTok.node, name.node, name.next)
  }

  /** What follows `let name`: `= value`, or `[index] = value` for an index assignment. */
  function AssignmentAt(toks: seq<Token>, letTok: Token, name: Token, pos: nat): (r: Parsed<Stmt>)
    requires Terminated(toks) && pos < |toks|
    ensures r.Parsed? ==> pos < r.next < |toks|
    decreases |toks| - pos, 6
  {
    if Check(toks, pos, LBRACKET) then IndexAssignmentAt(toks, letTok, name, pos)
    else
      var value :- AssignedValueAt(toks, pos, "Expected '=' after variable name");
      Parsed(LetStatement(letTok.line, letTok.column, name.lexeme, value.node), value.next)
  }

  /** `[index] = value` after `let name`: an assignment into the variable's list. */
  function IndexAssignmentAt(toks: seq<Token>, letTok: Token, name: Token, pos: nat): (r: Parsed<Stmt>)
    requires Terminated(toks) && pos < |toks| && toks[pos].kind == LBRACKET
    ensures r.Parsed? ==> pos < r.next < |toks|
    decreases |toks| - pos, 5
  {
    var index :- SubscriptAt(toks, pos);
    var value :- AssignedValueAt(toks, index.next, "Expected '=' in assignment");
    var target := Identifier(name.line, name.column, name.lexeme);
    Parsed(IndexAssignment(letTok.line, letTok.column, target, index.node, value.node), value.next)
  }

  /** `= value` and the end of the statement. */
  function AssignedValueAt(toks: seq<Token>, pos: nat, message: string): (r: Parsed<Expr>)
    requires Terminated(toks) && pos < |toks|
    ensures r.Parsed? ==> pos < r.next < |toks|
    decreases |toks| - pos, 5
  {
    var eq :- Consume(toks, pos, EQUAL, message);
    var value :- ExprAt(toks, eq.next, PREC_NONE);
    var nl :- ExpectNewline(toks, value.next);
    Parsed(value.node, nl.next)
  }

  /** `if c do ... (elif c do ...)* (else do ...)? end`. */
  function IfAt(toks: seq<Token>, pos: nat): (r: Parsed<Stmt>)
    requires Terminated(toks) && pos < |toks|
    ensures r.Parsed? ==> pos < r.next < |toks|
    decreases |toks| - pos, 5
  {
    var ifTok :- Consume(toks, pos, IF, "Expected 'if'");
    var cond :- ExprAt(toks, ifTok.next, PREC_NONE);
    var thenBody :- DoBlockAt(toks, cond.next, "Expected 'do' after if condition");
    var elifs :- ElifsAt(toks, [], thenBody.next);
    var elseBody :- ElseAt(toks, elifs.next);
    var e :- EndAt(toks, elseBody.next, "Expected 'end' to close if block");
    Parsed(IfStatement(ifTok.node.line, ifTok.node.column, cond.node, thenBody.node,
                       elifs.node, elseBody.node), e.next)
  }

  /** `do`, the end of its line, and the block that follows. */
  function DoBlockAt(toks: seq<Token>, pos: nat, message: string): (r: Parsed<seq<Stmt>>)
    requires Terminated(toks) && pos < |toks|
    ensures r.Parsed? ==> pos < r.next < |toks|
    decreases |toks| - pos, 0
  {
    var d :- Consume(toks, pos, DO, message);
    var nl :- ExpectNewline(toks, d.next);
    BlockAt(toks, nl.next)
  }

  /** `do ... end` of a while loop or a function: `doMessage` and `endMessage` report a missing keyword. */
  function BodyAt(toks: seq<Token>, pos: nat, doMessage: string, endMessage: string): (r: Parsed<seq<Stmt>>)
    requires Terminated(toks) && pos < |toks|
    ensures r.Parsed? ==> pos < r.next < |toks|
    decreases |toks| - pos, 1
  {
    var body :- DoBlockAt(toks, pos, doMessage);
    var e :- EndAt(toks, body.next, endMessage);
    Parsed(body.node, e.next)
  }

  /** `end` and the end of its line. */
  function EndAt(toks: seq<Token>, pos: nat, message: string): (r: Parsed<()>)
    requires Terminated(toks) && pos < |toks|
    ensures r.Parsed? ==> pos < r.next < |toks|
  {
    var e :- Consume(toks, pos, END, message);
    ExpectNewline(toks, e.next)
  }

  /** The `elif` clauses of an if statement, appended to `acc` in order. */
  function ElifsAt(toks: seq<Token>, acc: seq<ElifClause>, pos: nat): (r: Parsed<seq<ElifClause>>)
    requires Terminated(toks) && pos < |toks|
    ensures r.Parsed? ==> pos <= r.next < |toks|
    decreases |toks| - pos, 0
  {
    if !Check(toks, pos, ELIF) then Parsed(acc, pos)
    else
      var cond :- ExprAt(toks, pos + 1, PREC_NONE);
      var body :- DoBlockAt(toks, cond.next, "Expected 'do' after elif condition");
      ElifsAt(toks, acc + [ElifClause(cond.node, body.node)], body.next)
  }

  /** The optional `else do ...` part of an if statement. */
  function ElseAt(toks: seq<Token>, pos: nat): (r: Parsed<Option<seq<Stmt>>>)
    requires Terminated(toks) && pos < |toks|
    ensures r.Parsed? ==> pos <= r.next < |toks|
    decreases |toks| - pos, 0
  {
    if !Check(toks, pos, ELSE) then Parsed(None, pos)
    else
      var body :- DoBlockAt(toks, pos + 1, "Expected 'do' after else");
      Parsed(Some(body.node), body.next)
  }

  /** `while c do ... end`. */
  function WhileAt(toks: seq<Token>, pos: nat): (r: Parsed<Stmt>)
    requires Terminated(toks) && pos < |toks|
    ensures r.Parsed? ==> pos < r.next < |toks|
    decreases |toks| - pos, 5
  {
    var whileTok :- Consume(toks, pos, WHILE, "Expected 'while'");
    var cond :- ExprAt(toks, whileTok.next, PREC_NONE);
    var body :- BodyAt(toks, cond.next, "Expected 'do' after while condition",
                       "Expected 'end' to close while block");
    Parsed(WhileStatement(whileTok.node.line, whileTok.node.column, cond.node, body.node), body.next)
  }

  /** `fn name(p1, p2, ...) do ... end`. */
  function FnAt(toks: seq<Token>, pos: nat): (r: Parsed<Stmt>)
    requires Terminated(toks) && pos < |toks|
    ensures r.Parsed? ==> pos < r.next < |toks|
    decreases |toks| - pos, 5
  {
    var fnTok :- Consume(toks, pos, FN, "Expected 'fn'");
    var name :- Consume(toks, fnTok.next, IDENTIFIER, "Expected function name after 'fn'");
    var params :- ParamsAt(toks, name.next);
    var body :- BodyAt(toks, params.next, "Expected 'do' after function signature",
                       "Expected 'end' to close function body");
    Parsed(FunctionDef(fnTok.node.line, fnTok.node.column, name.node.lexeme, params.node, body.node),
           body.next)
  }

  /** `(p1, p2, ...)`: the parenthesised parameter names of a function signature. */
  function ParamsAt(toks: seq<Token>, pos: nat): (r: Parsed<seq<string>>)
    requires Terminated(toks) && pos < |toks|
    ensures r.Parsed? ==> pos < r.next < |toks|
  {
    var lp :- Consume(toks, pos, LPAREN, "Expected '(' after function name");
    var params :- ParamNamesAt(toks, lp.next);
    var rp :- Consume(toks, params.next, RPAREN, "Expected ')' after parameters");
    Parsed(params.node, rp.next)
  }

  /** Comma-separated parameter names, none when the token at `pos` is `)`. */
  function ParamNamesAt(toks: seq<Token>, pos: nat): (r: Parsed<seq<string>>)
    requires Terminated(toks) && pos < |toks|
    ensures r.Parsed? ==> pos <= r.next < |toks|
  {
    if Check(toks, pos, RPAREN) then Parsed([], pos)
    else
      var first :- Consume(toks, pos, IDENTIFIER, "Expected parameter name");
      MoreParams(toks, [first.node.lexeme], first.next)
  }

  function MoreParams(toks: seq<Token>, acc: seq<string>, pos: nat): (r: Parsed<seq<string>>)
    requires Terminated(toks) && pos < |toks|
    ensures r.Parsed? ==> pos <= r.next < |toks|
    decreases |toks| - pos
  {
    if !Check(toks, pos, COMMA) then Parsed(acc, pos)
    else
      var p :- Consume(toks, pos + 1, IDENTIFIER, "Expected parameter name");
      MoreParams(toks, acc + [p.node.lexeme], p.next)
  }

  /** `return`, with a value unless the line (or the input) ends right after it. */
  function ReturnAt(toks: seq<Token>, pos: nat): (r: Parsed<Stmt>)
    requires Terminated(toks) && pos < |toks|
    ensures r.Parsed? ==> pos < r.next < |toks|
    decreases |toks| - pos, 5
  {
    var retTok :- Consume(toks, pos, RETURN, "Expected 'return'");
    var value :- ReturnValueAt(toks, retTok.next);
    var nl :- ExpectNewline(toks, value.next);
    Parsed(ReturnStatement(retTok.node.line, retTok.node.column, value.node), nl.next)
  }

  /** The optional value of a return statement: none at the end of a line or of the input. */
  function ReturnValueAt(toks: seq<Token>, pos: nat): (r: Parsed<Option<Expr>>)
    requires Terminated(toks) && pos < |toks|
    ensures r.Parsed? ==> pos <= r.next < |toks|
    decreases |toks| - pos, 5
  {
    if Check(toks, pos, NEWLINE) || Check(toks, pos, EOF) then Parsed(None, pos)
    else
      var e :- ExprAt(toks, pos, PREC_NONE);
      Parsed(Some(e.node), e.next)
  }

  /** An expression on its own line, placed where the expression starts. */
  function ExprStatementAt(toks: seq<Token>, pos: nat): (r: Parsed<Stmt>)
    requires Terminated(toks) && pos < |toks|
    ensures r.Parsed? ==> pos < r.next < |toks|
    decreases |toks| - pos, 5
  {
    var e :- ExprAt(toks, pos, PREC_NONE);
    var nl :- ExpectNewline(toks, e.next);
    Parsed(ExpressionStatement(e.node.line, e.node.column, e.node), nl.next)
  }

  // ------------------------------------------------------------------
  // Expressions
  // ------------------------------------------------------------------

  /**
   * An expression whose infix operators all bind tighter than `minPrec`:
   * parsing stops at the first token whose binding power is `minPrec` or less.
   */
  function ExprAt(toks: seq<Token>, pos: nat, minPrec: nat): (r: Parsed<Expr>)
    requires Terminated(toks) && pos < |toks|
    ensures r.Parsed? ==> pos < r.next < |toks|
    decreases |toks| - pos, 4
  {
    var left :- PrefixAt(toks, pos);
    InfixLoop(toks, left.node, left.next, minPrec)
  }

  /** The Pratt loop: extends `left` with infix operators while they bind tighter than `minPrec`. */
  function InfixLoop(toks: seq<Token>, left: Expr, pos: nat, minPrec: nat): (r: Parsed<Expr>)
    requires Terminated(toks) && pos < |toks|
    ensures r.Parsed? ==> pos <= r.next < |toks|
    decreases |toks| - pos, 3
  {
    var prec := InfixPrecedence(toks[pos].kind);
    if prec <= minPrec then Parsed(left, pos)
    else
      var e :- InfixAt(toks, left, pos, prec);
      InfixLoop(toks, e.node, e.next, minPrec)
  }

  /** The tokens an expression can start with. */
  predicate StartsExpression(k: TokenType) {
    k in {NUMBER, STRING, TRUE, FALSE, NIL, IDENTIFIER, LPAREN, LBRACKET, MINUS, NOT}
  }

  /** A literal, identifier, grouping, list literal or unary operation. */
  function PrefixAt(toks: seq<Token>, pos: nat): (r: Parsed<Expr>)
    requires Terminated(toks) && pos < |toks|
    ensures r.Parsed? ==> pos < r.next < |toks|
    decreases |toks| - pos, 2
  {
    var tok := toks[pos];
    match tok.kind
    case NUMBER =>
      assert LiteralFits(toks[pos]);
      Parsed(NumberLiteral(tok.line, tok.column, tok.literal.n), pos + 1)
    case STRING =>
      assert LiteralFits(toks[pos]);
      Parsed(StringLiteral(tok.line, tok.column, tok.literal.s), pos + 1)
    case TRUE => Parsed(BoolLiteral(tok.line, tok.column, true), pos + 1)
    case FALSE => Parsed(BoolLiteral(tok.line, tok.column, false), pos + 1)
    case NIL => Parsed(NilLiteral(tok.line, tok.column), pos + 1)
    case IDENTIFIER => Parsed(Identifier(tok.line, tok.column, tok.lexeme), pos + 1)
    case LPAREN => GroupAt(toks, pos)
    case LBRACKET => ListLiteralAt(toks, pos)
    case MINUS => UnaryAt(toks, pos, "-", PREC_UNARY)
    case NOT => UnaryAt(toks, pos, "not", PREC_NOT)
    case _ =>
      Failed(SyntaxError("Unexpected token '" + tok.lexeme + "'", tok.line, tok.column))
  }

  /** `( expression )`: the expression itself, without a node for the parentheses. */
  function GroupAt(toks: seq<Token>, pos: nat): (r: Parsed<Expr>)
    requires Terminated(toks) && pos < |toks| && toks[pos].kind != EOF
    ensures r.Parsed? ==> pos < r.next < |toks|
    decreases |toks| - pos, 1
  {
    var e :- ExprAt(toks, pos + 1, PREC_NONE);
    var rp :- Consume(toks, e.next, RPAREN, "Expected ')' after expression");
    Parsed(e.node, rp.next)
  }

  /** A prefix operator applied to an operand that binds at least as tightly as `prec`. */
  function UnaryAt(toks: seq<Token>, pos: nat, operator: string, prec: nat): (r: Parsed<Expr>)
    requires Terminated(toks) && pos < |toks| && toks[pos].kind != EOF
    ensures r.Parsed? ==> pos < r.next < |toks|
    decreases |toks| - pos, 1
  {
    var tok := toks[pos];
    var operand :- ExprAt(toks, pos + 1, prec);
    Parsed(UnaryOp(tok.line, tok.column, operator, operand.node), operand.next)
  }

  /**
   * The infix construct at `pos` applied to `left`: a call, an index, or a
   * binary operator whose right operand binds tighter than `prec` (so that
   * operators of equal power associate to the left).
   */
  function InfixAt(toks: seq<Token>, left: Expr, pos: nat, prec: nat): (r: Parsed<Expr>)
    requires Terminated(toks) && pos < |toks| && toks[pos].kind != EOF
    ensures r.Parsed? ==> pos < r.next < |toks|
    decreases |toks| - pos, 2
  {
    var tok := toks[pos];
    if tok.kind == LPAREN then
      var args :- ArgumentsAt(toks, pos);
      Parsed(FunctionCall(tok.line, tok.column, left, args.node), args.next)
    else if tok.kind == LBRACKET then
      var index :- SubscriptAt(toks, pos);
      Parsed(IndexAccess(tok.line, tok.column, left, index.node), index.next)
    else
      var right :- ExprAt(toks, pos + 1, prec);
      Parsed(BinaryOp(tok.line, tok.column, left, tok.lexeme, right.node), right.next)
  }

  /** `(a1, a2, ...)` after a callee: the arguments of a call. */
  function ArgumentsAt(toks: seq<Token>, pos: nat): (r: Parsed<seq<Expr>>)
    requires Terminated(toks) && pos < |toks| && toks[pos].kind == LPAREN
    ensures r.Parsed? ==> pos < r.next < |toks|
    decreases |toks| - pos, 1
  {
    var args :- ExprListAt(toks, pos + 1, RPAREN);
    var rp :- Consume(toks, args.next, RPAREN, "Expected ')' after arguments");
    Parsed(args.node, rp.next)
  }

  /** `[index]`: the index of an index access or of an index assignment. */
  function SubscriptAt(toks: seq<Token>, pos: nat): (r: Parsed<Expr>)
    requires Terminated(toks) && pos < |toks| && toks[pos].kind == LBRACKET
    ensures r.Parsed? ==> pos < r.next < |toks|
    decreases |toks| - pos, 1
  {
    var index :- ExprAt(toks, pos + 1, PREC_NONE);
    var rb :- Consume(toks, index.next, RBRACKET, "Expected ']' after index");
    Parsed(index.node, rb.next)
  }

  /** `[e1, e2, ...]`. */
  function ListLiteralAt(toks: seq<Token>, pos: nat): (r: Parsed<Expr>)
    requires Terminated(toks) && pos < |toks|
    ensures r.Parsed? ==> pos < r.next < |toks|
    decreases |toks| - pos, 1
  {
    var lb :- Consume(toks, pos, LBRACKET, "Expected '['");
    var elements :- ExprListAt(toks, lb.next, RBRACKET);
    var rb :- Consume(toks, elements.next, RBRACKET, "Expected ']' after list elements");
    Parsed(ListLiteral(lb.node.line, lb.node.column, elements.node), rb.next)
  }

  /**
   * Comma-separated expressions, none at all when the token at `pos` is the
   * `closer`; the closer itself is left for the caller.
   */
  function ExprListAt(toks: seq<Token>, pos: nat, closer: TokenType): (r: Parsed<seq<Expr>>)
    requires Terminated(toks) && pos < |toks|
    ensures r.Parsed? ==> pos <= r.next < |toks|
    decreases |toks| - pos, 5
  {
    if Check(toks, pos, closer) then Parsed([], pos)
    else
      var first :- ExprAt(toks, pos, PREC_NONE);
      MoreExprs(toks, [first.node], first.next)
  }

  function MoreExprs(toks: seq<Token>, acc: seq<Expr>, pos: nat): (r: Parsed<seq<Expr>>)
    requires Terminated(toks) && pos < |toks|
    ensures r.Parsed? ==> pos <= r.next < |toks|
    decreases |toks| - pos, 0
  {
    if !Check(toks, pos, COMMA) then Parsed(acc, pos)
    else
      var e :- ExprAt(toks, pos + 1, PREC_NONE);
      MoreExprs(toks, acc + [e.node], e.next)
  }

  /** The parser's entry point: a program, or the first syntax error. */
  function Parse(toks: seq<Token>): (r: Result<Program>)
    requires Terminated(toks)
  {
    match ProgramAt(toks)
    case Parsed(p, _) => Ok(p)
    case Failed(e) => Err(e)
  }
}
