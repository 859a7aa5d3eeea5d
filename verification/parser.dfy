/**
 * The parser object: a cursor over a token list, with one method per
 * grammar rule.  Each method is proved to do exactly what the matching
 * rule of Grammar says: on success it returns the rule's node and leaves
 * the cursor at the rule's next position, on failure it returns the rule's
 * syntax error.
 */
module Parser {
  import opened Util
  import opened Errors
  import opened Tokens
  import opened Ast
  import opened Grammar

  /** A method's result and final position agree with a grammar rule's outcome. */
  predicate Agrees<T(==)>(r: Result<T>, pos: nat, p: Parsed<T>) {
    if p.Parsed? then r == Ok(p.node) && pos == p.next else r == Err(p.error)
  }

  class Parser {
    var tokens: seq<Token>
    var pos: nat

    constructor()
      ensures tokens == [] && pos == 0
    {
      tokens := [];
      pos := 0;
    }

    /** The cursor is on a token of a terminated token list. */
    predicate Valid()
      reads this
    {
      Terminated(tokens) && pos < |tokens|
    }

    /** Parses a whole token list: its statements, or the first syntax error. */
    method Parse(toks: seq<Token>) returns (r: Result<Program>)
      requires Terminated(toks)
      modifies this
      ensures Valid() && tokens == toks
      ensures r == Grammar.Parse(toks)
    {
      tokens := toks;
      pos := 0;
      SkipNewlines();
      var statements: seq<Stmt> := [];
      while !Check(EOF)
        invariant Valid() && tokens == toks
        invariant ProgramLoop(tokens, statements, pos) == ProgramLoop(tokens, [], Grammar.SkipNewlines(toks, 0))
        decreases |tokens| - pos
      {
        var stmt := ParseStatement();
        if stmt.Err? {
          return Err(stmt.error);
        }
        statements := statements + [stmt.value];
        SkipNewlines();
      }
      return Ok(Program(1, 1, statements));
    }

    // ------------------------------------------------------------------
    // Statements
    // ------------------------------------------------------------------

    method ParseStatement() returns (r: Result<Stmt>)
      requires Valid()
      modifies this
      ensures Valid() && tokens == old(tokens)
      ensures Agrees(r, pos, StatementAt(tokens, old(pos)))
      decreases |tokens| - pos, 6
    {
      match Current().kind
      case LET => r := ParseLet();
      case IF => r := ParseIf();
      case WHILE => r := ParseWhile();
      case FN => r := ParseFn();
      case RETURN => r := ParseReturn();
      case _ => r := ParseExpressionStatement();
    }

    method ParseLet() returns (r: Result<Stmt>)
      requires Valid()
      modifies this
      ensures Valid() && tokens == old(tokens)
      ensures Agrees(r, pos, LetAt(tokens, old(pos)))
      decreases |tokens| - pos, 5
    {
      var letTok := Consume(LET, "Expected 'let'");
      if letTok.Err? {
        return Err(letTok.error);
      }
      var nameTok := Consume(IDENTIFIER, "Expected variable name after 'let'");
      if nameTok.Err? {
        return Err(nameTok.error);
      }
      r := ParseAssignment(letTok.value, nameTok.value);
    }

    /** What follows `let name`: a plain or an index assignment. */
    method ParseAssignment(letTok: Token, nameTok: Token) returns (r: Result<Stmt>)
      requires Valid()
      modifies this
      ensures Valid() && tokens == old(tokens)
      ensures Agrees(r, pos, AssignmentAt(tokens, letTok, nameTok, old(pos)))
      decreases |tokens| - pos, 6
    {
      if Check(LBRACKET) {
        r := ParseIndexAssignment(letTok, nameTok);
        return;
      }
      var value := ParseAssignedValue("Expected '=' after variable name");
      if value.Err? {
        return Err(value.error);
      }
      return Ok(LetStatement(letTok.line, letTok.column, nameTok.lexeme, value.value));
    }

    /** `[index] = value` after `let name`. */
    method ParseIndexAssignment(letTok: Token, nameTok: Token) returns (r: Result<Stmt>)
      requires Valid() && tokens[pos].kind == LBRACKET
      modifies this
      ensures Valid() && tokens == old(tokens)
      ensures Agrees(r, pos, IndexAssignmentAt(tokens, letTok, nameTok, old(pos)))
      decreases |tokens| - pos, 5
    {
      var index := ParseSubscript();
      if index.Err? {
        return Err(index.error);
      }
      var value := ParseAssignedValue("Expected '=' in assignment");
      if value.Err? {
        return Err(value.error);
      }
      var target := Identifier(nameTok.line, nameTok.column, nameTok.lexeme);
      return Ok(IndexAssignment(letTok.line, letTok.column, target, index.value, value.value));
    }

    /** `= value` closing a let statement, and the end of its line. */
    method ParseAssignedValue(message: string) returns (r: Result<Expr>)
      requires Valid()
      modifies this
      ensures Valid() && tokens == old(tokens)
      ensures Agrees(r, pos, AssignedValueAt(tokens, old(pos), message))
      decreases |tokens| - pos, 5
    {
      var eq := Consume(EQUAL, message);
      if eq.Err? {
        return Err(eq.error);
      }
      var value := ParseExpression(PREC_NONE);
      if value.Err? {
        return Err(value.error);
      }
      var nl := ExpectNewline();
      if nl.Err? {
        return Err(nl.error);
      }
      return Ok(value.value);
    }

    method ParseIf() returns (r: Result<Stmt>)
      requires Valid()
      modifies this
      ensures Valid() && tokens == old(tokens)
      ensures Agrees(r, pos, IfAt(tokens, old(pos)))
      decreases |tokens| - pos, 5
    {
      var ifTok := Consume(IF, "Expected 'if'");
      if ifTok.Err? {
        return Err(ifTok.error);
      }
      var condition := ParseExpression(PREC_NONE);
      if condition.Err? {
        return Err(condition.error);
      }
      var thenBody := ParseDoBlock("Expected 'do' after if condition");
      if thenBody.Err? {
        return Err(thenBody.error);
      }
      var elifs := ParseElifs();
      if elifs.Err? {
        return Err(elifs.error);
      }
      var elseBody := ParseElse();
      if elseBody.Err? {
        return Err(elseBody.error);
      }
      var e := ParseEnd("Expected 'end' to close if block");
      if e.Err? {
        return Err(e.error);
      }
      return Ok(IfStatement(ifTok.value.line, ifTok.value.column, condition.value, thenBody.value,
                            elifs.value, elseBody.value));
    }

    /** The loop over `elif` clauses. */
    method ParseElifs() returns (r: Result<seq<ElifClause>>)
      requires Valid()
      modifies this
      ensures Valid() && tokens == old(tokens)
      ensures Agrees(r, pos, ElifsAt(tokens, [], old(pos)))
      decreases |tokens| - pos, 0
    {
      var clauses: seq<ElifClause> := [];
      while Check(ELIF)
        invariant Valid() && tokens == old(tokens) && old(pos) <= pos
        invariant ElifsAt(tokens, clauses, pos) == ElifsAt(tokens, [], old(pos))
        decreases |tokens| - pos
      {
        var _ := Advance();
        var condition := ParseExpression(PREC_NONE);
        if condition.Err? {
          return Err(condition.error);
        }
        var body := ParseDoBlock("Expected 'do' after elif condition");
        if body.Err? {
          return Err(body.error);
        }
        clauses := clauses + [ElifClause(condition.value, body.value)];
      }
      return Ok(clauses);
    }

    /** The optional `else do ...` part. */
    method ParseElse() returns (r: Result<Option<seq<Stmt>>>)
      requires Valid()
      modifies this
      ensures Valid() && tokens == old(tokens)
      ensures Agrees(r, pos, ElseAt(tokens, old(pos)))
      decreases |tokens| - pos, 0
    {
      if !Check(ELSE) {
        return Ok(None);
      }
      var _ := Advance();
      var body := ParseDoBlock("Expected 'do' after else");
      if body.Err? {
        return Err(body.error);
      }
      return Ok(Some(body.value));
    }

    method ParseWhile() returns (r: Result<Stmt>)
      requires Valid()
      modifies this
      ensures Valid() && tokens == old(tokens)
      ensures Agrees(r, pos, WhileAt(tokens, old(pos)))
      decreases |tokens| - pos, 5
    {
      var whileTok := Consume(WHILE, "Expected 'while'");
      if whileTok.Err? {
        return Err(whileTok.error);
      }
      var condition := ParseExpression(PREC_NONE);
      if condition.Err? {
        return Err(condition.error);
      }
      var body := ParseBody("Expected 'do' after while condition", "Expected 'end' to close while block");
      if body.Err? {
        return Err(body.error);
      }
      return Ok(WhileStatement(whileTok.value.line, whileTok.value.column, condition.value, body.value));
    }

    method ParseFn() returns (r: Result<Stmt>)
      requires Valid()
      modifies this
      ensures Valid() && tokens == old(tokens)
      ensures Agrees(r, pos, FnAt(tokens, old(pos)))
      decreases |tokens| - pos, 5
    {
      var fnTok := Consume(FN, "Expected 'fn'");
      if fnTok.Err? {
        return Err(fnTok.error);
      }
      var nameTok := Consume(IDENTIFIER, "Expected function name after 'fn'");
      if nameTok.Err? {
        return Err(nameTok.error);
      }
      var params := ParseParams();
      if params.Err? {
        return Err(params.error);
      }
      var body := ParseBody("Expected 'do' after function signature", "Expected 'end' to close function body");
      if body.Err? {
        return Err(body.error);
      }
      return Ok(FunctionDef(fnTok.value.line, fnTok.value.column, nameTok.value.lexeme, params.value, body.value));
    }

    /** `(p1, p2, ...)` of a function signature. */
    method ParseParams() returns (r: Result<seq<string>>)
      requires Valid()
      modifies this
      ensures Valid() && tokens == old(tokens)
      ensures Agrees(r, pos, ParamsAt(tokens, old(pos)))
    {
      var lp := Consume(LPAREN, "Expected '(' after function name");
      if lp.Err? {
        return Err(lp.error);
      }
      var params := ParseParamNames();
      if params.Err? {
        return Err(params.error);
      }
      var rp := Consume(RPAREN, "Expected ')' after parameters");
      if rp.Err? {
        return Err(rp.error);
      }
      return Ok(params.value);
    }

    method ParseParamNames() returns (r: Result<seq<string>>)
      requires Valid()
      modifies this
      ensures Valid() && tokens == old(tokens)
      ensures Agrees(r, pos, ParamNamesAt(tokens, old(pos)))
    {
      if Check(RPAREN) {
        return Ok([]);
      }
      var first := Consume(IDENTIFIER, "Expected parameter name");
      if first.Err? {
        return Err(first.error);
      }
      r := ParseMoreParams([first.value.lexeme]);
    }

    /** The loop over `, name` continuing a parameter list started by `acc`. */
    method ParseMoreParams(acc: seq<string>) returns (r: Result<seq<string>>)
      requires Valid()
      modifies this
      ensures Valid() && tokens == old(tokens)
      ensures Agrees(r, pos, MoreParams(tokens, acc, old(pos)))
    {
      var params := acc;
      while Check(COMMA)
        invariant Valid() && tokens == old(tokens)
        invariant MoreParams(tokens, params, pos) == MoreParams(tokens, acc, old(pos))
        decreases |tokens| - pos
      {
        var _ := Advance();
        var p := Consume(IDENTIFIER, "Expected parameter name");
        if p.Err? {
          return Err(p.error);
        }
        params := params + [p.value.lexeme];
      }
      return Ok(params);
    }

    method ParseReturn() returns (r: Result<Stmt>)
      requires Valid()
      modifies this
      ensures Valid() && tokens == old(tokens)
      ensures Agrees(r, pos, ReturnAt(tokens, old(pos)))
      decreases |tokens| - pos, 5
    {
      var retTok := Consume(RETURN, "Expected 'return'");
      if retTok.Err? {
        return Err(retTok.error);
      }
      var value := ParseReturnValue();
      if value.Err? {
        return Err(value.error);
      }
      var nl := ExpectNewline();
      if nl.Err? {
        return Err(nl.error);
      }
      return Ok(ReturnStatement(retTok.value.line, retTok.value.column, value.value));
    }

    method ParseReturnValue() returns (r: Result<Option<Expr>>)
      requires Valid()
      modifies this
      ensures Valid() && tokens == old(tokens)
      ensures Agrees(r, pos, ReturnValueAt(tokens, old(pos)))
      decreases |tokens| - pos, 5
    {
      if Check(NEWLINE) || Check(EOF) {
        return Ok(None);
      }
      var e := ParseExpression(PREC_NONE);
      if e.Err? {
        return Err(e.error);
      }
      return Ok(Some(e.value));
    }

    method ParseExpressionStatement() returns (r: Result<Stmt>)
      requires Valid()
      modifies this
      ensures Valid() && tokens == old(tokens)
      ensures Agrees(r, pos, ExprStatementAt(tokens, old(pos)))
      decreases |tokens| - pos, 5
    {
      var e := ParseExpression(PREC_NONE);
      if e.Err? {
        return Err(e.error);
      }
      var nl := ExpectNewline();
      if nl.Err? {
        return Err(nl.error);
      }
      return Ok(ExpressionStatement(e.value.line, e.value.column, e.value));
    }

    // ------------------------------------------------------------------
    // Blocks
    // ------------------------------------------------------------------

    /** Statements until `end`, `elif`, `else` or EOF. */
    method ParseBlock() returns (r: Result<seq<Stmt>>)
      requires Valid()
      modifies this
      ensures Valid() && tokens == old(tokens)
      ensures Agrees(r, pos, BlockAt(tokens, old(pos)))
      decreases |tokens| - pos, 8
    {
      SkipNewlines();
      var stmts: seq<Stmt> := [];
      while !EndsBlock(Current().kind)
        invariant Valid() && tokens == old(tokens) && old(pos) <= pos
        invariant BlockLoop(tokens, stmts, pos) == BlockAt(tokens, old(pos))
        decreases |tokens| - pos
      {
        var stmt := ParseStatement();
        if stmt.Err? {
          return Err(stmt.error);
        }
        stmts := stmts + [stmt.value];
        SkipNewlines();
      }
      return Ok(stmts);
    }

    /** `do`, the end of its line, and the block after it. */
    method ParseDoBlock(message: string) returns (r: Result<seq<Stmt>>)
      requires Valid()
      modifies this
      ensures Valid() && tokens == old(tokens)
      ensures Agrees(r, pos, DoBlockAt(tokens, old(pos), message))
      decreases |tokens| - pos, 0
    {
      var d := Consume(DO, message);
      if d.Err? {
        return Err(d.error);
      }
      var nl := ExpectNewline();
      if nl.Err? {
        return Err(nl.error);
      }
      r := ParseBlock();
    }

    /** `do ... end` of a while loop or a function. */
    method ParseBody(doMessage: string, endMessage: string) returns (r: Result<seq<Stmt>>)
      requires Valid()
      modifies this
      ensures Valid() && tokens == old(tokens)
      ensures Agrees(r, pos, BodyAt(tokens, old(pos), doMessage, endMessage))
      decreases |tokens| - pos, 1
    {
      var body := ParseDoBlock(doMessage);
      if body.Err? {
        return Err(body.error);
      }
      var e := ParseEnd(endMessage);
      if e.Err? {
        return Err(e.error);
      }
      return Ok(body.value);
    }

    /** `end` and the end of its line. */
    method ParseEnd(message: string) returns (r: Result<()>)
      requires Valid()
      modifies this
      ensures Valid() && tokens == old(tokens)
      ensures Agrees(r, pos, EndAt(tokens, old(pos), message))
    {
      var e := Consume(END, message);
      if e.Err? {
        return Err(e.error);
      }
      r := ExpectNewline();
    }

    // ------------------------------------------------------------------
    // Expressions
    // ------------------------------------------------------------------

    /** The Pratt loop: a prefix expression extended by infix operators binding tighter than `minPrec`. */
    method ParseExpression(minPrec: nat) returns (r: Result<Expr>)
      requires Valid()
      modifies this
      ensures Valid() && tokens == old(tokens)
      ensures Agrees(r, pos, ExprAt(tokens, old(pos), minPrec))
      decreases |tokens| - pos, 4
    {
      var prefix := ParsePrefix();
      if prefix.Err? {
        return Err(prefix.error);
      }
      var left := prefix.value;
      while true
        invariant Valid() && tokens == old(tokens) && old(pos) < pos
        invariant InfixLoop(tokens, left, pos, minPrec) == ExprAt(tokens, old(pos), minPrec)
        decreases |tokens| - pos
      {
        var prec := InfixPrecedence(Current().kind);
        if prec <= minPrec {
          break;
        }
        var e := ParseInfix(left, prec);
        if e.Err? {
          return Err(e.error);
        }
        left := e.value;
      }
      return Ok(left);
    }

    method ParsePrefix() returns (r: Result<Expr>)
      requires Valid()
      modifies this
      ensures Valid() && tokens == old(tokens)
      ensures Agrees(r, pos, PrefixAt(tokens, old(pos)))
      decreases |tokens| - pos, 2
    {
      var tok := Current();
      assert LiteralFits(tokens[pos]);
      match tok.kind
      case NUMBER =>
        var _ := Advance();
        r := Ok(NumberLiteral(tok.line, tok.column, tok.literal.n));
      case STRING =>
        var _ := Advance();
        r := Ok(StringLiteral(tok.line, tok.column, tok.literal.s));
      case TRUE =>
        var _ := Advance();
        r := Ok(BoolLiteral(tok.line, tok.column, true));
      case FALSE =>
        var _ := Advance();
        r := Ok(BoolLiteral(tok.line, tok.column, false));
      case NIL =>
        var _ := Advance();
        r := Ok(NilLiteral(tok.line, tok.column));
      case IDENTIFIER =>
        var _ := Advance();
        r := Ok(Identifier(tok.line, tok.column, tok.lexeme));
      case LPAREN =>
        r := ParseGroup();
      case LBRACKET =>
        r := ParseListLiteral();
      case MINUS =>
        r := ParseUnary("-", PREC_UNARY);
      case NOT =>
        r := ParseUnary("not", PREC_NOT);
      case _ =>
        r := Err(SyntaxError("Unexpected token '" + tok.lexeme + "'", tok.line, tok.column));
    }

    /** A parenthesized expression. */
    method ParseGroup() returns (r: Result<Expr>)
      requires Valid() && tokens[pos].kind != EOF
      modifies this
      ensures Valid() && tokens == old(tokens)
      ensures Agrees(r, pos, GroupAt(tokens, old(pos)))
      decreases |tokens| - pos, 1
    {
      var _ := Advance();
      var e := ParseExpression(PREC_NONE);
      if e.Err? {
        return Err(e.error);
      }
      var rp := Consume(RPAREN, "Expected ')' after expression");
      if rp.Err? {
        return Err(rp.error);
      }
      return Ok(e.value);
    }

    /** A prefix `-` or `not` and its operand. */
    method ParseUnary(operator: string, prec: nat) returns (r: Result<Expr>)
      requires Valid() && tokens[pos].kind != EOF
      modifies this
      ensures Valid() && tokens == old(tokens)
      ensures Agrees(r, pos, UnaryAt(tokens, old(pos), operator, prec))
      decreases |tokens| - pos, 1
    {
      var tok := Advance();
      var operand := ParseExpression(prec);
      if operand.Err? {
        return Err(operand.error);
      }
      return Ok(UnaryOp(tok.line, tok.column, operator, operand.value));
    }

    method ParseInfix(left: Expr, prec: nat) returns (r: Result<Expr>)
      requires Valid() && tokens[pos].kind != EOF
      modifies this
      ensures Valid() && tokens == old(tokens)
      ensures Agrees(r, pos, InfixAt(tokens, left, old(pos), prec))
      decreases |tokens| - pos, 2
    {
      var tok := Current();
      if tok.kind == LPAREN {
        var args := ParseArguments();
        if args.Err? {
          return Err(args.error);
        }
        return Ok(FunctionCall(tok.line, tok.column, left, args.value));
      }
      if tok.kind == LBRACKET {
        var index := ParseSubscript();
        if index.Err? {
          return Err(index.error);
        }
        return Ok(IndexAccess(tok.line, tok.column, left, index.value));
      }
      var _ := Advance();
      var right := ParseExpression(prec);
      if right.Err? {
        return Err(right.error);
      }
      return Ok(BinaryOp(tok.line, tok.column, left, tok.lexeme, right.value));
    }

    method ParseArguments() returns (r: Result<seq<Expr>>)
      requires Valid() && tokens[pos].kind == LPAREN
      modifies this
      ensures Valid() && tokens == old(tokens)
      ensures Agrees(r, pos, ArgumentsAt(tokens, old(pos)))
      decreases |tokens| - pos, 1
    {
      var _ := Advance();
      var args := ParseExprList(RPAREN);
      if args.Err? {
        return Err(args.error);
      }
      var rp := Consume(RPAREN, "Expected ')' after arguments");
      if rp.Err? {
        return Err(rp.error);
      }
      return Ok(args.value);
    }

    method ParseSubscript() returns (r: Result<Expr>)
      requires Valid() && tokens[pos].kind == LBRACKET
      modifies this
      ensures Valid() && tokens == old(tokens)
      ensures Agrees(r, pos, SubscriptAt(tokens, old(pos)))
      decreases |tokens| - pos, 1
    {
      var _ := Advance();
      var index := ParseExpression(PREC_NONE);
      if index.Err? {
        return Err(index.error);
      }
      var rb := Consume(RBRACKET, "Expected ']' after index");
      if rb.Err? {
        return Err(rb.error);
      }
      return Ok(index.value);
    }

    method ParseListLiteral() returns (r: Result<Expr>)
      requires Valid()
      modifies this
      ensures Valid() && tokens == old(tokens)
      ensures Agrees(r, pos, ListLiteralAt(tokens, old(pos)))
      decreases |tokens| - pos, 1
    {
      var lb := Consume(LBRACKET, "Expected '['");
      if lb.Err? {
        return Err(lb.error);
      }
      var elements := ParseExprList(RBRACKET);
      if elements.Err? {
        return Err(elements.error);
      }
      var rb := Consume(RBRACKET, "Expected ']' after list elements");
      if rb.Err? {
        return Err(rb.error);
      }
      return Ok(ListLiteral(lb.value.line, lb.value.column, elements.value));
    }

    /** Comma-separated expressions, none when the current token is `closer`. */
    method ParseExprList(closer: TokenType) returns (r: Result<seq<Expr>>)
      requires Valid()
      modifies this
      ensures Valid() && tokens == old(tokens)
      ensures Agrees(r, pos, ExprListAt(tokens, old(pos), closer))
      decreases |tokens| - pos, 5
    {
      if Check(closer) {
        return Ok([]);
      }
      var first := ParseExpression(PREC_NONE);
      if first.Err? {
        return Err(first.error);
      }
      r := ParseMoreExprs([first.value]);
    }

    /** The loop over `, expr` continuing a list started by `acc`. */
    method ParseMoreExprs(acc: seq<Expr>) returns (r: Result<seq<Expr>>)
      requires Valid()
      modifies this
      ensures Valid() && tokens == old(tokens)
      ensures Agrees(r, pos, MoreExprs(tokens, acc, old(pos)))
      decreases |tokens| - pos, 0
    {
      var exprs := acc;
      while Check(COMMA)
        invariant Valid() && tokens == old(tokens) && old(pos) <= pos
        invariant MoreExprs(tokens, exprs, pos) == MoreExprs(tokens, acc, old(pos))
        decreases |tokens| - pos
      {
        var _ := Advance();
        var e := ParseExpression(PREC_NONE);
        if e.Err? {
          return Err(e.error);
        }
        exprs := exprs + [e.value];
      }
      return Ok(exprs);
    }

    // ------------------------------------------------------------------
    // Token helpers
    // ------------------------------------------------------------------

    function Current(): (t: Token)
      requires Valid()
      reads this
      ensures t == tokens[pos]
    {
      tokens[pos]
    }

    predicate Check(k: TokenType)
      requires Valid()
      reads this
    {
      tokens[pos].kind == k
    }

    /** Returns the current token and moves past it, unless it is EOF. */
    method Advance() returns (t: Token)
      requires Valid()
      modifies this
      ensures Valid() && tokens == old(tokens)
      ensures t == tokens[old(pos)] && pos == Next(tokens, old(pos))
    {
      t := tokens[pos];
      if t.kind != EOF {
        pos := pos + 1;
      }
    }

    method Consume(k: TokenType, message: string) returns (r: Result<Token>)
      requires Valid() && k != EOF
      modifies this
      ensures Valid() && tokens == old(tokens)
      ensures Agrees(r, pos, Grammar.Consume(tokens, old(pos), k, message))
      ensures r.Err? ==> pos == old(pos)
    {
      var tok := Current();
      if tok.kind != k {
        return Err(SyntaxError(message + ", got '" + tok.lexeme + "'", tok.line, tok.column));
      }
      var t := Advance();
      return Ok(t);
    }

    method SkipNewlines()
      requires Valid()
      modifies this
      ensures Valid() && tokens == old(tokens)
      ensures pos == Grammar.SkipNewlines(tokens, old(pos))
    {
      while Check(NEWLINE)
        invariant Valid() && tokens == old(tokens) && old(pos) <= pos
        invariant Grammar.SkipNewlines(tokens, pos) == Grammar.SkipNewlines(tokens, old(pos))
        decreases |tokens| - pos
      {
        var _ := Advance();
      }
    }

    method ExpectNewline() returns (r: Result<()>)
      requires Valid()
      modifies this
      ensures Valid() && tokens == old(tokens)
      ensures Agrees(r, pos, Grammar.ExpectNewline(tokens, old(pos)))
    {
      if Check(EOF) {
        return Ok(());
      }
      if Check(NEWLINE) {
        var _ := Advance();
        return Ok(());
      }
      if Check(END) || Check(ELIF) || Check(ELSE) {
        return Ok(());
      }
      var tok := Current();
      return Err(SyntaxError("Expected newline after statement, got '" + tok.lexeme + "'", tok.line, tok.column));
    }
  }
}
