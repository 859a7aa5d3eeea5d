/**
 * Properties of the Ember grammar: what the lexer hands over is what the
 * parser expects, how far each rule reads, which node each statement
 * form builds, how precedence and associativity shape expressions, and
 * which message reports a malformed construct.
 */
module GrammarFacts {
  import opened Util
  import opened Errors
  import opened Tokens
  import opened Ast
  import opened Scanning
  import opened ScanningFacts
  import opened Grammar

  // ---------------------------------------------------------------
  // From the lexer to the parser
  // ---------------------------------------------------------------

  /** Every successful tokenization is a token list the parser accepts as input. */
  lemma LexedIsTerminated(src: string)
    requires Lex(src).Ok?
    ensures Terminated(Lex(src).value)
  {
    var ts := Lex(src).value;
    LexShape(src);
    StreamIsTerminated(ts);
  }

  lemma StreamIsTerminated(ts: seq<Token>)
    requires LexedStream(ts)
    ensures Terminated(ts)
  {
    var raw := ts[..|ts| - 1];
    forall i | 0 <= i < |ts|
      ensures LiteralFits(ts[i])
    {
      if i < |ts| - 1 {
        assert ts[i] == raw[i];
        assert TokenOK(raw[i]);
      }
    }
  }

  // ---------------------------------------------------------------
  // Programs and blocks
  // ---------------------------------------------------------------

  /**
   * The program loop keeps the statements already parsed, in order, and
   * stops only at EOF.
   */
  lemma {:induction false} ProgramLoopShape(toks: seq<Token>, acc: seq<Stmt>, pos: nat)
    requires Terminated(toks) && pos < |toks|
    requires ProgramLoop(toks, acc, pos).Parsed?
    ensures var r := ProgramLoop(toks, acc, pos);
            |acc| <= |r.node| && r.node[..|acc|] == acc && toks[r.next].kind == EOF
    decreases |toks| - pos
  {
    if toks[pos].kind != EOF {
      var s := StatementAt(toks, pos);
      var acc' := acc + [s.node];
      ProgramLoopShape(toks, acc', SkipNewlines(toks, s.next));
      var r := ProgramLoop(toks, acc', SkipNewlines(toks, s.next));
      assert r.node[..|acc|] == r.node[..|acc'|][..|acc|];
    }
  }

  /** A parsed program is the root node at line 1, column 1, and reading stopped at EOF. */
  lemma ProgramShape(toks: seq<Token>)
    requires Terminated(toks) && ProgramAt(toks).Parsed?
    ensures ProgramAt(toks).node.line == 1 && ProgramAt(toks).node.column == 1
    ensures toks[ProgramAt(toks).next].kind == EOF
  {
    ProgramLoopShape(toks, [], SkipNewlines(toks, 0));
  }

  /** Input that is only blank lines and EOF is the empty program. */
  lemma EmptyProgram(toks: seq<Token>)
    requires Terminated(toks)
    requires forall i :: 0 <= i < |toks| - 1 ==> toks[i].kind == NEWLINE
    ensures Parse(toks) == Ok(Program(1, 1, []))
  {
    var p := SkipNewlines(toks, 0);
    assert toks[p].kind != NEWLINE;
    assert p == |toks| - 1;
  }

  /**
   * A block keeps the statements already parsed, in order, and stops only
   * at `end`, `elif`, `else` or EOF, which it leaves in place.
   */
  lemma {:induction false} BlockLoopShape(toks: seq<Token>, acc: seq<Stmt>, pos: nat)
    requires Terminated(toks) && pos < |toks|
    requires BlockLoop(toks, acc, pos).Parsed?
    ensures var r := BlockLoop(toks, acc, pos);
            |acc| <= |r.node| && r.node[..|acc|] == acc && EndsBlock(toks[r.next].kind)
    decreases |toks| - pos
  {
    if !EndsBlock(toks[pos].kind) {
      var s := StatementAt(toks, pos);
      var acc' := acc + [s.node];
      BlockLoopShape(toks, acc', SkipNewlines(toks, s.next));
      var r := BlockLoop(toks, acc', SkipNewlines(toks, s.next));
      assert r.node[..|acc|] == r.node[..|acc'|][..|acc|];
    }
  }

  lemma BlockStopsAtCloser(toks: seq<Token>, pos: nat)
    requires Terminated(toks) && pos < |toks| && BlockAt(toks, pos).Parsed?
    ensures EndsBlock(toks[BlockAt(toks, pos).next].kind)
  {
    BlockLoopShape(toks, [], SkipNewlines(toks, pos));
  }

  /** A block whose first token (after blank lines) closes it is empty. */
  lemma EmptyBlock(toks: seq<Token>, pos: nat)
    requires Terminated(toks) && pos < |toks|
    requires EndsBlock(toks[SkipNewlines(toks, pos)].kind)
    ensures BlockAt(toks, pos) == Parsed([], SkipNewlines(toks, pos))
  {
  }

  // ---------------------------------------------------------------
  // Statements
  // ---------------------------------------------------------------

  /** `let name = value` builds a LetStatement at the `let` token, named after the identifier. */
  lemma {:induction false} LetShape(toks: seq<Token>, pos: nat)
    requires Terminated(toks) && pos + 2 < |toks|
    requires toks[pos].kind == LET && toks[pos + 1].kind == IDENTIFIER && toks[pos + 2].kind != LBRACKET
    requires StatementAt(toks, pos).Parsed?
    ensures var s := StatementAt(toks, pos).node;
            s.LetStatement? && s.name == toks[pos + 1].lexeme
            && s.line == toks[pos].line && s.column == toks[pos].column
  {
    assert StatementAt(toks, pos) == LetAt(toks, pos);
    assert LetAt(toks, pos) == AssignmentAt(toks, toks[pos], toks[pos + 1], pos + 2);
  }

  /**
   * `let name[index] = value` builds an IndexAssignment at the `let` token
   * whose target is the identifier `name` at the name's own position.
   */
  lemma {:induction false} IndexAssignmentShape(toks: seq<Token>, pos: nat)
    requires Terminated(toks) && pos + 2 < |toks|
    requires toks[pos].kind == LET && toks[pos + 1].kind == IDENTIFIER && toks[pos + 2].kind == LBRACKET
    requires StatementAt(toks, pos).Parsed?
    ensures var s := StatementAt(toks, pos).node;
            var name := toks[pos + 1];
            s.IndexAssignment? && s.obj == Identifier(name.line, name.column, name.lexeme)
            && s.line == toks[pos].line && s.column == toks[pos].column
  {
    assert StatementAt(toks, pos) == LetAt(toks, pos);
    assert LetAt(toks, pos) == AssignmentAt(toks, toks[pos], toks[pos + 1], pos + 2);
    assert AssignmentAt(toks, toks[pos], toks[pos + 1], pos + 2) == IndexAssignmentAt(toks, toks[pos], toks[pos + 1], pos + 2);
  }

  /** `return` at the end of a line (or of the input) returns no value. */
  lemma ReturnWithoutValue(toks: seq<Token>, pos: nat)
    requires Terminated(toks) && pos + 1 < |toks|
    requires toks[pos].kind == RETURN && (toks[pos + 1].kind == NEWLINE || toks[pos + 1].kind == EOF)
    ensures StatementAt(toks, pos)
         == Parsed(ReturnStatement(toks[pos].line, toks[pos].column, None),
                   if toks[pos + 1].kind == NEWLINE then pos + 2 else pos + 1)
  {
    assert StatementAt(toks, pos) == ReturnAt(toks, pos);
    assert ReturnValueAt(toks, pos + 1) == Parsed(None, pos + 1);
  }

  /** Any other token after `return` starts the returned expression, which must end the line. */
  lemma ReturnWithValue(toks: seq<Token>, pos: nat, e: Expr, q: nat)
    requires Terminated(toks) && pos + 1 < |toks|
    requires toks[pos].kind == RETURN && toks[pos + 1].kind != NEWLINE && toks[pos + 1].kind != EOF
    requires ExprAt(toks, pos + 1, PREC_NONE) == Parsed(e, q)
    requires toks[q].kind == NEWLINE || EndsBlock(toks[q].kind)
    ensures StatementAt(toks, pos)
         == Parsed(ReturnStatement(toks[pos].line, toks[pos].column, Some(e)),
                   if toks[q].kind == NEWLINE then q + 1 else q)
  {
    assert StatementAt(toks, pos) == ReturnAt(toks, pos);
    assert ReturnValueAt(toks, pos + 1) == Parsed(Some(e), q);
  }

  /** A statement that starts with no keyword is an expression statement placed at its expression. */
  lemma ExpressionStatementShape(toks: seq<Token>, pos: nat)
    requires Terminated(toks) && pos < |toks|
    requires toks[pos].kind !in {LET, IF, WHILE, FN, RETURN}
    requires StatementAt(toks, pos).Parsed?
    ensures var s := StatementAt(toks, pos).node;
            s.ExpressionStatement? && s.expression == ExprAt(toks, pos, PREC_NONE).node
            && s.line == s.expression.line && s.column == s.expression.column
  {
    assert StatementAt(toks, pos) == ExprStatementAt(toks, pos);
  }

  /** An expression statement followed by anything but a line end or a block closer is an error. */
  lemma MissingNewline(toks: seq<Token>, pos: nat, e: Expr, q: nat)
    requires Terminated(toks) && pos < |toks|
    requires ExprAt(toks, pos, PREC_NONE) == Parsed(e, q)
    requires toks[q].kind != NEWLINE && !EndsBlock(toks[q].kind)
    ensures ExprStatementAt(toks, pos)
         == Failed(SyntaxError("Expected newline after statement, got '" + toks[q].lexeme + "'",
                               toks[q].line, toks[q].column))
  {
  }

  /** A mismatched token is reported with the caller's message and the token found, where it stands. */
  lemma ConsumeMismatch(toks: seq<Token>, pos: nat, k: TokenType, message: string)
    requires Terminated(toks) && pos < |toks| && k != EOF && toks[pos].kind != k
    ensures Consume(toks, pos, k, message)
         == Failed(SyntaxError(message + ", got '" + toks[pos].lexeme + "'", toks[pos].line, toks[pos].column))
  {
  }

  /** A missing `do` is reported with the caller's message at the token found instead. */
  lemma MissingDo(toks: seq<Token>, pos: nat, doMessage: string, endMessage: string)
    requires Terminated(toks) && pos < |toks| && toks[pos].kind != DO
    ensures var err := SyntaxError(doMessage + ", got '" + toks[pos].lexeme + "'", toks[pos].line, toks[pos].column);
            DoBlockAt(toks, pos, doMessage) == Failed(err) && BodyAt(toks, pos, doMessage, endMessage) == Failed(err)
  {
    ConsumeMismatch(toks, pos, DO, doMessage);
  }

  /** A while statement fails with its body's error when the body after the condition fails. */
  lemma {:induction false} WhileBodyError(toks: seq<Token>, pos: nat, cond: Expr, q: nat)
    requires Terminated(toks) && pos + 1 < |toks| && toks[pos].kind == WHILE
    requires ExprAt(toks, pos + 1, PREC_NONE) == Parsed(cond, q)
    requires BodyAt(toks, q, "Expected 'do' after while condition", "Expected 'end' to close while block").Failed?
    ensures WhileAt(toks, pos)
         == Failed(BodyAt(toks, q, "Expected 'do' after while condition", "Expected 'end' to close while block").error)
  {
  }

  /** An if statement fails with its first block's error when the block after the condition fails. */
  lemma {:induction false} IfBlockError(toks: seq<Token>, pos: nat, cond: Expr, q: nat)
    requires Terminated(toks) && pos + 1 < |toks| && toks[pos].kind == IF
    requires ExprAt(toks, pos + 1, PREC_NONE) == Parsed(cond, q)
    requires DoBlockAt(toks, q, "Expected 'do' after if condition").Failed?
    ensures IfAt(toks, pos) == Failed(DoBlockAt(toks, q, "Expected 'do' after if condition").error)
  {
  }

  /**
   * A while or function body that is not closed by `end` reports the
   * caller's message for the missing `end`, at the token found instead.
   */
  lemma BodyMissingEnd(toks: seq<Token>, pos: nat, doMessage: string, endMessage: string,
                       body: seq<Stmt>, q: nat)
    requires Terminated(toks) && pos < |toks|
    requires DoBlockAt(toks, pos, doMessage) == Parsed(body, q) && toks[q].kind != END
    ensures BodyAt(toks, pos, doMessage, endMessage)
         == Failed(SyntaxError(endMessage + ", got '" + toks[q].lexeme + "'", toks[q].line, toks[q].column))
  {
    ConsumeMismatch(toks, q, END, endMessage);
  }

  // ---------------------------------------------------------------
  // The Pratt loop, one step at a time
  // ---------------------------------------------------------------

  /** Tokens that are a whole operand on their own: literals and identifiers. */
  predicate IsAtom(k: TokenType) {
    k == NUMBER || k == STRING || k == TRUE || k == FALSE || k == NIL || k == IDENTIFIER
  }

  /** Binary operators: an infix binding power below that of calls and indexes. */
  predicate IsBinaryOperator(k: TokenType) {
    PREC_NONE < InfixPrecedence(k) < PREC_CALL
  }

  /** An atom is read as one token. */
  lemma AtomPrefix(toks: seq<Token>, pos: nat)
    requires Terminated(toks) && pos < |toks| && IsAtom(toks[pos].kind)
    ensures PrefixAt(toks, pos).Parsed? && PrefixAt(toks, pos).next == pos + 1
    ensures PrefixAt(toks, pos).node.line == toks[pos].line && PrefixAt(toks, pos).node.column == toks[pos].column
  {
    assert LiteralFits(toks[pos]);
  }

  /** An expression is its prefix part extended by the infix loop. */
  lemma ExprFromPrefix(toks: seq<Token>, pos: nat, minPrec: nat)
    requires Terminated(toks) && pos < |toks| && PrefixAt(toks, pos).Parsed?
    ensures ExprAt(toks, pos, minPrec) == InfixLoop(toks, PrefixAt(toks, pos).node, PrefixAt(toks, pos).next, minPrec)
  {
  }

  /** The loop stops, leaving the operator in place, once it binds no tighter than `minPrec`. */
  lemma InfixStops(toks: seq<Token>, left: Expr, pos: nat, minPrec: nat)
    requires Terminated(toks) && pos < |toks| && InfixPrecedence(toks[pos].kind) <= minPrec
    ensures InfixLoop(toks, left, pos, minPrec) == Parsed(left, pos)
  {
  }

  /**
   * A binary operator that binds tighter than `minPrec` takes `left` as
   * its left operand and, as its right operand, an expression parsed at
   * the operator's own precedence; the loop then goes on from there.
   */
  lemma InfixContinues(toks: seq<Token>, left: Expr, pos: nat, minPrec: nat, right: Expr, q: nat)
    requires Terminated(toks) && pos + 1 < |toks| && IsBinaryOperator(toks[pos].kind)
    requires minPrec < InfixPrecedence(toks[pos].kind)
    requires ExprAt(toks, pos + 1, InfixPrecedence(toks[pos].kind)) == Parsed(right, q)
    ensures InfixLoop(toks, left, pos, minPrec)
         == InfixLoop(toks, BinaryOp(toks[pos].line, toks[pos].column, left, toks[pos].lexeme, right), q, minPrec)
  {
    assert toks[pos].kind != LPAREN && toks[pos].kind != LBRACKET;
  }

  /** An atom followed by a token that binds no tighter than `minPrec` is a whole expression. */
  lemma AtomExpr(toks: seq<Token>, pos: nat, minPrec: nat)
    requires Terminated(toks) && pos + 1 < |toks| && IsAtom(toks[pos].kind)
    requires InfixPrecedence(toks[pos + 1].kind) <= minPrec
    ensures ExprAt(toks, pos, minPrec) == Parsed(PrefixAt(toks, pos).node, pos + 1)
  {
    AtomPrefix(toks, pos);
    ExprFromPrefix(toks, pos, minPrec);
    InfixStops(toks, PrefixAt(toks, pos).node, pos + 1, minPrec);
  }

  /** The expression parser never reads past a token that binds no tighter than `minPrec`. */
  lemma {:induction false} InfixLoopStop(toks: seq<Token>, left: Expr, pos: nat, minPrec: nat)
    requires Terminated(toks) && pos < |toks| && InfixLoop(toks, left, pos, minPrec).Parsed?
    ensures InfixPrecedence(toks[InfixLoop(toks, left, pos, minPrec).next].kind) <= minPrec
    decreases |toks| - pos
  {
    var prec := InfixPrecedence(toks[pos].kind);
    if prec > minPrec {
      var e := InfixAt(toks, left, pos, prec);
      InfixLoopStop(toks, e.node, e.next, minPrec);
    }
  }

  lemma ExprStop(toks: seq<Token>, pos: nat, minPrec: nat)
    requires Terminated(toks) && pos < |toks| && ExprAt(toks, pos, minPrec).Parsed?
    ensures InfixPrecedence(toks[ExprAt(toks, pos, minPrec).next].kind) <= minPrec
  {
    var left := PrefixAt(toks, pos);
    InfixLoopStop(toks, left.node, left.next, minPrec);
  }

  // ---------------------------------------------------------------
  // Precedence and associativity
  // ---------------------------------------------------------------

  /** The binary node `op` builds from two operands, placed at the operator token. */
  function Bin(op: Token, left: Expr, right: Expr): (e: Expr)
    ensures e.BinaryOp? && e.operator == op.lexeme && e.left == left && e.right == right
    ensures e.line == op.line && e.column == op.column
  {
    BinaryOp(op.line, op.column, left, op.lexeme, right)
  }

  /** `a op1 b op2 c`: the shape of the operand/operator pattern the grouping lemmas read. */
  predicate TwoOperators(toks: seq<Token>) {
    && Terminated(toks) && |toks| > 5
    && IsAtom(toks[0].kind) && IsAtom(toks[2].kind) && IsAtom(toks[4].kind)
    && IsBinaryOperator(toks[1].kind) && IsBinaryOperator(toks[3].kind)
    && InfixPrecedence(toks[5].kind) == PREC_NONE
  }

  /**
   * `a op1 b op2 c` groups to the right exactly when `op2` binds tighter
   * than `op1`: `1 + 2 * 3` is `1 + (2 * 3)`.
   */
  lemma {:induction false} TighterOperatorGroupsRight(toks: seq<Token>)
    requires TwoOperators(toks)
    requires InfixPrecedence(toks[3].kind) > InfixPrecedence(toks[1].kind)
    ensures ExprAt(toks, 0, PREC_NONE)
         == Parsed(Bin(toks[1], PrefixAt(toks, 0).node, Bin(toks[3], PrefixAt(toks, 2).node, PrefixAt(toks, 4).node)), 5)
  {
    var p1 := InfixPrecedence(toks[1].kind);
    var p2 := InfixPrecedence(toks[3].kind);
    var a, b, c := PrefixAt(toks, 0).node, PrefixAt(toks, 2).node, PrefixAt(toks, 4).node;
    // the right operand of op1: `b op2 c`, stopped by the token after c
    AtomExpr(toks, 4, p2);
    AtomPrefix(toks, 2);
    ExprFromPrefix(toks, 2, p1);
    InfixContinues(toks, b, 3, p1, c, 5);
    InfixStops(toks, Bin(toks[3], b, c), 5, p1);
    // the whole expression
    AtomPrefix(toks, 0);
    ExprFromPrefix(toks, 0, PREC_NONE);
    InfixContinues(toks, a, 1, PREC_NONE, Bin(toks[3], b, c), 5);
    InfixStops(toks, Bin(toks[1], a, Bin(toks[3], b, c)), 5, PREC_NONE);
  }

  /**
   * `a op1 b op2 c` groups to the left when `op2` binds no tighter than
   * `op1`: operators of equal precedence associate to the left, and
   * `a and b or c` is `(a and b) or c`.
   */
  lemma {:induction false} LooserOperatorGroupsLeft(toks: seq<Token>)
    requires TwoOperators(toks)
    requires InfixPrecedence(toks[3].kind) <= InfixPrecedence(toks[1].kind)
    ensures ExprAt(toks, 0, PREC_NONE)
         == Parsed(Bin(toks[3], Bin(toks[1], PrefixAt(toks, 0).node, PrefixAt(toks, 2).node), PrefixAt(toks, 4).node), 5)
  {
    var p1 := InfixPrecedence(toks[1].kind);
    var p2 := InfixPrecedence(toks[3].kind);
    var a, b, c := PrefixAt(toks, 0).node, PrefixAt(toks, 2).node, PrefixAt(toks, 4).node;
    // the right operand of op1 is b alone: op2 does not bind tighter than op1
    AtomExpr(toks, 2, p1);
    AtomExpr(toks, 4, p2);
    AtomPrefix(toks, 0);
    ExprFromPrefix(toks, 0, PREC_NONE);
    InfixContinues(toks, a, 1, PREC_NONE, b, 3);
    InfixContinues(toks, Bin(toks[1], a, b), 3, PREC_NONE, c, 5);
    InfixStops(toks, Bin(toks[3], Bin(toks[1], a, b), c), 5, PREC_NONE);
  }

  // ---------------------------------------------------------------
  // Prefix operators
  // ---------------------------------------------------------------

  /** `- a op b`: unary minus binds tighter than every binary operator. */
  lemma {:induction false} MinusBindsTighter(toks: seq<Token>)
    requires Terminated(toks) && |toks| > 4 && toks[0].kind == MINUS
    requires IsAtom(toks[1].kind) && IsBinaryOperator(toks[2].kind) && IsAtom(toks[3].kind)
    requires InfixPrecedence(toks[4].kind) == PREC_NONE
    ensures ExprAt(toks, 0, PREC_NONE)
         == Parsed(Bin(toks[2], UnaryOp(toks[0].line, toks[0].column, "-", PrefixAt(toks, 1).node), PrefixAt(toks, 3).node), 4)
  {
    var a, b := PrefixAt(toks, 1).node, PrefixAt(toks, 3).node;
    var neg := UnaryOp(toks[0].line, toks[0].column, "-", a);
    AtomExpr(toks, 1, PREC_UNARY);
    assert UnaryAt(toks, 0, "-", PREC_UNARY) == Parsed(neg, 2);
    assert PrefixAt(toks, 0) == Parsed(neg, 2);
    ExprFromPrefix(toks, 0, PREC_NONE);
    AtomExpr(toks, 3, InfixPrecedence(toks[2].kind));
    InfixContinues(toks, neg, 2, PREC_NONE, b, 4);
    InfixStops(toks, Bin(toks[2], neg, b), 4, PREC_NONE);
  }

  /** `not a op b` with an equality, comparison or arithmetic operator negates the whole `a op b`. */
  lemma {:induction false} NotTakesComparison(toks: seq<Token>)
    requires Terminated(toks) && |toks| > 4 && toks[0].kind == NOT
    requires IsAtom(toks[1].kind) && IsBinaryOperator(toks[2].kind) && IsAtom(toks[3].kind)
    requires InfixPrecedence(toks[2].kind) > PREC_NOT && InfixPrecedence(toks[4].kind) == PREC_NONE
    ensures ExprAt(toks, 0, PREC_NONE)
         == Parsed(UnaryOp(toks[0].line, toks[0].column, "not", Bin(toks[2], PrefixAt(toks, 1).node, PrefixAt(toks, 3).node)), 4)
  {
    var e := Bin(toks[2], PrefixAt(toks, 1).node, PrefixAt(toks, 3).node);
    NotOperand(toks);
    var n := UnaryOp(toks[0].line, toks[0].column, "not", e);
    assert UnaryAt(toks, 0, "not", PREC_NOT) == Parsed(n, 4);
    assert PrefixAt(toks, 0) == Parsed(n, 4);
    ExprFromPrefix(toks, 0, PREC_NONE);
    InfixStops(toks, n, 4, PREC_NONE);
  }

  /** The operand of `not` in `not a op b` extends over `a op b` when `op` binds tighter than `not`. */
  lemma {:induction false} NotOperand(toks: seq<Token>)
    requires Terminated(toks) && |toks| > 4
    requires IsAtom(toks[1].kind) && IsBinaryOperator(toks[2].kind) && IsAtom(toks[3].kind)
    requires InfixPrecedence(toks[2].kind) > PREC_NOT && InfixPrecedence(toks[4].kind) == PREC_NONE
    ensures ExprAt(toks, 1, PREC_NOT) == Parsed(Bin(toks[2], PrefixAt(toks, 1).node, PrefixAt(toks, 3).node), 4)
  {
    var a, b := PrefixAt(toks, 1).node, PrefixAt(toks, 3).node;
    AtomPrefix(toks, 1);
    ExprFromPrefix(toks, 1, PREC_NOT);
    AtomExpr(toks, 3, InfixPrecedence(toks[2].kind));
    InfixContinues(toks, a, 2, PREC_NOT, b, 4);
    InfixStops(toks, Bin(toks[2], a, b), 4, PREC_NOT);
  }

  /** `not a and b` and `not a or b` negate `a` alone. */
  lemma {:induction false} NotInsideLogic(toks: seq<Token>)
    requires Terminated(toks) && |toks| > 4 && toks[0].kind == NOT
    requires IsAtom(toks[1].kind) && (toks[2].kind == AND || toks[2].kind == OR) && IsAtom(toks[3].kind)
    requires InfixPrecedence(toks[4].kind) == PREC_NONE
    ensures ExprAt(toks, 0, PREC_NONE)
         == Parsed(Bin(toks[2], UnaryOp(toks[0].line, toks[0].column, "not", PrefixAt(toks, 1).node), PrefixAt(toks, 3).node), 4)
  {
    var a, b := PrefixAt(toks, 1).node, PrefixAt(toks, 3).node;
    var n := UnaryOp(toks[0].line, toks[0].column, "not", a);
    AtomExpr(toks, 1, PREC_NOT);
    assert UnaryAt(toks, 0, "not", PREC_NOT) == Parsed(n, 2);
    assert PrefixAt(toks, 0) == Parsed(n, 2);
    ExprFromPrefix(toks, 0, PREC_NONE);
    AtomExpr(toks, 3, InfixPrecedence(toks[2].kind));
    InfixContinues(toks, n, 2, PREC_NONE, b, 4);
    InfixStops(toks, Bin(toks[2], n, b), 4, PREC_NONE);
  }

  /** A token that cannot start an expression is reported as unexpected, where it stands. */
  lemma UnexpectedToken(toks: seq<Token>, pos: nat, minPrec: nat)
    requires Terminated(toks) && pos < |toks|
    requires !StartsExpression(toks[pos].kind)
    ensures ExprAt(toks, pos, minPrec)
         == Failed(SyntaxError("Unexpected token '" + toks[pos].lexeme + "'", toks[pos].line, toks[pos].column))
  {
  }

  // ---------------------------------------------------------------
  // Calls, indexes and lists
  // ---------------------------------------------------------------

  /** `f()` is a call of `f` with no arguments, placed at the `(`. */
  lemma EmptyCall(toks: seq<Token>)
    requires Terminated(toks) && |toks| > 3
    requires toks[0].kind == IDENTIFIER && toks[1].kind == LPAREN && toks[2].kind == RPAREN
    requires InfixPrecedence(toks[3].kind) == PREC_NONE
    ensures ExprAt(toks, 0, PREC_NONE)
         == Parsed(FunctionCall(toks[1].line, toks[1].column, Identifier(toks[0].line, toks[0].column, toks[0].lexeme), []), 3)
  {
    var f := Identifier(toks[0].line, toks[0].column, toks[0].lexeme);
    var call := FunctionCall(toks[1].line, toks[1].column, f, []);
    assert ArgumentsAt(toks, 1) == Parsed([], 3);
    assert InfixAt(toks, f, 1, PREC_CALL) == Parsed(call, 3);
    ExprFromPrefix(toks, 0, PREC_NONE);
    InfixStops(toks, call, 3, PREC_NONE);
  }

  /** `[a, ]`: a comma must be followed by an element, so a trailing comma is an error. */
  lemma {:induction false} TrailingCommaRejected(toks: seq<Token>)
    requires Terminated(toks) && |toks| > 3
    requires toks[0].kind == LBRACKET && IsAtom(toks[1].kind) && toks[2].kind == COMMA && toks[3].kind == RBRACKET
    ensures ExprAt(toks, 0, PREC_NONE)
         == Failed(SyntaxError("Unexpected token '" + toks[3].lexeme + "'", toks[3].line, toks[3].column))
  {
    var err := SyntaxError("Unexpected token '" + toks[3].lexeme + "'", toks[3].line, toks[3].column);
    AtomExpr(toks, 1, PREC_NONE);
    UnexpectedToken(toks, 3, PREC_NONE);
    assert MoreExprs(toks, [PrefixAt(toks, 1).node], 2) == Failed(err);
    assert ExprListAt(toks, 1, RBRACKET) == Failed(err);
    assert ListLiteralAt(toks, 0) == Failed(err);
  }
}
