/**
 * Ember's abstract syntax tree.  Every node, expression or statement,
 * carries the line and column it was parsed at.
 */
module Ast {
  import opened Util

  /** Expressions: nodes that produce a value. */
  datatype Expr =
    | NumberLiteral(line: int, column: int, number: real)
    | StringLiteral(line: int, column: int, text: string)
    | BoolLiteral(line: int, column: int, truth: bool)
    | NilLiteral(line: int, column: int)
    | ListLiteral(line: int, column: int, elements: seq<Expr>)
    | Identifier(line: int, column: int, name: string)
    | UnaryOp(line: int, column: int, operator: string, operand: Expr)
    | BinaryOp(line: int, column: int, left: Expr, operator: string, right: Expr)
    | FunctionCall(line: int, column: int, callee: Expr, arguments: seq<Expr>)
    | IndexAccess(line: int, column: int, obj: Expr, index: Expr)

  /** One `elif condition do body` clause. */
  datatype ElifClause = ElifClause(condition: Expr, body: seq<Stmt>)

  /** Statements: nodes that perform actions. */
  datatype Stmt =
    | LetStatement(line: int, column: int, name: string, value: Expr)
    | IndexAssignment(line: int, column: int, obj: Expr, index: Expr, value: Expr)
    | IfStatement(line: int, column: int, condition: Expr, thenBody: seq<Stmt>,
                  elifClauses: seq<ElifClause>, elseBody: Option<seq<Stmt>>)
    | WhileStatement(line: int, column: int, condition: Expr, body: seq<Stmt>)
    | FunctionDef(line: int, column: int, name: string, params: seq<string>, body: seq<Stmt>)
    | ReturnStatement(line: int, column: int, result: Option<Expr>)
    | ExpressionStatement(line: int, column: int, expression: Expr)

  /** The root: the statements of a whole source text, in order. */
  datatype Program = Program(line: int, column: int, statements: seq<Stmt>)
}
