/**
 * Expression and statement nodes (ast/Expr.go, ast/Stmt.go). The statement variants follow
 * the generator's node table; `Function` is the declaration a user function holds.
 */
module Ast {
  import opened Tokens

  datatype Expr =
    | Binary(left: Expr, operator: Token, right: Expr)
    | Grouping(expression: Expr)
    | Literal(value: Object)
    | Unary(operator: Token, right: Expr)

  datatype Function = Function(name: Token, params: seq<Token>, body: seq<Stmt>)

  datatype Stmt =
    | Block(statements: seq<Stmt>)
    | StmtExpression(expression: Expr)
    | FunctionStmt(decl: Function)
    | If(condition: Expr, thenBranch: Stmt, elseBranch: Option<Stmt>)
    | Print(expression: Expr)
    | Var(name: Token, initializer: Option<Expr>)
    | While(condition: Expr, body: Stmt)
}
