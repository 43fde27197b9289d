/**
 * The syntax trees the parser builds (the Expr and Stmt classes that
 * Parser.java and RpdcFunction.java use; their own files are not part of
 * this model). Only the node kinds Parser.java constructs are here, plus the
 * function declaration that RpdcFunction.java runs.
 */
module Syntax {
  import opened Wrappers
  import opened Tokens

  datatype Expr =
    | Literal(lit: Lit)
    | Grouping(inner: Expr)
    | Unary(op: Token, right: Expr)
    | Binary(left: Expr, op: Token, right: Expr)
    | Logical(left: Expr, op: Token, right: Expr)
    | Variable(name: Token)
    | Assign(name: Token, value: Expr)

  /** A `Block` may hold Java `null`s: the slots of declarations that failed to parse. */
  datatype Stmt =
    | Expression(expr: Expr)
    | Print(expr: Expr)
    | Var(name: Token, initializer: Option<Expr>)
    | Block(statements: seq<Option<Stmt>>)
    | If(condition: Expr, thenBranch: Stmt, elseBranch: Option<Stmt>)
    | While(condition: Expr, body: Stmt)

  /** `Stmt.Function`: a declared function or method (the shown parser does
      not produce these; RpdcFunction and RpdcClass hold them). */
  datatype FunctionDecl = FunctionDecl(name: Token, params: seq<Token>, body: seq<Stmt>)
}
