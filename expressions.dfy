/**
 * The expression nodes of `src/expression.ts`, plus the two that the
 * interpreter uses but that file does not define (`Assignment` and `Call`).
 * Each `accept` only hands the node to one `visit*` method of the
 * interpreter; that dispatch is the `match` in `Interpreting.Interpreter.Evaluate`.
 */
module Expressions {

  import opened Tokens

  datatype Expr =
    | Binary(left: Expr, operator: Token, right: Expr)
    | Unary(operator: Token, right: Expr)
    | Grouping(expression: Expr)
    /** A string, number, boolean or null (field `value` in the source). */
    | Literal(literal: Lit)
    /** `Variable` keeps only its name token (field `value` in the source). */
    | Variable(name: Token)
    | Logical(left: Expr, operator: Token, right: Expr)
    | Assignment(name: Token, value: Expr)
    | Call(callee: Expr, args: seq<Expr>)
    /**
     * JavaScript `undefined` where an expression is expected: the parser
     * leaves the condition and the increment of a `for` loop undefined when
     * the clause is missing.
     */
    | Absent
}
