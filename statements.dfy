/**
 * The statement nodes of `src/statement.ts`, plus those the interpreter
 * uses but that file does not define (`WhileStatement`, `FunctionStatement`
 * and `ReturnStatement`). Each `accept` only hands the node to one `visit*`
 * method of the interpreter; that dispatch is the `match` in
 * `Interpreting.Interpreter.Execute`.
 */
module Statements {

  import opened Results
  import opened Tokens
  import opened Expressions

  datatype Stmt =
    | PrintStatement(expression: Expr)
    | ExpressionStatement(expression: Expr)
    /** The name is the token `consume` returned; the initialiser is mandatory. */
    | VariableDeclarationStatement(name: Token, initializer: Expr)
    | BlockStatement(statements: seq<Stmt>)
    /**
     * `ConditionStatetement`: the branch taken on a truthy condition is the
     * field the source calls `elseIfBranch`; `None` is an else-branch left
     * `undefined`.
     */
    | ConditionStatement(condition: Expr, elseIfBranch: Stmt, elseBranch: Option<Stmt>)
    | WhileStatement(condition: Expr, body: Stmt)
    | FunctionStatement(declaration: FunctionDeclaration)
    /** `None` is a `null` value: the statement then yields null without evaluating anything. */
    | ReturnStatement(value: Option<Expr>)

  /** The name, parameters and body of a `FunctionStatement`. */
  datatype FunctionDeclaration = FunctionDeclaration(name: Token, parameters: seq<Token>, body: seq<Stmt>)
}
