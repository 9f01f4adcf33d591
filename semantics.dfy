/**
 * What `src/interpreter.ts` and `src/lox-function.ts` compute, as
 * functions. The interpreter's environments reduce to the maps of two
 * roots: `environment` starts as a root of its own (`MainScope`), blocks
 * only chain new environments onto the current one, and a function call
 * chains its environment onto `globals` (`GlobalScope`). A `fuel` bound is
 * spent on every `while` iteration and on every call; running out of it is
 * the only way the model stops a run the source would go on with.
 */
module Semantics {

  import opened Results
  import opened Tokens
  import opened Expressions
  import opened Statements
  import opened Values
  import opened Environments

  /** Which root the interpreter's current environment chains to. */
  datatype Scope = MainScope | GlobalScope

  /** The maps of the two roots, and everything written to the console so far. */
  datatype State = State(main: map<string, Value>, globals: map<string, Value>, out: seq<Output>)

  /** A completion together with the state it leaves. */
  datatype Ran<+T> = Ran(result: Completion<T>, state: State)

  /** The map that `define` and `get` use in scope `sc`. */
  function Bindings(st: State, sc: Scope): map<string, Value> {
    if sc == MainScope then st.main else st.globals
  }

  /** `environment.define(name, v)` in scope `sc`. */
  function Bind(st: State, sc: Scope, name: string, v: Value): (r: State)
    ensures Bindings(r, sc) == Bindings(st, sc)[name := v]
    ensures r.out == st.out && (sc == GlobalScope ==> r.main == st.main)
    ensures sc == MainScope ==> r.globals == st.globals
  {
    if sc == MainScope then st.(main := st.main[name := v]) else st.(globals := st.globals[name := v])
  }

  /** A `get` result as a completion: the value, or the thrown error. */
  function Fetched(r: Result<Value, Exception>): Completion<Value> {
    if r.Success? then Normal(r.value) else Thrown(r.error)
  }

  /** The statement-level result: a normal completion becomes `null`, an abrupt one passes. */
  function Discard(r: Ran<Value>): (d: Ran<Value>)
    ensures d.state == r.state && (d.result.Normal? <==> r.result.Normal?)
  {
    if r.result.Normal? then Ran(Normal(Null), r.state) else r
  }

  /** A state reached from `st` by running code in scope `sc`: the console only grows, and code in `GlobalScope` leaves the main map alone. */
  predicate Follows(st: State, sc: Scope, after: State) {
    st.out <= after.out && (sc == GlobalScope ==> after.main == st.main)
  }

  /* ---------- expressions ---------- */

  /** `evaluate`: `accept` dispatches each node to its `visit*` method. */
  function Eval(e: Expr, sc: Scope, st: State, fuel: nat): (r: Ran<Value>)
    ensures Follows(st, sc, r.state)
    decreases fuel, e, 1
  {
    match e
    case Literal(lit) => Ran(Normal(LiteralValue(lit)), st)
    case Grouping(inner) => Eval(inner, sc, st, fuel)
    case Variable(name) => Ran(Fetched(Lookup(Bindings(st, sc), name.lexeme)), st)
    case Unary(op, right) => EvalUnary(op, right, sc, st, fuel)
    case Binary(left, op, right) => EvalBinary(left, op, right, sc, st, fuel)
    case Logical(left, op, right) => EvalLogical(left, op, right, sc, st, fuel)
    case Assignment(name, value) => EvalAssignment(name, value, sc, st, fuel)
    case Call(callee, args) => EvalCall(callee, args, sc, st, fuel)
    case Absent => Ran(Thrown(JsTypeError(UndefinedNode)), st)
  }

  /** `visitUnary`. */
  function EvalUnary(op: Token, right: Expr, sc: Scope, st: State, fuel: nat): (r: Ran<Value>)
    ensures Follows(st, sc, r.state)
    decreases fuel, Expr.Unary(op, right), 0
  {
    var v := Eval(right, sc, st, fuel);
    if !v.result.Normal? then v else Ran(UnaryValue(op.kind, v.result.value), v.state)
  }

  /** `visitBinary`: the left operand, then the right one, then the operator. */
  function EvalBinary(left: Expr, op: Token, right: Expr, sc: Scope, st: State, fuel: nat): (r: Ran<Value>)
    ensures Follows(st, sc, r.state)
    decreases fuel, Binary(left, op, right), 0
  {
    var l := Eval(left, sc, st, fuel);
    if !l.result.Normal? then l
    else
      var r := Eval(right, sc, l.state, fuel);
      if !r.result.Normal? then r else Ran(BinaryValue(op.kind, l.result.value, r.result.value), r.state)
  }

  /** The two tests of `visitLogicalOperator`: an `OR` token stops at a truthy left value, any other token at a falsy one. */
  predicate ShortCircuits(op: Token, left: Value) {
    if op.kind == Or then Truthy(left) else !Truthy(left)
  }

  /** `visitLogicalOperator`: the right operand only when the left one does not decide. */
  function EvalLogical(left: Expr, op: Token, right: Expr, sc: Scope, st: State, fuel: nat): (r: Ran<Value>)
    ensures Follows(st, sc, r.state)
    decreases fuel, Logical(left, op, right), 0
  {
    var l := Eval(left, sc, st, fuel);
    if !l.result.Normal? || ShortCircuits(op, l.result.value) then l
    else Eval(right, sc, l.state, fuel)
  }

  /** `visitAssignmenExpression`: the value, then a call of the missing `assign`. */
  function EvalAssignment(name: Token, value: Expr, sc: Scope, st: State, fuel: nat): (r: Ran<Value>)
    ensures Follows(st, sc, r.state)
    decreases fuel, Expr.Assignment(name, value), 0
  {
    var v := Eval(value, sc, st, fuel);
    if !v.result.Normal? then v else Ran(Thrown(JsTypeError(AssignIsNotAFunction)), v.state)
  }

  /** `visitCallExpression`: the callee, the arguments in order, then `callee.call`. */
  function EvalCall(callee: Expr, args: seq<Expr>, sc: Scope, st: State, fuel: nat): (r: Ran<Value>)
    ensures Follows(st, sc, r.state)
    decreases fuel, Call(callee, args), 0
  {
    var c := Eval(callee, sc, st, fuel);
    if !c.result.Normal? then c
    else
      var a := EvalArgs(args, 0, [], sc, c.state, fuel);
      if !a.result.Normal? then Ran(a.result.Abrupt(), a.state)
      else if !c.result.value.Fn? then Ran(Thrown(JsTypeError(NotCallable(c.result.value))), a.state)
      else if fuel == 0 then Ran(OutOfFuel, a.state)
      else Invoke(c.result.value.declaration, a.result.value, a.state, fuel - 1)
  }

  /** The argument loop of `visitCallExpression` from argument `i`, with `done` evaluated so far. */
  function EvalArgs(args: seq<Expr>, i: nat, done: seq<Value>, sc: Scope, st: State, fuel: nat): (r: Ran<seq<Value>>)
    requires i <= |args|
    ensures Follows(st, sc, r.state)
    ensures r.result.Normal? ==> |r.result.value| == |done| + |args| - i && done <= r.result.value
    decreases fuel, args, 0, |args| - i
  {
    if i == |args| then Ran(Normal(done), st)
    else
      var v := Eval(args[i], sc, st, fuel);
      if !v.result.Normal? then Ran(v.result.Abrupt(), v.state)
      else EvalArgs(args, i + 1, done + [v.result.value], sc, v.state, fuel)
  }

  /* ---------- functions ---------- */

  /** `arity`. */
  function Arity(f: FunctionDeclaration): nat {
    |f.parameters|
  }

  /** What `call` binds parameter `i` to: the argument, or `undefined` when there is none. */
  function Argument(args: seq<Value>, i: nat): Value {
    if i < |args| then args[i] else Undefined
  }

  /** The parameter loop of `call` from parameter `i`: each `define` goes to the root, `globals`. */
  function BindParameters(m: map<string, Value>, params: seq<Token>, args: seq<Value>, i: nat): map<string, Value>
    requires i <= |params|
    decreases |params| - i
  {
    if i == |params| then m
    else BindParameters(m[params[i].lexeme := Argument(args, i)], params, args, i + 1)
  }

  /** `executions[executions.length - 1]`: `undefined` for an empty body. */
  function Last(results: seq<Value>): Value {
    if results == [] then Undefined else results[|results| - 1]
  }

  /**
   * `LoxFunction.call`: parameters bound in `globals`, the body run as a
   * block of an environment enclosing `globals`, and the last result.
   */
  function Invoke(f: FunctionDeclaration, args: seq<Value>, st: State, fuel: nat): (r: Ran<Value>)
    ensures Follows(st, GlobalScope, r.state)
    decreases fuel, f, 0
  {
    var entered := st.(globals := BindParameters(st.globals, f.parameters, args, 0));
    var body := ExecAll(f.body, 0, [], GlobalScope, entered, fuel);
    if !body.result.Normal? then Ran(body.result.Abrupt(), body.state)
    else Ran(Normal(Last(body.result.value)), body.state)
  }

  /* ---------- statements ---------- */

  /** `execute`: `accept` dispatches each statement to its `visit*` method. */
  function Exec(s: Stmt, sc: Scope, st: State, fuel: nat): (r: Ran<Value>)
    ensures Follows(st, sc, r.state)
    decreases fuel, s, 2
  {
    match s
    case PrintStatement(e) => ExecPrint(e, sc, st, fuel)
    case ExpressionStatement(e) => Discard(Eval(e, sc, st, fuel))
    case VariableDeclarationStatement(name, init) => ExecVariable(name, init, sc, st, fuel)
    case BlockStatement(ss) => ExecBlock(ss, sc, st, fuel)
    case ConditionStatement(c, thenBranch, elseBranch) => ExecCondition(c, thenBranch, elseBranch, sc, st, fuel)
    case WhileStatement(c, body) => ExecWhile(c, body, sc, st, fuel)
    case FunctionStatement(f) => Ran(Normal(Null), Bind(st, sc, f.name.lexeme, Fn(f)))
    case ReturnStatement(value) => if value.None? then Ran(Normal(Null), st) else Eval(value.value, sc, st, fuel)
  }

  /** `visitPrintStatement`. */
  function ExecPrint(e: Expr, sc: Scope, st: State, fuel: nat): (r: Ran<Value>)
    ensures Follows(st, sc, r.state)
    decreases fuel, PrintStatement(e), 0
  {
    var v := Eval(e, sc, st, fuel);
    if !v.result.Normal? then v
    else Ran(Normal(Null), v.state.(out := v.state.out + [Printed(v.result.value)]))
  }

  /** `visitVariableStatement`. */
  function ExecVariable(name: Token, init: Expr, sc: Scope, st: State, fuel: nat): (r: Ran<Value>)
    ensures Follows(st, sc, r.state)
    decreases fuel, VariableDeclarationStatement(name, init), 0
  {
    var v := Eval(init, sc, st, fuel);
    if !v.result.Normal? then v else Ran(Normal(Null), Bind(v.state, sc, name.lexeme, v.result.value))
  }

  /** `visitBlockStatement`: the statements run in an environment enclosing the current one, so in the same scope. */
  function ExecBlock(ss: seq<Stmt>, sc: Scope, st: State, fuel: nat): (r: Ran<Value>)
    ensures Follows(st, sc, r.state)
    decreases fuel, BlockStatement(ss), 0
  {
    var results := ExecAll(ss, 0, [], sc, st, fuel);
    if !results.result.Normal? then Ran(results.result.Abrupt(), results.state) else Ran(Normal(Null), results.state)
  }

  /** `visitConditionStatement`; an absent `else` is `undefined`, which passes `!== null`. */
  function ExecCondition(c: Expr, thenBranch: Stmt, elseBranch: Option<Stmt>, sc: Scope, st: State, fuel: nat): (r: Ran<Value>)
    ensures Follows(st, sc, r.state)
    decreases fuel, ConditionStatement(c, thenBranch, elseBranch), 0
  {
    var cond := Eval(c, sc, st, fuel);
    if !cond.result.Normal? then cond
    else if Truthy(cond.result.value) then Discard(Exec(thenBranch, sc, cond.state, fuel))
    else if elseBranch.None? then Ran(Thrown(JsTypeError(UndefinedNode)), cond.state)
    else Discard(Exec(elseBranch.value, sc, cond.state, fuel))
  }

  /**
   * One round of `visitWhileStatement`: the condition, then the body when
   * the condition is truthy. The result says whether the body ran.
   */
  function WhileRound(c: Expr, body: Stmt, sc: Scope, st: State, fuel: nat): (r: Ran<bool>)
    ensures Follows(st, sc, r.state)
    decreases fuel, WhileStatement(c, body), 0
  {
    var cond := Eval(c, sc, st, fuel);
    if !cond.result.Normal? then Ran(cond.result.Abrupt(), cond.state)
    else if !Truthy(cond.result.value) then Ran(Normal(false), cond.state)
    else
      var b := Exec(body, sc, cond.state, fuel);
      if !b.result.Normal? then Ran(b.result.Abrupt(), b.state) else Ran(Normal(true), b.state)
  }

  /** `visitWhileStatement`: rounds until the condition is falsy; each further round costs one unit of fuel. */
  function ExecWhile(c: Expr, body: Stmt, sc: Scope, st: State, fuel: nat): (r: Ran<Value>)
    ensures Follows(st, sc, r.state)
    decreases fuel, WhileStatement(c, body), 1
  {
    var round := WhileRound(c, body, sc, st, fuel);
    if !round.result.Normal? then Ran(round.result.Abrupt(), round.state)
    else if !round.result.value then Ran(Normal(Null), round.state)
    else if fuel == 0 then Ran(OutOfFuel, round.state)
    else ExecWhile(c, body, sc, round.state, fuel - 1)
  }

  /**
   * The `map` of `executeBlock` from statement `i`, with `done` holding the
   * results so far: one result per statement, in order, until one throws.
   */
  function ExecAll(ss: seq<Stmt>, i: nat, done: seq<Value>, sc: Scope, st: State, fuel: nat): (r: Ran<seq<Value>>)
    requires i <= |ss|
    ensures Follows(st, sc, r.state)
    ensures r.result.Normal? ==> |r.result.value| == |done| + |ss| - i && done <= r.result.value
    decreases fuel, ss, 0, |ss| - i
  {
    if i == |ss| then Ran(Normal(done), st)
    else
      var v := Exec(ss[i], sc, st, fuel);
      if !v.result.Normal? then Ran(v.result.Abrupt(), v.state)
      else ExecAll(ss, i + 1, done + [v.result.value], sc, v.state, fuel)
  }

  /* ---------- the top level ---------- */

  /** `interpret`: an exception is logged and swallowed, and the result is then `undefined`. */
  function Interpret(s: Stmt, sc: Scope, st: State, fuel: nat): (r: Ran<Value>)
    ensures !r.result.Thrown?
    ensures Follows(st, sc, r.state)
  {
    var x := Exec(s, sc, st, fuel);
    if x.result.Thrown? then Ran(Normal(Undefined), x.state.(out := x.state.out + [Logged(x.result.exception)]))
    else x
  }

  /** The `forEach` of `src/index.ts`: every statement interpreted in turn, from statement `i`. */
  function InterpretAll(ss: seq<Stmt>, i: nat, st: State, fuel: nat): (r: Ran<()>)
    requires i <= |ss|
    ensures !r.result.Thrown?
    ensures Follows(st, MainScope, r.state)
    decreases |ss| - i
  {
    if i == |ss| then Ran(Normal(()), st)
    else
      var x := Interpret(ss[i], MainScope, st, fuel);
      if !x.result.Normal? then Ran(x.result.Abrupt(), x.state)
      else InterpretAll(ss, i + 1, x.state, fuel)
  }

  /** Both roots start empty, and so does the console. */
  const Initial: State := State(map[], map[], [])
}
