/**
 * `src/interpreter.ts` and `src/lox-function.ts`: the `Interpreter` class,
 * whose `environment` field is swapped around blocks and calls and whose
 * console is the `output` field. Each method is proved to compute what the
 * function of the same role in `Semantics` says, from the state of the two
 * root maps and the console.
 *
 * `LoxFunction.call` is `CallFunction` here: a `LoxFunction` keeps nothing
 * but its declaration, which the value `Fn` carries, and its `call` only
 * works through the interpreter it is handed.
 */
module Interpreting {

  import opened Results
  import opened Tokens
  import opened Expressions
  import opened Statements
  import opened Values
  import opened Environments
  import opened Semantics

  class Interpreter {
    var environment: Environment
    const globals: Environment
    /** The root `environment` starts as; every environment the interpreter enters chains to it or to `globals`. */
    ghost const main: Environment
    /** The console. */
    var output: seq<Output>

    ghost predicate Valid()
      reads this
    {
      && environment.Chained()
      && main.enclosing == null && globals.enclosing == null && main != globals
      && (environment.Root() == main || environment.Root() == globals)
    }

    /** The root the current environment chains to. */
    ghost function CurrentScope(): Scope
      reads this
      requires Valid()
    {
      if environment.Root() == main then MainScope else GlobalScope
    }

    /** The two root maps and the console. */
    ghost function CurrentState(): State
      reads this, main, globals
    {
      State(main.values, globals.values, output)
    }

    constructor ()
      ensures Valid() && CurrentScope() == MainScope && CurrentState() == Initial
      ensures fresh(main) && fresh(globals)
    {
      environment := new Environment(null);
      globals := new Environment(null);
      main := environment;
      output := [];
    }

    /** `interpret`: run one statement; an exception is logged and the result is then `undefined`. */
    method Interpret(s: Stmt, fuel: nat) returns (r: Completion<Value>)
      requires Valid()
      modifies this, main, globals
      ensures Valid() && environment == old(environment)
      ensures Ran(r, CurrentState()) == Semantics.Interpret(s, old(CurrentScope()), old(CurrentState()), fuel)
    {
      r := Execute(s, fuel);
      if r.Thrown? {
        output := output + [Logged(r.exception)];
        r := Normal(Undefined);
      }
    }

    /* ---------- expressions ---------- */

    /** `evaluate`, with the dispatch of each node's `accept`. */
    method Evaluate(e: Expr, fuel: nat) returns (r: Completion<Value>)
      requires Valid()
      modifies this, main, globals
      ensures Valid() && environment == old(environment)
      ensures Ran(r, CurrentState()) == Eval(e, old(CurrentScope()), old(CurrentState()), fuel)
      decreases fuel, e, 1
    {
      match e
      case Literal(lit) => r := Normal(LiteralValue(lit));
      case Grouping(inner) => r := Evaluate(inner, fuel);
      case Variable(name) => r := VisitVariable(name);
      case Unary(op, right) => r := VisitUnary(op, right, fuel);
      case Binary(left, op, right) => r := VisitBinary(left, op, right, fuel);
      case Logical(left, op, right) => r := VisitLogicalOperator(left, op, right, fuel);
      case Assignment(name, value) => r := VisitAssignment(name, value, fuel);
      case Call(callee, args) => r := VisitCall(callee, args, fuel);
      case Absent => r := Thrown(JsTypeError(UndefinedNode));  // `undefined.accept`
    }

    method VisitVariable(name: Token) returns (r: Completion<Value>)
      requires Valid()
      ensures r == Fetched(Lookup(Bindings(CurrentState(), CurrentScope()), name.lexeme))
    {
      var got := environment.Get(name.lexeme);
      r := Fetched(got);
    }

    method VisitUnary(op: Token, right: Expr, fuel: nat) returns (r: Completion<Value>)
      requires Valid()
      modifies this, main, globals
      ensures Valid() && environment == old(environment)
      ensures Ran(r, CurrentState()) == EvalUnary(op, right, old(CurrentScope()), old(CurrentState()), fuel)
      decreases fuel, Expr.Unary(op, right), 0
    {
      r := Evaluate(right, fuel);
      if r.Normal? {
        r := UnaryValue(op.kind, r.value);
      }
    }

    method VisitBinary(left: Expr, op: Token, right: Expr, fuel: nat) returns (r: Completion<Value>)
      requires Valid()
      modifies this, main, globals
      ensures Valid() && environment == old(environment)
      ensures Ran(r, CurrentState()) == EvalBinary(left, op, right, old(CurrentScope()), old(CurrentState()), fuel)
      decreases fuel, Binary(left, op, right), 0
    {
      var l := Evaluate(left, fuel);
      if !l.Normal? {
        return l;
      }
      var rv := Evaluate(right, fuel);
      if !rv.Normal? {
        return rv;
      }
      r := BinaryValue(op.kind, l.value, rv.value);
    }

    method VisitLogicalOperator(left: Expr, op: Token, right: Expr, fuel: nat) returns (r: Completion<Value>)
      requires Valid()
      modifies this, main, globals
      ensures Valid() && environment == old(environment)
      ensures Ran(r, CurrentState()) == EvalLogical(left, op, right, old(CurrentScope()), old(CurrentState()), fuel)
      decreases fuel, Logical(left, op, right), 0
    {
      r := Evaluate(left, fuel);
      if r.Normal? && !ShortCircuits(op, r.value) {
        r := Evaluate(right, fuel);
      }
    }

    method VisitAssignment(name: Token, value: Expr, fuel: nat) returns (r: Completion<Value>)
      requires Valid()
      modifies this, main, globals
      ensures Valid() && environment == old(environment)
      ensures Ran(r, CurrentState()) == EvalAssignment(name, value, old(CurrentScope()), old(CurrentState()), fuel)
      decreases fuel, Expr.Assignment(name, value), 0
    {
      r := Evaluate(value, fuel);
      if r.Normal? {
        r := Thrown(JsTypeError(AssignIsNotAFunction));
      }
    }

    method VisitCall(callee: Expr, args: seq<Expr>, fuel: nat) returns (r: Completion<Value>)
      requires Valid()
      modifies this, main, globals
      ensures Valid() && environment == old(environment)
      ensures Ran(r, CurrentState()) == EvalCall(callee, args, old(CurrentScope()), old(CurrentState()), fuel)
      decreases fuel, Call(callee, args), 0
    {
      var c := Evaluate(callee, fuel);
      if !c.Normal? {
        return c;
      }
      ghost var sc, before := old(CurrentScope()), CurrentState();
      var values: seq<Value> := [];
      for i := 0 to |args|
        invariant Valid() && environment == old(environment)
        invariant EvalArgs(args, 0, [], sc, before, fuel) == EvalArgs(args, i, values, sc, CurrentState(), fuel)
      {
        var v := Evaluate(args[i], fuel);
        if !v.Normal? {
          return v.Abrupt();
        }
        values := values + [v.value];
      }
      if !c.value.Fn? {
        return Thrown(JsTypeError(NotCallable(c.value)));  // `callee.call` is no function
      }
      if fuel == 0 {
        return OutOfFuel;
      }
      r := CallFunction(c.value.declaration, values, fuel - 1);
    }

    /* ---------- functions ---------- */

    /** `LoxFunction.call`: parameters defined in an environment enclosing `globals`, then the body as its block. */
    method CallFunction(f: FunctionDeclaration, args: seq<Value>, fuel: nat) returns (r: Completion<Value>)
      requires Valid()
      modifies this, main, globals
      ensures Valid() && environment == old(environment)
      ensures Ran(r, CurrentState()) == Invoke(f, args, old(CurrentState()), fuel)
      decreases fuel, f, 0
    {
      var scope := new Environment(globals);
      ghost var start := globals.values;
      for i := 0 to |f.parameters|
        invariant Valid() && environment == old(environment)
        invariant BindParameters(start, f.parameters, args, 0) == BindParameters(globals.values, f.parameters, args, i)
        invariant main.values == old(main.values) && output == old(output)
      {
        scope.Define(f.parameters[i].lexeme, Argument(args, i));
      }
      var executions := ExecuteBlock(f.body, scope, fuel);
      if !executions.Normal? {
        return executions.Abrupt();
      }
      r := Normal(Last(executions.value));
    }

    /* ---------- statements ---------- */

    /** `execute`, with the dispatch of each statement's `accept`. */
    method Execute(s: Stmt, fuel: nat) returns (r: Completion<Value>)
      requires Valid()
      modifies this, main, globals
      ensures Valid() && environment == old(environment)
      ensures Ran(r, CurrentState()) == Exec(s, old(CurrentScope()), old(CurrentState()), fuel)
      decreases fuel, s, 2
    {
      match s
      case PrintStatement(e) => r := VisitPrintStatement(e, fuel);
      case ExpressionStatement(e) => r := VisitExpressionStatement(e, fuel);
      case VariableDeclarationStatement(name, init) => r := VisitVariableStatement(name, init, fuel);
      case BlockStatement(ss) => r := VisitBlockStatement(ss, fuel);
      case ConditionStatement(c, thenBranch, elseBranch) => r := VisitConditionStatement(c, thenBranch, elseBranch, fuel);
      case WhileStatement(c, body) => r := VisitWhileStatement(c, body, fuel);
      case FunctionStatement(f) => r := VisitFunctionStatement(f);
      case ReturnStatement(value) => r := VisitReturnStatement(value, fuel);
    }

    method VisitPrintStatement(e: Expr, fuel: nat) returns (r: Completion<Value>)
      requires Valid()
      modifies this, main, globals
      ensures Valid() && environment == old(environment)
      ensures Ran(r, CurrentState()) == ExecPrint(e, old(CurrentScope()), old(CurrentState()), fuel)
      decreases fuel, PrintStatement(e), 0
    {
      var value := Evaluate(e, fuel);
      if !value.Normal? {
        return value;
      }
      output := output + [Printed(value.value)];
      return Normal(Null);
    }

    method VisitExpressionStatement(e: Expr, fuel: nat) returns (r: Completion<Value>)
      requires Valid()
      modifies this, main, globals
      ensures Valid() && environment == old(environment)
      ensures Ran(r, CurrentState()) == Discard(Eval(e, old(CurrentScope()), old(CurrentState()), fuel))
      decreases fuel, ExpressionStatement(e), 0
    {
      r := Evaluate(e, fuel);
      if r.Normal? {
        r := Normal(Null);
      }
    }

    method VisitVariableStatement(name: Token, init: Expr, fuel: nat) returns (r: Completion<Value>)
      requires Valid()
      modifies this, main, globals
      ensures Valid() && environment == old(environment)
      ensures Ran(r, CurrentState()) == ExecVariable(name, init, old(CurrentScope()), old(CurrentState()), fuel)
      decreases fuel, VariableDeclarationStatement(name, init), 0
    {
      var value := Evaluate(init, fuel);
      if !value.Normal? {
        return value;
      }
      environment.Define(name.lexeme, value.value);
      return Normal(Null);
    }

    method VisitBlockStatement(ss: seq<Stmt>, fuel: nat) returns (r: Completion<Value>)
      requires Valid()
      modifies this, main, globals
      ensures Valid() && environment == old(environment)
      ensures Ran(r, CurrentState()) == ExecBlock(ss, old(CurrentScope()), old(CurrentState()), fuel)
      decreases fuel, BlockStatement(ss), 0
    {
      var scope := new Environment(environment);
      var results := ExecuteBlock(ss, scope, fuel);
      if !results.Normal? {
        return results.Abrupt();
      }
      return Normal(Null);
    }

    method VisitConditionStatement(c: Expr, thenBranch: Stmt, elseBranch: Option<Stmt>, fuel: nat) returns (r: Completion<Value>)
      requires Valid()
      modifies this, main, globals
      ensures Valid() && environment == old(environment)
      ensures Ran(r, CurrentState()) == ExecCondition(c, thenBranch, elseBranch, old(CurrentScope()), old(CurrentState()), fuel)
      decreases fuel, ConditionStatement(c, thenBranch, elseBranch), 0
    {
      var cond := Evaluate(c, fuel);
      if !cond.Normal? {
        return cond;
      }
      var branch := if Truthy(cond.value) then Some(thenBranch) else elseBranch;
      if branch.None? {
        return Thrown(JsTypeError(UndefinedNode));  // `undefined !== null`, so `execute(undefined)`
      }
      r := Execute(branch.value, fuel);
      if r.Normal? {
        r := Normal(Null);
      }
    }

    method VisitWhileStatement(c: Expr, body: Stmt, fuel: nat) returns (r: Completion<Value>)
      requires Valid()
      modifies this, main, globals
      ensures Valid() && environment == old(environment)
      ensures Ran(r, CurrentState()) == ExecWhile(c, body, old(CurrentScope()), old(CurrentState()), fuel)
      decreases fuel, WhileStatement(c, body), 1
    {
      ghost var sc, goal := CurrentScope(), ExecWhile(c, body, CurrentScope(), CurrentState(), fuel);
      var left: nat := fuel;
      while true
        invariant left <= fuel
        invariant Valid() && environment == old(environment) && CurrentScope() == sc
        invariant goal == ExecWhile(c, body, sc, CurrentState(), left)
        decreases left
      {
        var ran := Round(c, body, left);
        if !ran.Normal? {
          return ran.Abrupt();
        }
        if !ran.value {
          return Normal(Null);
        }
        if left == 0 {
          return OutOfFuel;
        }
        left := left - 1;
      }
    }

    /** One pass of the loop of `visitWhileStatement`: the condition, and the body when it is truthy. */
    method Round(c: Expr, body: Stmt, fuel: nat) returns (r: Completion<bool>)
      requires Valid()
      modifies this, main, globals
      ensures Valid() && environment == old(environment)
      ensures Ran(r, CurrentState()) == WhileRound(c, body, old(CurrentScope()), old(CurrentState()), fuel)
      decreases fuel, WhileStatement(c, body), 0
    {
      var cond := Evaluate(c, fuel);
      if !cond.Normal? {
        return cond.Abrupt();
      }
      if !Truthy(cond.value) {
        return Normal(false);
      }
      var done := Execute(body, fuel);  // `this.evaluate(body)`: the same `accept`
      if !done.Normal? {
        return done.Abrupt();
      }
      return Normal(true);
    }

    method VisitFunctionStatement(f: FunctionDeclaration) returns (r: Completion<Value>)
      requires Valid()
      modifies main, globals
      ensures Ran(r, CurrentState()) == Exec(FunctionStatement(f), CurrentScope(), old(CurrentState()), 0)
    {
      environment.Define(f.name.lexeme, Fn(f));
      return Normal(Null);
    }

    method VisitReturnStatement(value: Option<Expr>, fuel: nat) returns (r: Completion<Value>)
      requires Valid()
      modifies this, main, globals
      ensures Valid() && environment == old(environment)
      ensures Ran(r, CurrentState()) == Exec(ReturnStatement(value), old(CurrentScope()), old(CurrentState()), fuel)
      decreases fuel, ReturnStatement(value), 0
    {
      if value.None? {
        return Normal(Null);
      }
      r := Evaluate(value.value, fuel);
    }

    /**
     * `executeBlock`: run the statements with `environment` set to `scope`,
     * collecting one result per statement, and put the previous environment
     * back however the block ends.
     */
    method ExecuteBlock(ss: seq<Stmt>, scope: Environment, fuel: nat) returns (r: Completion<seq<Value>>)
      requires Valid() && scope.Chained() && (scope.Root() == main || scope.Root() == globals)
      modifies this, main, globals
      ensures Valid() && environment == old(environment)
      ensures Ran(r, CurrentState()) == ExecAll(ss, 0, [], if scope.Root() == main then MainScope else GlobalScope, old(CurrentState()), fuel)
      decreases fuel, ss, 2
    {
      var previous := environment;
      environment := scope;
      ghost var sc, before := CurrentScope(), CurrentState();
      var results: seq<Value> := [];
      for i := 0 to |ss|
        invariant Valid() && environment == scope
        invariant ExecAll(ss, 0, [], sc, before, fuel) == ExecAll(ss, i, results, sc, CurrentState(), fuel)
      {
        var v := Execute(ss[i], fuel);
        if !v.Normal? {
          environment := previous;  // `finally`
          return v.Abrupt();
        }
        results := results + [v.value];
      }
      environment := previous;  // `finally`
      return Normal(results);
    }
  }
}
