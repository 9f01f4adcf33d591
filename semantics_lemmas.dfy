/**
 * Properties of `Semantics`: what `src/interpreter.ts` and
 * `src/lox-function.ts` do with the trees the parser builds, stated for
 * every input: the parameter loop of `call`, the two kinds of `and`/`or`,
 * the assignment that cannot succeed, the `if` without `else`, blocks that
 * do not scope, `return` that does not stop a body, loops, and the
 * top-level loop that goes on after an error.
 */
module SemanticsLemmas {

  import opened Results
  import opened Tokens
  import opened Expressions
  import opened Statements
  import opened Values
  import opened Environments
  import opened Semantics

  /* ---------- the parameter loop of `call` ---------- */

  /** Some parameter from index `i` on is called `n`. */
  predicate NamedFrom(params: seq<Token>, i: nat, n: string) {
    exists k :: i <= k < |params| && params[k].lexeme == n
  }

  /** The loop binds exactly the parameter names, on top of what the map held. */
  lemma {:induction false} BindParametersDomain(m: map<string, Value>, params: seq<Token>, args: seq<Value>, i: nat)
    requires i <= |params|
    ensures BindParameters(m, params, args, i).Keys == m.Keys + (set k | i <= k < |params| :: params[k].lexeme)
    decreases |params| - i
  {
    if i < |params| {
      BindParametersDomain(m[params[i].lexeme := Argument(args, i)], params, args, i + 1);
      assert (set k | i <= k < |params| :: params[k].lexeme)
          == {params[i].lexeme} + (set k | i + 1 <= k < |params| :: params[k].lexeme);
    }
  }

  /** A name that is no parameter keeps the binding it had in `globals`. */
  lemma {:induction false} BindParametersKeepsOthers(m: map<string, Value>, params: seq<Token>, args: seq<Value>, i: nat, n: string)
    requires i <= |params| && !NamedFrom(params, i, n)
    ensures var bound := BindParameters(m, params, args, i);
      (n in bound <==> n in m) && (n in m ==> bound[n] == m[n])
    decreases |params| - i
  {
    if i < |params| {
      BindParametersKeepsOthers(m[params[i].lexeme := Argument(args, i)], params, args, i + 1, n);
    }
  }

  /**
   * Parameter `j`, when no later parameter has its name, is bound to
   * argument `j`, or to `undefined` when fewer arguments were passed.
   */
  lemma {:induction false} BindParametersBindsArgument(m: map<string, Value>, params: seq<Token>, args: seq<Value>, i: nat, j: nat)
    requires i <= j < |params| && !NamedFrom(params, j + 1, params[j].lexeme)
    ensures var bound := BindParameters(m, params, args, i);
      params[j].lexeme in bound && bound[params[j].lexeme] == Argument(args, j)
    decreases |params| - i
  {
    var next := m[params[i].lexeme := Argument(args, i)];
    if i == j {
      BindParametersKeepsOthers(next, params, args, i + 1, params[j].lexeme);
    } else {
      BindParametersBindsArgument(next, params, args, i + 1, j);
    }
  }

  /* ---------- `and` and `or` ---------- */

  /**
   * `Logical` skips its right operand exactly when the left value decides,
   * and otherwise yields what the right operand yields.
   */
  lemma LogicalEvaluatesRightUnlessDecided(left: Expr, op: Token, right: Expr, sc: Scope, st: State, fuel: nat)
    requires Eval(left, sc, st, fuel).result.Normal?
    ensures var l := Eval(left, sc, st, fuel);
      ShortCircuits(op, l.result.value) ==> Eval(Logical(left, op, right), sc, st, fuel) == l
    ensures var l := Eval(left, sc, st, fuel);
      !ShortCircuits(op, l.result.value) ==> Eval(Logical(left, op, right), sc, st, fuel) == Eval(right, sc, l.state, fuel)
  {
  }

  /**
   * When both operands complete, a `Logical` and a `Binary` node over `AND`
   * or `OR` yield the same value; the `Binary` one has always run the right
   * operand, the `Logical` one only when the left value does not decide.
   */
  lemma LogicalAndBinaryAgree(left: Expr, op: Token, right: Expr, sc: Scope, st: State, fuel: nat)
    requires op.kind == And || op.kind == Or
    requires Eval(left, sc, st, fuel).result.Normal?
    requires Eval(right, sc, Eval(left, sc, st, fuel).state, fuel).result.Normal?
    ensures Eval(Logical(left, op, right), sc, st, fuel).result == Eval(Binary(left, op, right), sc, st, fuel).result
    ensures var l := Eval(left, sc, st, fuel);
      Eval(Binary(left, op, right), sc, st, fuel).state == Eval(right, sc, l.state, fuel).state
      && Eval(Logical(left, op, right), sc, st, fuel).state
         == if ShortCircuits(op, l.result.value) then l.state else Eval(right, sc, l.state, fuel).state
  {
    var l := Eval(left, sc, st, fuel);
    var r := Eval(right, sc, l.state, fuel);
    assert Eval(Binary(left, op, right), sc, st, fuel) == Ran(BinaryValue(op.kind, l.result.value, r.result.value), r.state);
  }

  /* ---------- assignments, conditions, blocks ---------- */

  /** An assignment never completes: once its value is computed, the call of the missing `assign` throws. */
  lemma AssignmentNeverCompletes(name: Token, value: Expr, sc: Scope, st: State, fuel: nat)
    ensures !Eval(Expr.Assignment(name, value), sc, st, fuel).result.Normal?
    ensures var v := Eval(value, sc, st, fuel);
      v.result.Normal? ==> Eval(Expr.Assignment(name, value), sc, st, fuel) == Ran(Thrown(JsTypeError(AssignIsNotAFunction)), v.state)
  {
  }

  /** An `if` without `else` whose condition is falsy throws, as `execute(undefined)` does. */
  lemma FalsyIfWithoutElseThrows(c: Expr, thenBranch: Stmt, sc: Scope, st: State, fuel: nat)
    requires Eval(c, sc, st, fuel).result.Normal? && !Truthy(Eval(c, sc, st, fuel).result.value)
    ensures Exec(ConditionStatement(c, thenBranch, None), sc, st, fuel)
         == Ran(Thrown(JsTypeError(UndefinedNode)), Eval(c, sc, st, fuel).state)
  {
  }

  /** A variable declared in a block stays bound after the block: `define` writes to the root. */
  lemma BlockDeclarationOutlivesBlock(name: Token, init: Expr, sc: Scope, st: State, fuel: nat)
    requires Eval(init, sc, st, fuel).result.Normal?
    ensures var v := Eval(init, sc, st, fuel);
      var after := Exec(BlockStatement([VariableDeclarationStatement(name, init)]), sc, st, fuel);
      after.result == Normal(Null)
      && Bindings(after.state, sc) == Bindings(v.state, sc)[name.lexeme := v.result.value]
      && Lookup(Bindings(after.state, sc), name.lexeme) == if v.result.value == Undefined then Failure(NotDefined(name.lexeme)) else Success(v.result.value)
  {
    var v := Eval(init, sc, st, fuel);
    var decl := VariableDeclarationStatement(name, init);
    var bound := Bind(v.state, sc, name.lexeme, v.result.value);
    assert Exec(decl, sc, st, fuel) == Ran(Normal(Null), bound);
    assert [decl][0] == decl && [] + [Null] == [Null];
    assert ExecAll([decl], 0, [], sc, st, fuel) == ExecAll([decl], 1, [Null], sc, bound, fuel);
  }

  /** `print` adds exactly one entry to the console, the printed value, after what evaluating it wrote. */
  lemma PrintAppendsOnce(e: Expr, sc: Scope, st: State, fuel: nat)
    requires Eval(e, sc, st, fuel).result.Normal?
    ensures var v := Eval(e, sc, st, fuel);
      var after := Exec(PrintStatement(e), sc, st, fuel);
      after.result == Normal(Null)
      && after.state.out == v.state.out + [Printed(v.result.value)]
      && after.state.main == v.state.main && after.state.globals == v.state.globals
  {
  }

  /* ---------- loops ---------- */

  /** A `while` whose condition is falsy runs nothing and completes with `null`. */
  lemma WhileStopsOnFalsy(c: Expr, body: Stmt, sc: Scope, st: State, fuel: nat)
    requires Eval(c, sc, st, fuel).result.Normal? && !Truthy(Eval(c, sc, st, fuel).result.value)
    ensures Exec(WhileStatement(c, body), sc, st, fuel) == Ran(Normal(Null), Eval(c, sc, st, fuel).state)
  {
    assert WhileRound(c, body, sc, st, fuel) == Ran(Normal(false), Eval(c, sc, st, fuel).state);
  }

  /** After a round whose body completed, the loop goes on from the state the body left. */
  lemma WhileUnrolls(c: Expr, body: Stmt, sc: Scope, st: State, fuel: nat)
    requires fuel > 0
    requires Eval(c, sc, st, fuel).result.Normal? && Truthy(Eval(c, sc, st, fuel).result.value)
    requires Exec(body, sc, Eval(c, sc, st, fuel).state, fuel).result.Normal?
    ensures Exec(WhileStatement(c, body), sc, st, fuel)
         == ExecWhile(c, body, sc, Exec(body, sc, Eval(c, sc, st, fuel).state, fuel).state, fuel - 1)
  {
    assert WhileRound(c, body, sc, st, fuel) == Ran(Normal(true), Exec(body, sc, Eval(c, sc, st, fuel).state, fuel).state);
  }

  /* ---------- calls ---------- */

  /**
   * Running `ss + [s]` runs `ss`, then `s` from the state `ss` left; the
   * results are those of `ss` followed by the result of `s`.
   */
  lemma {:induction false} ExecAllThenOne(ss: seq<Stmt>, s: Stmt, i: nat, done: seq<Value>, sc: Scope, st: State, fuel: nat)
    requires i <= |ss|
    ensures var front := ExecAll(ss, i, done, sc, st, fuel);
      front.result.Normal? ==>
        var v := Exec(s, sc, front.state, fuel);
        ExecAll(ss + [s], i, done, sc, st, fuel)
        == if v.result.Normal? then Ran(Normal(front.result.value + [v.result.value]), v.state) else Ran(v.result.Abrupt(), v.state)
    decreases |ss| - i
  {
    if i < |ss| {
      assert (ss + [s])[i] == ss[i];
      var w := Exec(ss[i], sc, st, fuel);
      if w.result.Normal? {
        ExecAllThenOne(ss, s, i + 1, done + [w.result.value], sc, w.state, fuel);
      }
    } else {
      assert (ss + [s])[i] == s;
    }
  }

  /**
   * Whatever the statements before it, `return` ones included, a call whose
   * body runs to its last statement yields what that statement yields:
   * a `return` that is not last never decides the result.
   */
  lemma CallYieldsLastStatement(name: Token, params: seq<Token>, body: seq<Stmt>, last: Stmt, args: seq<Value>, st: State, fuel: nat)
    ensures var entered := st.(globals := BindParameters(st.globals, params, args, 0));
      var front := ExecAll(body, 0, [], GlobalScope, entered, fuel);
      front.result.Normal? ==>
        Invoke(FunctionDeclaration(name, params, body + [last]), args, st, fuel) == Exec(last, GlobalScope, front.state, fuel)
  {
    var entered := st.(globals := BindParameters(st.globals, params, args, 0));
    ExecAllThenOne(body, last, 0, [], GlobalScope, entered, fuel);
  }

  /** The name token of the function below. */
  const Name: Token := Token(Identifier, "f", NullLit, 1)

  /** `fun f() { return 1; print 2; }` */
  const ReturnThenPrint: FunctionDeclaration :=
    FunctionDeclaration(Name, [], [ReturnStatement(Some(Literal(NumberLit(1)))), PrintStatement(Literal(NumberLit(2)))])

  /**
   * `return` does not leave the body: the statement after it still prints,
   * and the call yields the result of the last statement, `null`, not the
   * returned 1.
   */
  lemma ReturnDoesNotStopBody(st: State, fuel: nat)
    ensures Invoke(ReturnThenPrint, [], st, fuel) == Ran(Normal(Null), st.(out := st.out + [Printed(Num(2))]))
  {
    var returned, printing := ReturnStatement(Some(Literal(NumberLit(1)))), PrintStatement(Literal(NumberLit(2)));
    var body := [returned, printing];
    var printed := st.(out := st.out + [Printed(Num(2))]);
    assert ReturnThenPrint.body == body && body[0] == returned && body[1] == printing;
    assert BindParameters(st.globals, [], [], 0) == st.globals;
    assert st.(globals := st.globals) == st;
    assert Exec(returned, GlobalScope, st, fuel) == Ran(Normal(Num(1)), st);
    assert Eval(Literal(NumberLit(2)), GlobalScope, st, fuel) == Ran(Normal(Num(2)), st);
    assert Exec(printing, GlobalScope, st, fuel) == Ran(Normal(Null), printed);
    assert [] + [Num(1)] == [Num(1)] && [Num(1)] + [Null] == [Num(1), Null];
    assert ExecAll(body, 2, [Num(1), Null], GlobalScope, printed, fuel) == Ran(Normal([Num(1), Null]), printed);
    assert ExecAll(body, 1, [Num(1)], GlobalScope, st, fuel) == Ran(Normal([Num(1), Null]), printed);
    assert ExecAll(body, 0, [], GlobalScope, st, fuel) == Ran(Normal([Num(1), Null]), printed);
  }

  /* ---------- the top level ---------- */

  /** A statement that throws is logged, and the statements after it still run. */
  lemma InterpretAllGoesOnAfterThrow(ss: seq<Stmt>, i: nat, st: State, fuel: nat)
    requires i < |ss| && Exec(ss[i], MainScope, st, fuel).result.Thrown?
    ensures var x := Exec(ss[i], MainScope, st, fuel);
      InterpretAll(ss, i, st, fuel)
      == InterpretAll(ss, i + 1, x.state.(out := x.state.out + [Logged(x.result.exception)]), fuel)
  {
  }
}
