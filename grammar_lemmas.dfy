/**
 * What the grammar of `src/parser.ts` decides about the shape of the tree:
 * each binary level is left-associative, a tighter level binds first,
 * assignment groups to the right and needs a variable on its left, an
 * `else` belongs to the nearest `if`, a `for` becomes a `while`, and
 * `parse` keeps every declaration in order.
 */
module GrammarLemmas {

  import opened Results
  import opened Utils
  import opened Tokens
  import opened Expressions
  import opened Statements
  import opened Grammar

  /* ---------- the cursor ---------- */

  /**
   * `advance` never moves past the EOF token: it stays there, and otherwise
   * lands on another token of the list; at EOF no kind is checked or matched.
   */
  lemma CursorStaysInside(ts: seq<Token>, pos: nat)
    requires Cursor(ts, pos)
    ensures Cursor(ts, Advance(ts, pos))
    ensures Advance(ts, pos) == pos <==> AtEnd(ts, pos)
    ensures AtEnd(ts, pos) ==> forall k :: !Check(ts, pos, k) && !Matches(ts, pos, [k])
  {
  }

  /* ---------- operators and the levels that consume them ---------- */

  /** The level whose loop consumes an operator of kind `k`, if any. */
  function OperatorLevel(k: TokenType): (r: Option<Precedence>)
    ensures forall l :: k in Operators(l) <==> r == Some(l)
  {
    match k
    case Or => Some(OrLevel)
    case And => Some(AndLevel)
    case BangEqual => Some(EqualityLevel)
    case EqualEqual => Some(EqualityLevel)
    case Less => Some(ComparisonLevel)
    case LessEqual => Some(ComparisonLevel)
    case Greater => Some(ComparisonLevel)
    case GreaterEqual => Some(ComparisonLevel)
    case Minus => Some(AdditionLevel)
    case Plus => Some(AdditionLevel)
    case Slash => Some(MultiplicationLevel)
    case Star => Some(MultiplicationLevel)
    case _ => None
  }

  /** The token at `i` continues no level of height below `h`. */
  predicate StopsBelow(ts: seq<Token>, i: nat, h: nat)
    requires i < |ts|
  {
    AtEnd(ts, i) || OperatorLevel(ts[i].kind).None? || h <= Height(OperatorLevel(ts[i].kind).value)
  }

  /** The token at `i` ends an expression: no binary operator and no `=`. */
  predicate Ends(ts: seq<Token>, i: nat)
    requires i < |ts|
  {
    StopsBelow(ts, i, Height(OrLevel) + 1) && !Matches(ts, i, [Equal])
  }

  /** A token that `primary` turns into a node on its own: a number, a string or a name. */
  predicate Atom(ts: seq<Token>, i: nat)
    requires i < |ts|
  {
    ts[i].kind == Number || ts[i].kind == String || ts[i].kind == Identifier
  }

  /** The node `primary` builds for an atom. */
  function AtomExpr(t: Token): Expr {
    if t.kind == Identifier then Variable(t) else Literal(t.literal)
  }

  lemma HeightInjective(l: Precedence, m: Precedence)
    requires Height(l) == Height(m)
    ensures l == m
  {
  }

  /* ---------- one operand ---------- */

  /** An atom is a whole unary expression on its own. */
  lemma AtomUnary(ts: seq<Token>, i: nat)
    requires Cursor(ts, i)
    ensures Atom(ts, i) ==> Grammar.Unary(ts, i) == Parsed(AtomExpr(ts[i]), i + 1)
  {
  }

  /** A unary expression followed by no operator of `l` or tighter is the whole of level `l`. */
  lemma {:induction false} LiftUnary(l: Precedence, ts: seq<Token>, pos: nat, e: Expr, p: nat)
    requires Cursor(ts, pos) && Grammar.Unary(ts, pos) == Parsed(e, p) && StopsBelow(ts, p, Height(l) + 1)
    ensures BinaryLevel(l, ts, pos) == Parsed(e, p)
    decreases Height(l)
  {
    if l != MultiplicationLevel {
      LiftUnary(Tighter(l), ts, pos, e, p);
    }
    assert !Matches(ts, p, Operators(l));
  }

  /** Likewise for a parse of level `m` seen from a looser level `l`. */
  lemma {:induction false} Lift(m: Precedence, l: Precedence, ts: seq<Token>, pos: nat, e: Expr, p: nat)
    requires Cursor(ts, pos) && Height(m) <= Height(l)
    requires BinaryLevel(m, ts, pos) == Parsed(e, p) && StopsBelow(ts, p, Height(l) + 1)
    ensures BinaryLevel(l, ts, pos) == Parsed(e, p)
    decreases Height(l)
  {
    if Height(m) == Height(l) {
      HeightInjective(m, l);
    } else {
      Lift(m, Tighter(l), ts, pos, e, p);
      assert !Matches(ts, p, Operators(l));
    }
  }

  /** An atom followed by no operator tighter than `l` is an operand of `l`. */
  lemma OperandAtom(l: Precedence, ts: seq<Token>, i: nat)
    requires Cursor(ts, i) && Atom(ts, i) && StopsBelow(ts, i + 1, Height(l))
    ensures Operand(l, ts, i) == Parsed(AtomExpr(ts[i]), i + 1)
  {
    AtomUnary(ts, i);
    if l != MultiplicationLevel {
      LiftUnary(Tighter(l), ts, i, AtomExpr(ts[i]), i + 1);
    }
  }

  /** A whole expression is its `or` level when nothing that continues it follows. */
  lemma ExpressionOfLevel(l: Precedence, ts: seq<Token>, pos: nat, e: Expr, p: nat)
    requires Cursor(ts, pos) && BinaryLevel(l, ts, pos) == Parsed(e, p) && Ends(ts, p)
    ensures Expression(ts, pos) == Parsed(e, p)
  {
    Lift(l, OrLevel, ts, pos, e, p);
  }

  /* ---------- associativity and precedence ---------- */

  /** A level is its operand followed by its loop. */
  lemma LevelStart(l: Precedence, ts: seq<Token>, pos: nat, left: Expr, p: nat)
    requires Cursor(ts, pos) && Operand(l, ts, pos) == Parsed(left, p)
    ensures BinaryLevel(l, ts, pos) == LevelLoop(l, left, ts, p)
  {
  }

  /** One round of a level's loop: the operator at `pos`, then the operand after it. */
  lemma LoopStep(l: Precedence, left: Expr, ts: seq<Token>, pos: nat, right: Expr, q: nat)
    requires Cursor(ts, pos) && ts[pos].kind in Operators(l) && Operand(l, ts, pos + 1) == Parsed(right, q)
    ensures LevelLoop(l, left, ts, pos) == LevelLoop(l, Combine(l, left, ts[pos], right), ts, q)
  {
  }

  /** The loop ends at a token that is no operator of its level. */
  lemma LoopEnd(l: Precedence, left: Expr, ts: seq<Token>, pos: nat)
    requires Cursor(ts, pos) && StopsBelow(ts, pos, Height(l) + 1)
    ensures LevelLoop(l, left, ts, pos) == Parsed(left, pos)
  {
    assert !Matches(ts, pos, Operators(l));
  }

  /** The operand of a looser level `l` is whatever the level `t` below it parses, when nothing else follows. */
  lemma OperandOfLooser(t: Precedence, l: Precedence, ts: seq<Token>, pos: nat, e: Expr, p: nat)
    requires Cursor(ts, pos) && Height(t) < Height(l)
    requires BinaryLevel(t, ts, pos) == Parsed(e, p) && StopsBelow(ts, p, Height(l))
    ensures Operand(l, ts, pos) == Parsed(e, p)
  {
    Lift(t, Tighter(l), ts, pos, e, p);
  }

  /** The shape `a op1 b op2 c x` at `pos`, with atoms `a`, `b`, `c`. */
  predicate ThreeAtoms(ts: seq<Token>, pos: nat)
  {
    Cursor(ts, pos) && pos + 5 < |ts| && Atom(ts, pos) && Atom(ts, pos + 2) && Atom(ts, pos + 4)
  }

  /** `a op1 b op2 c` with both operators of level `l` groups as `(a op1 b) op2 c`. */
  lemma LeftAssociative(l: Precedence, ts: seq<Token>, pos: nat)
    requires ThreeAtoms(ts, pos) && Ends(ts, pos + 5)
    requires ts[pos + 1].kind in Operators(l) && ts[pos + 3].kind in Operators(l)
    ensures Expression(ts, pos)
         == Parsed(Combine(l, Combine(l, AtomExpr(ts[pos]), ts[pos + 1], AtomExpr(ts[pos + 2])),
                           ts[pos + 3], AtomExpr(ts[pos + 4])), pos + 5)
  {
    var a, b, c := AtomExpr(ts[pos]), AtomExpr(ts[pos + 2]), AtomExpr(ts[pos + 4]);
    var ab := Combine(l, a, ts[pos + 1], b);
    var abc := Combine(l, ab, ts[pos + 3], c);
    OperandAtom(l, ts, pos);
    OperandAtom(l, ts, pos + 2);
    OperandAtom(l, ts, pos + 4);
    LevelStart(l, ts, pos, a, pos + 1);
    LoopStep(l, a, ts, pos + 1, b, pos + 3);
    LoopStep(l, ab, ts, pos + 3, c, pos + 5);
    LoopEnd(l, abc, ts, pos + 5);
    ExpressionOfLevel(l, ts, pos, abc, pos + 5);
  }

  /** `b op c` at `pos` with an operator of level `t`, followed by nothing of `t` or tighter. */
  lemma SingleOperator(t: Precedence, ts: seq<Token>, pos: nat)
    requires Cursor(ts, pos) && pos + 3 < |ts| && Atom(ts, pos) && Atom(ts, pos + 2)
    requires ts[pos + 1].kind in Operators(t) && StopsBelow(ts, pos + 3, Height(t) + 1)
    ensures BinaryLevel(t, ts, pos) == Parsed(Combine(t, AtomExpr(ts[pos]), ts[pos + 1], AtomExpr(ts[pos + 2])), pos + 3)
  {
    var a, b := AtomExpr(ts[pos]), AtomExpr(ts[pos + 2]);
    OperandAtom(t, ts, pos);
    OperandAtom(t, ts, pos + 2);
    LevelStart(t, ts, pos, a, pos + 1);
    LoopStep(t, a, ts, pos + 1, b, pos + 3);
    LoopEnd(t, Combine(t, a, ts[pos + 1], b), ts, pos + 3);
  }

  /** `a op1 b op2 c` with `op2` of a tighter level `t` than `op1` (level `l`) groups as `a op1 (b op2 c)`. */
  lemma TighterBindsRight(l: Precedence, t: Precedence, ts: seq<Token>, pos: nat)
    requires ThreeAtoms(ts, pos) && Ends(ts, pos + 5) && Height(t) < Height(l)
    requires ts[pos + 1].kind in Operators(l) && ts[pos + 3].kind in Operators(t)
    ensures Expression(ts, pos)
         == Parsed(Combine(l, AtomExpr(ts[pos]), ts[pos + 1],
                           Combine(t, AtomExpr(ts[pos + 2]), ts[pos + 3], AtomExpr(ts[pos + 4]))), pos + 5)
  {
    var a := AtomExpr(ts[pos]);
    var bc := Combine(t, AtomExpr(ts[pos + 2]), ts[pos + 3], AtomExpr(ts[pos + 4]));
    var abc := Combine(l, a, ts[pos + 1], bc);
    OperandAtom(l, ts, pos);
    SingleOperator(t, ts, pos + 2);
    OperandOfLooser(t, l, ts, pos + 2, bc, pos + 5);
    LevelStart(l, ts, pos, a, pos + 1);
    LoopStep(l, a, ts, pos + 1, bc, pos + 5);
    LoopEnd(l, abc, ts, pos + 5);
    ExpressionOfLevel(l, ts, pos, abc, pos + 5);
  }

  /** `a op1 b op2 c` with `op1` of a tighter level `t` than `op2` (level `l`) groups as `(a op1 b) op2 c`. */
  lemma TighterBindsLeft(l: Precedence, t: Precedence, ts: seq<Token>, pos: nat)
    requires ThreeAtoms(ts, pos) && Ends(ts, pos + 5) && Height(t) < Height(l)
    requires ts[pos + 1].kind in Operators(t) && ts[pos + 3].kind in Operators(l)
    ensures Expression(ts, pos)
         == Parsed(Combine(l, Combine(t, AtomExpr(ts[pos]), ts[pos + 1], AtomExpr(ts[pos + 2])),
                           ts[pos + 3], AtomExpr(ts[pos + 4])), pos + 5)
  {
    var ab := Combine(t, AtomExpr(ts[pos]), ts[pos + 1], AtomExpr(ts[pos + 2]));
    var c := AtomExpr(ts[pos + 4]);
    var abc := Combine(l, ab, ts[pos + 3], c);
    SingleOperator(t, ts, pos);
    OperandOfLooser(t, l, ts, pos, ab, pos + 3);
    OperandAtom(l, ts, pos + 4);
    LevelStart(l, ts, pos, ab, pos + 3);
    LoopStep(l, ab, ts, pos + 3, c, pos + 5);
    LoopEnd(l, abc, ts, pos + 5);
    ExpressionOfLevel(l, ts, pos, abc, pos + 5);
  }

  /** Only `and` and `or` build `Logical` nodes. */
  lemma LogicalOnlyForAndOr(l: Precedence, left: Expr, operator: Token, right: Expr)
    ensures Combine(l, left, operator, right).Logical? <==> l == OrLevel || l == AndLevel
    ensures Combine(l, left, operator, right).Binary? <==> l != OrLevel && l != AndLevel
  {
  }

  /* ---------- assignment ---------- */

  /** An atom followed by a token that ends it is its own `or` level. */
  lemma AtomOrLevel(ts: seq<Token>, i: nat)
    requires Cursor(ts, i) && Atom(ts, i) && StopsBelow(ts, i + 1, Height(OrLevel) + 1)
    ensures BinaryLevel(OrLevel, ts, i) == Parsed(AtomExpr(ts[i]), i + 1)
  {
    AtomUnary(ts, i);
    LiftUnary(OrLevel, ts, i, AtomExpr(ts[i]), i + 1);
  }

  /** `x = y = a` assigns `a` to `y` and that to `x`: assignment groups to the right. */
  lemma AssignmentRightAssociative(ts: seq<Token>, pos: nat)
    requires Cursor(ts, pos) && pos + 5 < |ts|
    requires ts[pos].kind == Identifier && ts[pos + 1].kind == Equal
    requires ts[pos + 2].kind == Identifier && ts[pos + 3].kind == Equal
    requires Atom(ts, pos + 4) && Ends(ts, pos + 5)
    ensures Expression(ts, pos)
         == Parsed(Expr.Assignment(ts[pos], Expr.Assignment(ts[pos + 2], AtomExpr(ts[pos + 4]))), pos + 5)
  {
    AtomOrLevel(ts, pos);
    AtomOrLevel(ts, pos + 2);
    AtomOrLevel(ts, pos + 4);
    assert Grammar.Assignment(ts, pos + 4) == Parsed(AtomExpr(ts[pos + 4]), pos + 5);
    assert Grammar.Assignment(ts, pos + 2) == Parsed(Expr.Assignment(ts[pos + 2], AtomExpr(ts[pos + 4])), pos + 5);
  }

  /**
   * `=` after anything but a bare variable (a literal, a grouping, a unary
   * or binary expression) throws an `Error` with no message, once the value
   * on its right has been parsed; a failure in that value comes first.
   */
  lemma InvalidAssignmentTarget(ts: seq<Token>, pos: nat)
    requires Cursor(ts, pos)
    requires BinaryLevel(OrLevel, ts, pos).Parsed? && !BinaryLevel(OrLevel, ts, pos).value.Variable?
    requires Matches(ts, BinaryLevel(OrLevel, ts, pos).next, [Equal])
    ensures var value := Grammar.Assignment(ts, BinaryLevel(OrLevel, ts, pos).next + 1);
      Expression(ts, pos) == if value.Stopped? then value else Stopped(Uncaught(""))
  {
  }

  /** `1 = a` throws: a literal followed by `=` and one atom. */
  lemma LiteralAssignmentThrows(ts: seq<Token>, pos: nat)
    requires Cursor(ts, pos) && pos + 3 < |ts|
    requires (ts[pos].kind == Number || ts[pos].kind == String) && ts[pos + 1].kind == Equal
    requires Atom(ts, pos + 2) && Ends(ts, pos + 3)
    ensures Expression(ts, pos) == Stopped(Uncaught(""))
  {
    AtomOrLevel(ts, pos);
    AtomOrLevel(ts, pos + 2);
    InvalidAssignmentTarget(ts, pos);
    assert Grammar.Assignment(ts, pos + 2) == Parsed(AtomExpr(ts[pos + 2]), pos + 3);
  }

  /**
   * What the operand levels may hand to `assignment` from `pos`: never an
   * assignment node nor `undefined`, and a bare variable only when it is the
   * identifier at `pos` on its own.
   */
  predicate NoAssignmentFrom(ts: seq<Token>, pos: nat, r: PResult<Expr>)
    requires pos < |ts|
  {
    r.Parsed? ==>
      !r.value.Assignment? && r.value != Absent &&
      (r.value.Variable? ==> ts[pos].kind == Identifier && r == Parsed(Variable(ts[pos]), pos + 1))
  }

  lemma PrimaryBuildsNoAssignment(ts: seq<Token>, pos: nat)
    requires Cursor(ts, pos)
    ensures NoAssignmentFrom(ts, pos, Primary(ts, pos))
  {
  }

  /** `unary` adds only `Unary` nodes on top of `primary`. */
  lemma UnaryBuildsNoAssignment(ts: seq<Token>, pos: nat)
    requires Cursor(ts, pos)
    ensures NoAssignmentFrom(ts, pos, Grammar.Unary(ts, pos))
  {
    if !Matches(ts, pos, [Bang, Minus]) {
      PrimaryBuildsNoAssignment(ts, pos);
    }
  }

  /** A level's loop returns its starting node untouched or a `Binary`/`Logical` node built on it. */
  lemma {:induction false} LoopBuildsCombination(l: Precedence, left: Expr, ts: seq<Token>, pos: nat)
    requires Cursor(ts, pos) && LevelLoop(l, left, ts, pos).Parsed?
    ensures var r := LevelLoop(l, left, ts, pos);
      r == Parsed(left, pos) || r.value.Binary? || r.value.Logical?
    decreases |ts| - pos
  {
    if Matches(ts, pos, Operators(l)) {
      var right := Operand(l, ts, pos + 1);
      LoopBuildsCombination(l, Combine(l, left, ts[pos], right.value), ts, right.next);
    }
  }

  /**
   * No binary level builds an assignment node, and a bare variable it
   * returns is the identifier at the cursor.
   */
  lemma {:induction false} LevelBuildsNoAssignment(l: Precedence, ts: seq<Token>, pos: nat)
    requires Cursor(ts, pos)
    ensures NoAssignmentFrom(ts, pos, BinaryLevel(l, ts, pos))
    decreases Height(l)
  {
    var left := Operand(l, ts, pos);
    if left.Parsed? && LevelLoop(l, left.value, ts, left.next).Parsed? {
      LoopBuildsCombination(l, left.value, ts, left.next);
    }
    if l == MultiplicationLevel {
      UnaryBuildsNoAssignment(ts, pos);
    } else {
      LevelBuildsNoAssignment(Tighter(l), ts, pos);
    }
  }

  /**
   * Whatever the right-hand side, an assignment node names the identifier
   * at the start of the expression: its target is a bare variable.
   */
  lemma AssignmentTargetIsVariable(ts: seq<Token>, pos: nat)
    requires Cursor(ts, pos)
    requires Grammar.Assignment(ts, pos).Parsed? && Grammar.Assignment(ts, pos).value.Assignment?
    ensures Grammar.Assignment(ts, pos).value.name == ts[pos] && ts[pos].kind == Identifier
  {
    var target := BinaryLevel(OrLevel, ts, pos);
    LevelBuildsNoAssignment(OrLevel, ts, pos);
    assert target.Parsed? && target.value.Variable?;
  }

  /* ---------- statements ---------- */

  /** `var` with a name but no `=` throws an `Error` with no message. */
  lemma VarNeedsInitializer(ts: seq<Token>, pos: nat)
    requires Cursor(ts, pos) && pos + 1 < |ts|
    requires ts[pos].kind == Identifier && ts[pos + 1].kind != Equal
    ensures VariableDeclaration(ts, pos) == Stopped(Uncaught(""))
  {
  }

  /** Only the `if` branch of `statement` builds a conditional. */
  lemma StatementConditional(ts: seq<Token>, pos: nat)
    requires Cursor(ts, pos)
    ensures Statement(ts, pos).Parsed? && Statement(ts, pos).value.ConditionStatement? ==>
      Matches(ts, pos, [If]) && Statement(ts, pos) == Grammar.ConditionStatement(ts, pos + 1)
  {
    if Matches(ts, pos, [Print]) {
      assert Statement(ts, pos) == Grammar.PrintStatement(ts, pos + 1);
    } else if Matches(ts, pos, [For]) && !Matches(ts, pos, [LeftBrace]) && !Matches(ts, pos, [If]) && !Matches(ts, pos, [While]) {
      if Grammar.ForLoopStatement(ts, pos + 1).Parsed? {
        ForLoopDesugars(ts, pos + 1);
      }
    }
  }

  /** An `if` parsed without an `else` leaves no `else` after it. */
  lemma {:induction false} NoElseAfter(ts: seq<Token>, pos: nat)
    requires Cursor(ts, pos)
    requires Statement(ts, pos).Parsed? && Statement(ts, pos).value.ConditionStatement?
    requires Statement(ts, pos).value.elseBranch.None?
    ensures !Matches(ts, Statement(ts, pos).next, [Else])
  {
    StatementConditional(ts, pos);
    var c := Parenthesised(ts, pos + 1, "Missing (", "Missing )");
    var s := Statement(ts, c.next);
    var e := ElseBranch(ts, s.next);
    assert e.value.None?;
  }

  /**
   * The dangling `else`: in `if (a) if (b) s else t` the `else` belongs to
   * the inner `if`. Whenever the first branch of an `if` is an `if` without
   * an `else`, the outer one has none either.
   */
  lemma {:induction false} DanglingElseBindsInner(ts: seq<Token>, pos: nat)
    requires Cursor(ts, pos)
    requires Grammar.ConditionStatement(ts, pos).Parsed?
    requires Grammar.ConditionStatement(ts, pos).value.elseIfBranch.ConditionStatement?
    requires Grammar.ConditionStatement(ts, pos).value.elseIfBranch.elseBranch.None?
    ensures Grammar.ConditionStatement(ts, pos).value.elseBranch.None?
  {
    var c := Parenthesised(ts, pos, "Missing (", "Missing )");
    var s := Statement(ts, c.next);
    NoElseAfter(ts, c.next);
    assert ElseBranch(ts, s.next) == Parsed(None, s.next);
  }

  /** `expression` never leaves the tree `undefined`: only a missing clause of a `for` does. */
  lemma ExpressionNeverAbsent(ts: seq<Token>, pos: nat)
    requires Cursor(ts, pos)
    ensures Expression(ts, pos).Parsed? ==> Expression(ts, pos).value != Absent
  {
    LevelBuildsNoAssignment(OrLevel, ts, pos);
  }

  /**
   * The condition and increment clauses: `undefined` exactly when the
   * terminator comes at once, and otherwise the expression parsed there.
   */
  lemma ForClauseIs(ts: seq<Token>, pos: nat, terminator: TokenType)
    requires Cursor(ts, pos)
    ensures !Check(ts, pos, terminator) ==> ForClause(ts, pos, terminator) == Expression(ts, pos)
    ensures ForClause(ts, pos, terminator).Parsed? ==>
      (ForClause(ts, pos, terminator).value == Absent <==> Check(ts, pos, terminator))
  {
    ExpressionNeverAbsent(ts, pos);
  }

  /**
   * The initialiser of a `for`: `null` exactly when it is a bare `;`, and
   * otherwise the `var` declaration or the expression statement found there.
   */
  lemma ForInitializerIs(ts: seq<Token>, pos: nat)
    requires Cursor(ts, pos) && ForInitializer(ts, pos).Parsed?
    ensures var init := ForInitializer(ts, pos).value;
      (init.None? <==> Matches(ts, pos, [Semicolon]))
      && (init.Some? && Matches(ts, pos, [Var]) ==> init.value == VariableDeclaration(ts, pos + 1).value)
      && (init.Some? && !Matches(ts, pos, [Var]) ==> init.value == Grammar.ExpressionStatement(ts, pos).value)
  {
  }

  /**
   * The head `( initialiser condition ; increment )` of a `for` read clause
   * by clause from `pos`: after `(`, the initialiser; then the condition
   * clause, ended by `;`; then the increment clause, ended by `)`, after
   * which the cursor is `next`.
   */
  predicate ClausesAt(ts: seq<Token>, pos: nat, h: ForClauses, next: nat)
    requires Cursor(ts, pos)
  {
    ts[pos].kind == LeftParen && pos + 1 < |ts|
    && var init := ForInitializer(ts, pos + 1);
    init.Parsed? && h.initializer == init.value
    && var c := ForClause(ts, init.next, Semicolon);
    c.Parsed? && h.condition == c.value && ts[c.next].kind == Semicolon && c.next + 1 < |ts|
    && var n := ForClause(ts, c.next + 1, RightParen);
    n.Parsed? && h.increment == n.value && ts[n.next].kind == RightParen && next == n.next + 1
  }

  /** `ForHead` reads its clauses in that order. */
  lemma ForHeadClauses(ts: seq<Token>, pos: nat)
    requires Cursor(ts, pos) && ForHead(ts, pos).Parsed?
    ensures ClausesAt(ts, pos, ForHead(ts, pos).value, ForHead(ts, pos).next)
  {
    var init := ForInitializer(ts, pos + 1);
    var c := ForClause(ts, init.next, Semicolon);
    var n := ForClause(ts, c.next + 1, RightParen);
    assert ForHead(ts, pos) == Parsed(ForClauses(init.value, c.value, n.value), n.next + 1);
  }

  /**
   * Every `for` becomes a `while` over the parsed condition whose body is a
   * block of the parsed body and the increment statement, inside an outer
   * block with the initialiser exactly when the initialiser is not `;`.
   */
  lemma ForLoopDesugars(ts: seq<Token>, pos: nat)
    requires Cursor(ts, pos) && Grammar.ForLoopStatement(ts, pos).Parsed?
    ensures var h := ForHead(ts, pos);
      h.Parsed? && Statement(ts, h.next).Parsed?
      && var b := Statement(ts, h.next);
      var s := Grammar.ForLoopStatement(ts, pos).value;
      var loop := Stmt.WhileStatement(h.value.condition, BlockStatement([b.value, Stmt.ExpressionStatement(h.value.increment)]));
      Grammar.ForLoopStatement(ts, pos).next == b.next
      && (s.BlockStatement? <==> !Matches(ts, pos + 1, [Semicolon]))
      && (s.BlockStatement? ==> s == BlockStatement([h.value.initializer.value, loop]))
      && (!s.BlockStatement? ==> s == loop)
  {
    ForHeadClauses(ts, pos);
    ForInitializerIs(ts, pos + 1);
  }

  /** `for (;;) body` loops on an `undefined` condition and runs an `undefined` increment after the body. */
  lemma EmptyForClauses(ts: seq<Token>, pos: nat)
    requires Cursor(ts, pos) && pos + 3 < |ts|
    requires ts[pos].kind == LeftParen && ts[pos + 1].kind == Semicolon
    requires ts[pos + 2].kind == Semicolon && ts[pos + 3].kind == RightParen
    requires Statement(ts, pos + 4).Parsed?
    ensures Grammar.ForLoopStatement(ts, pos)
         == Parsed(Stmt.WhileStatement(Absent, BlockStatement([Statement(ts, pos + 4).value, Stmt.ExpressionStatement(Absent)])),
                   Statement(ts, pos + 4).next)
  {
    assert ForInitializer(ts, pos + 1) == Parsed(None, pos + 2);
    assert ForClause(ts, pos + 2, Semicolon) == Parsed(Absent, pos + 2);
    assert ForClause(ts, pos + 3, RightParen) == Parsed(Absent, pos + 3);
    assert ForHead(ts, pos) == Parsed(ForClauses(None, Absent, Absent), pos + 4);
  }

  /** `r` with `acc` put in front of its statements; a failure stays as it is. */
  function Prepended(acc: seq<Stmt>, r: Result<seq<Stmt>, Failure>): Result<seq<Stmt>, Failure> {
    if r.Success? then Success(acc + r.value) else r
  }

  /**
   * `parse` keeps what it parsed so far in front of what it parses next:
   * running from `acc` gives `acc` followed by what a fresh run from the
   * same cursor gives, or the same failure.
   */
  lemma {:induction false} ProgramKeepsPrefix(ts: seq<Token>, pos: nat, acc: seq<Stmt>)
    requires Cursor(ts, pos)
    ensures Program(ts, pos, acc) == Prepended(acc, Program(ts, pos, []))
    decreases |ts| - pos
  {
    if AtEnd(ts, pos) {
      assert acc + [] == acc;
    } else {
      var s := Declaration(ts, pos);
      if s.Parsed? {
        var rest := Program(ts, s.next, []);
        ProgramKeepsPrefix(ts, s.next, acc + [s.value]);
        ProgramKeepsPrefix(ts, s.next, [s.value]);
        PrependedTwice(acc, s.value, rest);
        assert [] + [s.value] == [s.value];
      }
    }
  }

  /** Putting `acc + [x]` in front is putting `[x]`, then `acc`. */
  lemma PrependedTwice(acc: seq<Stmt>, x: Stmt, r: Result<seq<Stmt>, Failure>)
    ensures Prepended(acc + [x], r) == Prepended(acc, Prepended([x], r))
  {
    if r.Success? {
      assert (acc + [x]) + r.value == acc + ([x] + r.value);
    }
  }

  /**
   * The statements of a program in source order: the declaration at the
   * cursor, then those after it.
   */
  lemma ProgramInSourceOrder(ts: seq<Token>, pos: nat)
    requires Cursor(ts, pos) && Program(ts, pos, []).Success? && !AtEnd(ts, pos)
    ensures Declaration(ts, pos).Parsed?
    ensures Program(ts, Declaration(ts, pos).next, []).Success?
    ensures Program(ts, pos, []).value == [Declaration(ts, pos).value] + Program(ts, Declaration(ts, pos).next, []).value
  {
    var s := Declaration(ts, pos);
    assert Program(ts, pos, []) == Program(ts, s.next, [s.value]) by {
      assert [] + [s.value] == [s.value];
    }
    ProgramKeepsPrefix(ts, s.next, [s.value]);
  }

  /** `parse` fails exactly when some declaration it reaches fails, with that failure. */
  lemma {:induction false} ProgramFailsWithDeclaration(ts: seq<Token>, pos: nat, acc: seq<Stmt>)
    requires Cursor(ts, pos) && Program(ts, pos, acc).Failure?
    ensures exists q | pos <= q < |ts| :: Declaration(ts, q) == Stopped(Program(ts, pos, acc).error)
    decreases |ts| - pos
  {
    var s := Declaration(ts, pos);
    if s.Parsed? {
      ProgramFailsWithDeclaration(ts, s.next, acc + [s.value]);
    }
  }

  /* ---------- recovery ---------- */

  /** A point where `synchronize` stops: EOF, just after a `;`, or before a statement keyword. */
  predicate Boundary(ts: seq<Token>, q: nat)
    requires Cursor(ts, q)
  {
    AtEnd(ts, q) || (0 < q && ts[q - 1].kind == Semicolon) || StartsStatement(ts[q].kind)
  }

  /** `synchronize` stops at the first boundary after the token it steps over. */
  lemma {:induction false} SyncFromStops(ts: seq<Token>, pos: nat)
    requires Cursor(ts, pos) && (0 < pos || AtEnd(ts, pos))
    ensures Boundary(ts, SyncFrom(ts, pos))
    ensures forall k | pos <= k < SyncFrom(ts, pos) :: !Boundary(ts, k)
    decreases |ts| - pos
  {
    if !(AtEnd(ts, pos) || ts[pos - 1].kind == Semicolon || StartsStatement(ts[pos].kind)) {
      SyncFromStops(ts, pos + 1);
    }
  }

  lemma SynchronizeStops(ts: seq<Token>, pos: nat)
    requires Cursor(ts, pos)
    ensures Boundary(ts, Synchronize(ts, pos))
    ensures AtEnd(ts, pos) || pos < Synchronize(ts, pos)
    ensures forall k | Advance(ts, pos) <= k < Synchronize(ts, pos) :: !Boundary(ts, k)
  {
    SyncFromStops(ts, Advance(ts, pos));
  }
}
