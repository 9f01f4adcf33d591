/**
 * A functional definition of what `src/parser.ts` computes. Each function
 * reads the token list `ts` from the cursor `pos` on and gives the node the
 * like-named method of `Parser` builds together with the cursor after it,
 * or the failure that ended the run: `consume` calls `error`, which exits
 * the process, and the other dead ends `throw` an `Error` nobody catches.
 * `Parsing.Parser` is proved to compute exactly these functions.
 */
module Grammar {

  import opened Results
  import opened Utils
  import opened Tokens
  import opened Expressions
  import opened Statements

  /** The parser's input as the scanner produces it: a token list ending with the EOF token. */
  predicate Terminated(ts: seq<Token>) {
    |ts| > 0 && ts[|ts| - 1].kind == Eof
  }

  /** A cursor into such a list. */
  predicate Cursor(ts: seq<Token>, pos: nat) {
    Terminated(ts) && pos < |ts|
  }

  /** The outcome of parsing from a cursor: a value and the cursor after it, or the failure. */
  datatype PResult<+T> = Parsed(value: T, next: nat) | Stopped(failure: Failure)

  /* ---------- the cursor primitives ---------- */

  /** `isAtEnd`: the token under the cursor is EOF. */
  predicate AtEnd(ts: seq<Token>, pos: nat)
    requires pos < |ts|
  {
    ts[pos].kind == Eof
  }

  /** `check`: never true at EOF, whatever kind is asked for. */
  predicate Check(ts: seq<Token>, pos: nat, kind: TokenType)
    requires pos < |ts|
  {
    !AtEnd(ts, pos) && ts[pos].kind == kind
  }

  /** `match(...kinds)`: whether one of `kinds` is checked at the cursor. */
  predicate Matches(ts: seq<Token>, pos: nat, kinds: seq<TokenType>)
    requires pos < |ts|
  {
    !AtEnd(ts, pos) && ts[pos].kind in kinds
  }

  /** `advance`: the cursor moves by one, except at EOF, where it stays. */
  function Advance(ts: seq<Token>, pos: nat): nat
    requires pos < |ts|
  {
    if AtEnd(ts, pos) then pos else pos + 1
  }

  /** `consume`: the expected token and the cursor after it, or `error` at the line of the token found. */
  function Consume(ts: seq<Token>, pos: nat, kind: TokenType, message: string): (r: PResult<Token>)
    requires Cursor(ts, pos)
    ensures r.Parsed? ==> r.value == ts[pos] && r.value.kind == kind && r.next == pos + 1 < |ts|
  {
    if Check(ts, pos, kind) then Parsed(ts[pos], pos + 1) else Stopped(Error(ts[pos].line, message))
  }

  /* ---------- expressions ---------- */

  /** The six binary precedence levels, loosest first. */
  datatype Precedence = OrLevel | AndLevel | EqualityLevel | ComparisonLevel | AdditionLevel | MultiplicationLevel

  /** The operator kinds each level's loop matches. */
  function Operators(l: Precedence): seq<TokenType> {
    match l
    case OrLevel => [Or]
    case AndLevel => [And]
    case EqualityLevel => [BangEqual, EqualEqual]
    case ComparisonLevel => [Less, LessEqual, Greater, GreaterEqual]
    case AdditionLevel => [Minus, Plus]
    case MultiplicationLevel => [Slash, Star]
  }

  /** How many binary levels bind tighter than `l`. */
  function Height(l: Precedence): nat {
    match l
    case OrLevel => 5
    case AndLevel => 4
    case EqualityLevel => 3
    case ComparisonLevel => 2
    case AdditionLevel => 1
    case MultiplicationLevel => 0
  }

  /** The level whose method parses the operands of `l`. */
  function Tighter(l: Precedence): (t: Precedence)
    requires l != MultiplicationLevel
    ensures Height(t) + 1 == Height(l)
  {
    match l
    case OrLevel => AndLevel
    case AndLevel => EqualityLevel
    case EqualityLevel => ComparisonLevel
    case ComparisonLevel => AdditionLevel
    case AdditionLevel => MultiplicationLevel
  }

  /** `and` and `or` build `Logical` nodes; the other levels build `Binary` ones. */
  function Combine(l: Precedence, left: Expr, operator: Token, right: Expr): Expr {
    if l == OrLevel || l == AndLevel then Logical(left, operator, right) else Binary(left, operator, right)
  }

  /** `expression`. */
  function Expression(ts: seq<Token>, pos: nat): (r: PResult<Expr>)
    requires Cursor(ts, pos)
    ensures r.Parsed? ==> pos < r.next < |ts|
    decreases |ts| - pos, 15
  {
    Assignment(ts, pos)
  }

  /**
   * `assignment`: an `or` expression, and when `=` follows it, the value to
   * its right (parsed first) assigned to it, which must be a bare variable.
   */
  function Assignment(ts: seq<Token>, pos: nat): (r: PResult<Expr>)
    requires Cursor(ts, pos)
    ensures r.Parsed? ==> pos < r.next < |ts|
    decreases |ts| - pos, 14
  {
    var target := BinaryLevel(OrLevel, ts, pos);
    if target.Stopped? then Stopped(target.failure)
    else if Matches(ts, target.next, [Equal]) then
      var value := Assignment(ts, target.next + 1);
      if value.Stopped? then Stopped(value.failure)
      else if target.value.Variable? then Parsed(Expr.Assignment(target.value.name, value.value), value.next)
      else Stopped(Uncaught(""))
    else target
  }

  /** `or`, `and`, `equality`, `comparison`, `addition` and `multiplication`: an operand, then the loop. */
  function BinaryLevel(l: Precedence, ts: seq<Token>, pos: nat): (r: PResult<Expr>)
    requires Cursor(ts, pos)
    ensures r.Parsed? ==> pos < r.next < |ts|
    decreases |ts| - pos, 3 + 2 * Height(l)
  {
    var left := Operand(l, ts, pos);
    if left.Stopped? then left else LevelLoop(l, left.value, ts, left.next)
  }

  /** The operand of a level: the next tighter level, or `unary` below multiplication. */
  function Operand(l: Precedence, ts: seq<Token>, pos: nat): (r: PResult<Expr>)
    requires Cursor(ts, pos)
    ensures r.Parsed? ==> pos < r.next < |ts|
    decreases |ts| - pos, 2 + 2 * Height(l)
  {
    if l == MultiplicationLevel then Unary(ts, pos) else BinaryLevel(Tighter(l), ts, pos)
  }

  /**
   * The `while (this.match(...))` loop of a level with `left` built so far:
   * each operator and the operand after it extend the node on the left.
   */
  function LevelLoop(l: Precedence, left: Expr, ts: seq<Token>, pos: nat): (r: PResult<Expr>)
    requires Cursor(ts, pos)
    ensures r.Parsed? ==> pos <= r.next < |ts|
    decreases |ts| - pos, 2 + 2 * Height(l)
  {
    if Matches(ts, pos, Operators(l)) then
      var right := Operand(l, ts, pos + 1);
      if right.Stopped? then right
      else LevelLoop(l, Combine(l, left, ts[pos], right.value), ts, right.next)
    else Parsed(left, pos)
  }

  /** `unary`: `!` or `-` applied to a unary expression, else a primary one. */
  function Unary(ts: seq<Token>, pos: nat): (r: PResult<Expr>)
    requires Cursor(ts, pos)
    ensures r.Parsed? ==> pos < r.next < |ts|
    decreases |ts| - pos, 1
  {
    if Matches(ts, pos, [Bang, Minus]) then
      var right := Unary(ts, pos + 1);
      if right.Stopped? then right else Parsed(Expr.Unary(ts[pos], right.value), right.next)
    else Primary(ts, pos)
  }

  /** `primary`: a literal, a parenthesised expression or a variable. */
  function Primary(ts: seq<Token>, pos: nat): (r: PResult<Expr>)
    requires Cursor(ts, pos)
    ensures r.Parsed? ==> pos < r.next < |ts|
    decreases |ts| - pos, 0
  {
    if Matches(ts, pos, [True]) then Parsed(Literal(BoolLit(true)), pos + 1)
    else if Matches(ts, pos, [False]) then Parsed(Literal(BoolLit(false)), pos + 1)
    else if Matches(ts, pos, [Nil]) then Parsed(Literal(NullLit), pos + 1)
    else if Matches(ts, pos, [Number, String]) then Parsed(Literal(ts[pos].literal), pos + 1)
    else if Matches(ts, pos, [LeftParen]) then
      var inner := Expression(ts, pos + 1);
      if inner.Stopped? then inner
      else
        var close := Consume(ts, inner.next, RightParen, "Expected ) after expression");
        if close.Stopped? then Stopped(close.failure) else Parsed(Grouping(inner.value), close.next)
    else if Matches(ts, pos, [Identifier]) then Parsed(Variable(ts[pos]), pos + 1)
    else Stopped(Uncaught(ToString(ts[pos]) + ": Expected expression."))
  }

  /* ---------- statements ---------- */

  /** `declaration`: a `var` declaration or a statement. */
  function Declaration(ts: seq<Token>, pos: nat): (r: PResult<Stmt>)
    requires Cursor(ts, pos)
    ensures r.Parsed? ==> pos < r.next < |ts|
    decreases |ts| - pos, 18
  {
    if Matches(ts, pos, [Var]) then VariableDeclaration(ts, pos + 1) else Statement(ts, pos)
  }

  /** `statement`: dispatch on the first token, an expression statement by default. */
  function Statement(ts: seq<Token>, pos: nat): (r: PResult<Stmt>)
    requires Cursor(ts, pos)
    ensures r.Parsed? ==> pos < r.next < |ts|
    decreases |ts| - pos, 17
  {
    if Matches(ts, pos, [Print]) then PrintStatement(ts, pos + 1)
    else if Matches(ts, pos, [LeftBrace]) then
      var block := Block(ts, pos + 1, []);
      if block.Stopped? then Stopped(block.failure) else Parsed(BlockStatement(block.value), block.next)
    else if Matches(ts, pos, [If]) then ConditionStatement(ts, pos + 1)
    else if Matches(ts, pos, [While]) then WhileStatement(ts, pos + 1)
    else if Matches(ts, pos, [For]) then ForLoopStatement(ts, pos + 1)
    else ExpressionStatement(ts, pos)
  }

  /** `printStatement`, after `print`. */
  function PrintStatement(ts: seq<Token>, pos: nat): (r: PResult<Stmt>)
    requires Cursor(ts, pos)
    ensures r.Parsed? ==> pos < r.next < |ts|
    decreases |ts| - pos, 16
  {
    var e := Expression(ts, pos);
    if e.Stopped? then Stopped(e.failure)
    else
      var semicolon := Consume(ts, e.next, Semicolon, "Semicolon missing after value");
      if semicolon.Stopped? then Stopped(semicolon.failure) else Parsed(Stmt.PrintStatement(e.value), semicolon.next)
  }

  /** `expressionStatement`. */
  function ExpressionStatement(ts: seq<Token>, pos: nat): (r: PResult<Stmt>)
    requires Cursor(ts, pos)
    ensures r.Parsed? ==> pos < r.next < |ts|
    decreases |ts| - pos, 16
  {
    var e := Expression(ts, pos);
    if e.Stopped? then Stopped(e.failure)
    else
      var semicolon := Consume(ts, e.next, Semicolon, "Semicolon missing after statement");
      if semicolon.Stopped? then Stopped(semicolon.failure) else Parsed(Stmt.ExpressionStatement(e.value), semicolon.next)
  }

  /** `variableDeclarationStatement`, after `var`: a name, `=`, an initialiser and `;`. */
  function VariableDeclaration(ts: seq<Token>, pos: nat): (r: PResult<Stmt>)
    requires Cursor(ts, pos)
    ensures r.Parsed? ==> pos < r.next < |ts|
    decreases |ts| - pos, 16
  {
    var name := Consume(ts, pos, Identifier, "expected variable name");
    if name.Stopped? then Stopped(name.failure)
    else if Matches(ts, name.next, [Equal]) then
      var initializer := Expression(ts, name.next + 1);
      if initializer.Stopped? then Stopped(initializer.failure)
      else
        var semicolon := Consume(ts, initializer.next, Semicolon, "Semicolon missing after declaration");
        if semicolon.Stopped? then Stopped(semicolon.failure)
        else Parsed(VariableDeclarationStatement(name.value, initializer.value), semicolon.next)
    else Stopped(Uncaught(""))
  }

  /**
   * `block`, after `{`, with `acc` parsed so far: declarations up to `}` or
   * EOF, then the `}` is consumed.
   */
  function Block(ts: seq<Token>, pos: nat, acc: seq<Stmt>): (r: PResult<seq<Stmt>>)
    requires Cursor(ts, pos)
    ensures r.Parsed? ==> pos < r.next < |ts|
    decreases |ts| - pos, 19
  {
    if !Check(ts, pos, RightBrace) && !AtEnd(ts, pos) then
      var s := Declaration(ts, pos);
      if s.Stopped? then Stopped(s.failure) else Block(ts, s.next, acc + [s.value])
    else
      var close := Consume(ts, pos, RightBrace, "Expected }");
      if close.Stopped? then Stopped(close.failure) else Parsed(acc, close.next)
  }

  /** `conditionStatement`, after `if`: the else-branch is taken only when `else` follows the first branch. */
  function ConditionStatement(ts: seq<Token>, pos: nat): (r: PResult<Stmt>)
    requires Cursor(ts, pos)
    ensures r.Parsed? ==> pos < r.next < |ts|
    decreases |ts| - pos, 16
  {
    var condition := Parenthesised(ts, pos, "Missing (", "Missing )");
    if condition.Stopped? then Stopped(condition.failure)
    else
      var elseIfBranch := Statement(ts, condition.next);
      if elseIfBranch.Stopped? then elseIfBranch
      else
        var elseBranch := ElseBranch(ts, elseIfBranch.next);
        if elseBranch.Stopped? then Stopped(elseBranch.failure)
        else Parsed(Stmt.ConditionStatement(condition.value, elseIfBranch.value, elseBranch.value), elseBranch.next)
  }

  /** The `( expression )` head of `if` and `while`, each with its own two messages. */
  function Parenthesised(ts: seq<Token>, pos: nat, open: string, close: string): (r: PResult<Expr>)
    requires Cursor(ts, pos)
    ensures r.Parsed? ==> pos < r.next < |ts|
    decreases |ts| - pos, 16
  {
    var opening := Consume(ts, pos, LeftParen, open);
    if opening.Stopped? then Stopped(opening.failure)
    else
      var condition := Expression(ts, opening.next);
      if condition.Stopped? then condition
      else
        var closing := Consume(ts, condition.next, RightParen, close);
        if closing.Stopped? then Stopped(closing.failure) else Parsed(condition.value, closing.next)
  }

  /** What follows the first branch of an `if`: `else` and a statement, or nothing (`undefined`). */
  function ElseBranch(ts: seq<Token>, pos: nat): (r: PResult<Option<Stmt>>)
    requires Cursor(ts, pos)
    ensures r.Parsed? ==> pos <= r.next < |ts|
    ensures !Matches(ts, pos, [Else]) ==> r == Parsed(None, pos)
    decreases |ts| - pos, 16
  {
    if Matches(ts, pos, [Else]) then
      var s := Statement(ts, pos + 1);
      if s.Stopped? then Stopped(s.failure) else Parsed(Some(s.value), s.next)
    else Parsed(None, pos)
  }

  /** `whileStatement`, after `while`. */
  function WhileStatement(ts: seq<Token>, pos: nat): (r: PResult<Stmt>)
    requires Cursor(ts, pos)
    ensures r.Parsed? ==> pos < r.next < |ts|
    decreases |ts| - pos, 16
  {
    var condition := Parenthesised(ts, pos, "Expected ( after while statement", "Expected ) after while statement");
    if condition.Stopped? then Stopped(condition.failure)
    else
      var body := Statement(ts, condition.next);
      if body.Stopped? then body else Parsed(Stmt.WhileStatement(condition.value, body.value), body.next)
  }

  /** The initialiser clause of a `for`: `;` (null), a `var` declaration or an expression statement. */
  function ForInitializer(ts: seq<Token>, pos: nat): (r: PResult<Option<Stmt>>)
    requires Cursor(ts, pos)
    ensures r.Parsed? ==> pos < r.next < |ts|
    decreases |ts| - pos, 17
  {
    if Matches(ts, pos, [Semicolon]) then Parsed(None, pos + 1)
    else
      var s := if Matches(ts, pos, [Var]) then VariableDeclaration(ts, pos + 1) else ExpressionStatement(ts, pos);
      if s.Stopped? then Stopped(s.failure) else Parsed(Some(s.value), s.next)
  }

  /** The condition or increment clause of a `for`: left `undefined` when `terminator` comes at once. */
  function ForClause(ts: seq<Token>, pos: nat, terminator: TokenType): (r: PResult<Expr>)
    requires Cursor(ts, pos)
    ensures r.Parsed? ==> pos <= r.next < |ts|
    ensures Check(ts, pos, terminator) ==> r == Parsed(Absent, pos)
    decreases |ts| - pos, 16
  {
    if !Check(ts, pos, terminator) then Expression(ts, pos) else Parsed(Absent, pos)
  }

  /**
   * The statement `forLoopStatement` builds from its clauses. The increment
   * test `!== null` always holds (a missing increment is `undefined`), so
   * the body is always followed by the increment statement; the condition
   * test `=== null` never holds, so a missing condition stays `undefined`;
   * only a `;` initialiser is `null`, and then no outer block is built.
   */
  function ForLoop(initializer: Option<Stmt>, condition: Expr, increment: Expr, body: Stmt): Stmt {
    var loop := Stmt.WhileStatement(condition, BlockStatement([body, Stmt.ExpressionStatement(increment)]));
    if initializer.Some? then BlockStatement([initializer.value, loop]) else loop
  }

  /** The three clauses between the parentheses of a `for`. */
  datatype ForClauses = ForClauses(initializer: Option<Stmt>, condition: Expr, increment: Expr)

  /** The parenthesised head of a `for`: its clauses, each checked for its terminator. */
  function ForHead(ts: seq<Token>, pos: nat): (r: PResult<ForClauses>)
    requires Cursor(ts, pos)
    ensures r.Parsed? ==> pos < r.next < |ts|
    decreases |ts| - pos, 17
  {
    var open := Consume(ts, pos, LeftParen, "Expected (");
    if open.Stopped? then Stopped(open.failure)
    else
      var initializer := ForInitializer(ts, open.next);
      if initializer.Stopped? then Stopped(initializer.failure)
      else
        var condition := ForClause(ts, initializer.next, Semicolon);
        if condition.Stopped? then Stopped(condition.failure)
        else
          var semicolon := Consume(ts, condition.next, Semicolon, "Expect ';' after loop condition.");
          if semicolon.Stopped? then Stopped(semicolon.failure)
          else
            var increment := ForClause(ts, semicolon.next, RightParen);
            if increment.Stopped? then Stopped(increment.failure)
            else
              var close := Consume(ts, increment.next, RightParen, "Expect ')' after for clauses.");
              if close.Stopped? then Stopped(close.failure)
              else Parsed(ForClauses(initializer.value, condition.value, increment.value), close.next)
  }

  /** `forLoopStatement`, after `for`. */
  function ForLoopStatement(ts: seq<Token>, pos: nat): (r: PResult<Stmt>)
    requires Cursor(ts, pos)
    ensures r.Parsed? ==> pos < r.next < |ts|
    decreases |ts| - pos, 18
  {
    var head := ForHead(ts, pos);
    if head.Stopped? then Stopped(head.failure)
    else
      var body := Statement(ts, head.next);
      if body.Stopped? then body
      else Parsed(ForLoop(head.value.initializer, head.value.condition, head.value.increment, body.value), body.next)
  }

  /** The loop of `parse` with `acc` parsed so far: declarations until the EOF token. */
  function Program(ts: seq<Token>, pos: nat, acc: seq<Stmt>): (r: Result<seq<Stmt>, Failure>)
    requires Cursor(ts, pos)
    decreases |ts| - pos
  {
    if AtEnd(ts, pos) then Success(acc)
    else
      var s := Declaration(ts, pos);
      if s.Stopped? then Failure(s.failure) else Program(ts, s.next, acc + [s.value])
  }

  /* ---------- error recovery ---------- */

  /** The kinds that start a statement, where `synchronize` stops before the token. */
  predicate StartsStatement(k: TokenType) {
    k in {Class, Function, Var, For, If, While, Print, Return}
  }

  /** `synchronize`: step over one token, then on until EOF, just past a `;`, or before a statement keyword. */
  function Synchronize(ts: seq<Token>, pos: nat): (q: nat)
    requires Cursor(ts, pos)
    ensures pos <= q < |ts|
  {
    SyncFrom(ts, Advance(ts, pos))
  }

  /** The loop of `synchronize`, from the cursor `pos`. */
  function SyncFrom(ts: seq<Token>, pos: nat): (q: nat)
    requires Cursor(ts, pos) && (0 < pos || AtEnd(ts, pos))
    ensures pos <= q < |ts|
    decreases |ts| - pos
  {
    if AtEnd(ts, pos) || ts[pos - 1].kind == Semicolon || StartsStatement(ts[pos].kind) then pos
    else SyncFrom(ts, pos + 1)
  }
}
