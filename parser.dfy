/**
 * `src/parser.ts`: the `Parser` class, a cursor over the token list that the
 * recursive-descent methods move forward. Each method returns its node or
 * the failure that ended the run (a `Result` in place of the exception or
 * the exit of the process), and is proved to compute the like-named
 * function of `Grammar` from the cursor it started at.
 */
module Parsing {

  import opened Results
  import opened Utils
  import opened Tokens
  import opened Expressions
  import opened Statements
  import opened Grammar

  /** A method's result and the cursor after it, in the form `Grammar` gives. */
  function AsParsed<T>(r: Result<T, Failure>, next: nat): PResult<T> {
    match r
    case Success(v) => Parsed(v, next)
    case Failure(f) => Stopped(f)
  }

  class Parser {
    const tokens: seq<Token>
    var current: nat
    var statements: seq<Stmt>

    constructor (tokens: seq<Token>)
      requires Terminated(tokens)
      ensures this.tokens == tokens && current == 0 && statements == []
    {
      this.tokens := tokens;
      current := 0;
      statements := [];
    }

    /** `parse`: declarations until EOF, appended to `statements`, which it returns. */
    method Parse() returns (r: Result<seq<Stmt>, Failure>)
      requires Cursor(tokens, current)
      modifies this
      ensures r == Program(tokens, old(current), old(statements))
      ensures r.Success? ==> statements == r.value
    {
      while !IsAtEnd()
        invariant Cursor(tokens, current)
        invariant Program(tokens, old(current), old(statements)) == Program(tokens, current, statements)
        decreases |tokens| - current
      {
        ghost var at := current;
        var s := Declaration();
        if s.Failure? {
          return Failure(s.error);
        }
        statements := statements + [s.value];
      }
      return Success(statements);
    }

    /** `block`, after `{`. */
    method Block() returns (r: Result<seq<Stmt>, Failure>)
      requires Cursor(tokens, current)
      modifies this`current
      ensures AsParsed(r, current) == Grammar.Block(tokens, old(current), [])
      decreases |tokens| - current, 19
    {
      var found := [];
      while !Check(RightBrace) && !IsAtEnd()
        invariant old(current) <= current < |tokens|
        invariant Grammar.Block(tokens, old(current), []) == Grammar.Block(tokens, current, found)
        decreases |tokens| - current
      {
        var s :- Declaration();
        found := found + [s];
      }
      var _ :- Consume(RightBrace, "Expected }");
      return Success(found);
    }

    /** `conditionStatement`, after `if`. */
    method ConditionStatement() returns (r: Result<Stmt, Failure>)
      requires Cursor(tokens, current)
      modifies this`current
      ensures AsParsed(r, current) == Grammar.ConditionStatement(tokens, old(current))
      decreases |tokens| - current, 16
    {
      var condition :- Parenthesised("Missing (", "Missing )");
      var elseIfBranch :- Statement();
      var elseBranch :- ElseBranch();
      return Success(Stmt.ConditionStatement(condition, elseIfBranch, elseBranch));
    }

    /** The `( expression )` head that `conditionStatement` and `whileStatement` both read. */
    method Parenthesised(open: string, close: string) returns (r: Result<Expr, Failure>)
      requires Cursor(tokens, current)
      modifies this`current
      ensures AsParsed(r, current) == Grammar.Parenthesised(tokens, old(current), open, close)
      decreases |tokens| - current, 16
    {
      var _ :- Consume(LeftParen, open);
      var condition :- Expression();
      var _ :- Consume(RightParen, close);
      return Success(condition);
    }

    /** The optional `else` part of `conditionStatement`; `undefined` without one. */
    method ElseBranch() returns (r: Result<Option<Stmt>, Failure>)
      requires Cursor(tokens, current)
      modifies this`current
      ensures AsParsed(r, current) == Grammar.ElseBranch(tokens, old(current))
      decreases |tokens| - current, 16
    {
      var hasElse := Match([Else]);
      if hasElse {
        var s :- Statement();
        return Success(Some(s));
      }
      return Success(None);
    }

    /** `expression`. */
    method Expression() returns (r: Result<Expr, Failure>)
      requires Cursor(tokens, current)
      modifies this`current
      ensures AsParsed(r, current) == Grammar.Expression(tokens, old(current))
      decreases |tokens| - current, 15
    {
      r := Assignment();
    }

    /** `advance`, which returns `previous()`: nothing when the cursor stays at the first token. */
    method Advance() returns (t: Option<Token>)
      requires Cursor(tokens, current)
      modifies this`current
      ensures current == Grammar.Advance(tokens, old(current))
      ensures t == Previous()
    {
      if !IsAtEnd() {
        current := current + 1;
      }
      t := Previous();
    }

    /** `previous`: the token before the cursor (`undefined` before the first one). */
    function Previous(): Option<Token>
      reads this
      requires current <= |tokens|
    {
      if current == 0 then None else Some(tokens[current - 1])
    }

    function Check(kind: TokenType): bool
      reads this
      requires Cursor(tokens, current)
    {
      Grammar.Check(tokens, current, kind)
    }

    function Peek(): Token
      reads this
      requires Cursor(tokens, current)
    {
      tokens[current]
    }

    function IsAtEnd(): bool
      reads this
      requires Cursor(tokens, current)
    {
      AtEnd(tokens, current)
    }

    /** `match(...kinds)`: try the kinds in order and step over the first one checked. */
    method Match(kinds: seq<TokenType>) returns (matched: bool)
      requires Cursor(tokens, current)
      modifies this`current
      ensures matched == Matches(tokens, old(current), kinds)
      ensures current == if matched then old(current) + 1 else old(current)
    {
      for i := 0 to |kinds|
        invariant current == old(current)
        invariant forall j | 0 <= j < i :: !Check(kinds[j])
      {
        if Check(kinds[i]) {
          var _ := Advance();
          return true;
        }
      }
      return false;
    }

    /**
     * `or`, `and`, `equality`, `comparison`, `addition` and `multiplication`,
     * which differ only in their operators, their operand and the node they
     * build: an operand, then the loop.
     */
    method BinaryLevel(l: Precedence) returns (r: Result<Expr, Failure>)
      requires Cursor(tokens, current)
      modifies this`current
      ensures AsParsed(r, current) == Grammar.BinaryLevel(l, tokens, old(current))
      decreases |tokens| - current, 3 + 2 * Height(l)
    {
      var left :- Operand(l);
      r := LevelLoop(l, left);
    }

    /**
     * The `while (this.match(...))` loop of a level, from the operand `left`:
     * each operator and the operand after it extend the expression so far.
     */
    method LevelLoop(l: Precedence, left: Expr) returns (r: Result<Expr, Failure>)
      requires Cursor(tokens, current)
      modifies this`current
      ensures AsParsed(r, current) == Grammar.LevelLoop(l, left, tokens, old(current))
      decreases |tokens| - current, 2 + 2 * Height(l)
    {
      var expr := left;
      while true
        invariant old(current) <= current < |tokens|
        invariant Grammar.LevelLoop(l, left, tokens, old(current)) == Grammar.LevelLoop(l, expr, tokens, current)
        decreases |tokens| - current
      {
        var more := Match(Operators(l));
        if !more {
          return Success(expr);
        }
        var operator := tokens[current - 1];
        var right :- Operand(l);
        expr := Combine(l, expr, operator, right);
      }
    }

    /** The operand method a level calls: the next tighter level, or `unary` under `multiplication`. */
    method Operand(l: Precedence) returns (r: Result<Expr, Failure>)
      requires Cursor(tokens, current)
      modifies this`current
      ensures AsParsed(r, current) == Grammar.Operand(l, tokens, old(current))
      decreases |tokens| - current, 2 + 2 * Height(l)
    {
      if l == MultiplicationLevel {
        r := Unary();
      } else {
        r := BinaryLevel(Tighter(l));
      }
    }

    /** `unary`. */
    method Unary() returns (r: Result<Expr, Failure>)
      requires Cursor(tokens, current)
      modifies this`current
      ensures AsParsed(r, current) == Grammar.Unary(tokens, old(current))
      decreases |tokens| - current, 1
    {
      var prefixed := Match([Bang, Minus]);
      if prefixed {
        var operator := tokens[current - 1];
        var right :- Unary();
        return Success(Expr.Unary(operator, right));
      }
      r := Primary();
    }

    /** `declaration`. */
    method Declaration() returns (r: Result<Stmt, Failure>)
      requires Cursor(tokens, current)
      modifies this`current
      ensures AsParsed(r, current) == Grammar.Declaration(tokens, old(current))
      decreases |tokens| - current, 18
    {
      var isVar := Match([Var]);
      if isVar {
        r := VariableDeclaration();
      } else {
        r := Statement();
      }
    }

    /** `primary`. */
    method Primary() returns (r: Result<Expr, Failure>)
      requires Cursor(tokens, current)
      modifies this`current
      ensures AsParsed(r, current) == Grammar.Primary(tokens, old(current))
      decreases |tokens| - current, 0
    {
      var m := Match([True]);
      if m {
        return Success(Literal(BoolLit(true)));
      }
      m := Match([False]);
      if m {
        return Success(Literal(BoolLit(false)));
      }
      m := Match([Nil]);
      if m {
        return Success(Literal(NullLit));
      }
      m := Match([Number, String]);
      if m {
        return Success(Literal(tokens[current - 1].literal));
      }
      m := Match([LeftParen]);
      if m {
        var inner :- Expression();
        var _ :- Consume(RightParen, "Expected ) after expression");
        return Success(Grouping(inner));
      }
      m := Match([Identifier]);
      if m {
        return Success(Variable(tokens[current - 1]));
      }
      return Failure(Uncaught(ToString(Peek()) + ": Expected expression."));
    }

    /** `assignment`. */
    method Assignment() returns (r: Result<Expr, Failure>)
      requires Cursor(tokens, current)
      modifies this`current
      ensures AsParsed(r, current) == Grammar.Assignment(tokens, old(current))
      decreases |tokens| - current, 14
    {
      var expression :- BinaryLevel(OrLevel);
      var assigns := Match([Equal]);
      if assigns {
        var value :- Assignment();
        if expression.Variable? {
          return Success(Expr.Assignment(expression.name, value));
        }
        return Failure(Uncaught(""));
      }
      return Success(expression);
    }

    /** `statement`. */
    method Statement() returns (r: Result<Stmt, Failure>)
      requires Cursor(tokens, current)
      modifies this`current
      ensures AsParsed(r, current) == Grammar.Statement(tokens, old(current))
      decreases |tokens| - current, 17
    {
      var m := Match([Print]);
      if m {
        r := PrintStatement();
        return;
      }
      m := Match([LeftBrace]);
      if m {
        var found :- Block();
        return Success(BlockStatement(found));
      }
      m := Match([If]);
      if m {
        r := ConditionStatement();
        return;
      }
      m := Match([While]);
      if m {
        r := WhileStatement();
        return;
      }
      m := Match([For]);
      if m {
        r := ForLoopStatement();
        return;
      }
      r := ExpressionStatement();
    }

    /** `printStatement`, after `print`. */
    method PrintStatement() returns (r: Result<Stmt, Failure>)
      requires Cursor(tokens, current)
      modifies this`current
      ensures AsParsed(r, current) == Grammar.PrintStatement(tokens, old(current))
      decreases |tokens| - current, 16
    {
      var expression :- Expression();
      var _ :- Consume(Semicolon, "Semicolon missing after value");
      return Success(Stmt.PrintStatement(expression));
    }

    /** `expressionStatement`. */
    method ExpressionStatement() returns (r: Result<Stmt, Failure>)
      requires Cursor(tokens, current)
      modifies this`current
      ensures AsParsed(r, current) == Grammar.ExpressionStatement(tokens, old(current))
      decreases |tokens| - current, 16
    {
      var expression :- Expression();
      var _ :- Consume(Semicolon, "Semicolon missing after statement");
      return Success(Stmt.ExpressionStatement(expression));
    }

    /** `variableDeclarationStatement`, after `var`. */
    method VariableDeclaration() returns (r: Result<Stmt, Failure>)
      requires Cursor(tokens, current)
      modifies this`current
      ensures AsParsed(r, current) == Grammar.VariableDeclaration(tokens, old(current))
      decreases |tokens| - current, 16
    {
      var name :- Consume(Identifier, "expected variable name");
      var initialised := Match([Equal]);
      if initialised {
        var initializer :- Expression();
        var _ :- Consume(Semicolon, "Semicolon missing after declaration");
        return Success(VariableDeclarationStatement(name, initializer));
      }
      return Failure(Uncaught(""));
    }

    /** `whileStatement`, after `while`. */
    method WhileStatement() returns (r: Result<Stmt, Failure>)
      requires Cursor(tokens, current)
      modifies this`current
      ensures AsParsed(r, current) == Grammar.WhileStatement(tokens, old(current))
      decreases |tokens| - current, 16
    {
      var condition :- Parenthesised("Expected ( after while statement", "Expected ) after while statement");
      var body :- Statement();
      return Success(Stmt.WhileStatement(condition, body));
    }

    /** `forLoopStatement`, after `for`: the clauses, the body, then the loop built from them. */
    method ForLoopStatement() returns (r: Result<Stmt, Failure>)
      requires Cursor(tokens, current)
      modifies this`current
      ensures AsParsed(r, current) == Grammar.ForLoopStatement(tokens, old(current))
      decreases |tokens| - current, 18
    {
      var clauses :- ForHead();
      var body :- Statement();
      return Success(ForLoop(clauses.initializer, clauses.condition, clauses.increment, body));
    }

    /** The parenthesised clauses that `forLoopStatement` reads first. */
    method ForHead() returns (r: Result<ForClauses, Failure>)
      requires Cursor(tokens, current)
      modifies this`current
      ensures AsParsed(r, current) == Grammar.ForHead(tokens, old(current))
      decreases |tokens| - current, 17
    {
      var _ :- Consume(LeftParen, "Expected (");
      var initializer :- ForInitializer();
      var condition :- ForClause(Semicolon);
      var _ :- Consume(Semicolon, "Expect ';' after loop condition.");
      var increment :- ForClause(RightParen);
      var _ :- Consume(RightParen, "Expect ')' after for clauses.");
      return Success(ForClauses(initializer, condition, increment));
    }

    /** The initialiser clause of `forLoopStatement`: `;` (null), a `var` declaration or an expression statement. */
    method ForInitializer() returns (r: Result<Option<Stmt>, Failure>)
      requires Cursor(tokens, current)
      modifies this`current
      ensures AsParsed(r, current) == Grammar.ForInitializer(tokens, old(current))
      decreases |tokens| - current, 17
    {
      var m := Match([Semicolon]);
      if m {
        return Success(None);
      }
      m := Match([Var]);
      if m {
        var s :- VariableDeclaration();
        return Success(Some(s));
      }
      var s :- ExpressionStatement();
      return Success(Some(s));
    }

    /** The condition or increment clause of `forLoopStatement`, left `undefined` when `terminator` follows at once. */
    method ForClause(terminator: TokenType) returns (r: Result<Expr, Failure>)
      requires Cursor(tokens, current)
      modifies this`current
      ensures AsParsed(r, current) == Grammar.ForClause(tokens, old(current), terminator)
      decreases |tokens| - current, 16
    {
      if !Check(terminator) {
        r := Expression();
      } else {
        r := Success(Absent);
      }
    }

    /** `consume`: step over a token of the kind expected, or `error` at the line of the token found. */
    method Consume(kind: TokenType, message: string) returns (r: Result<Token, Failure>)
      requires Cursor(tokens, current)
      modifies this`current
      ensures AsParsed(r, current) == Grammar.Consume(tokens, old(current), kind, message)
    {
      if Check(kind) {
        var t := Advance();
        return Success(t.value);
      }
      return Failure(Error(Peek().line, message));
    }

    /** `synchronize`. */
    method Synchronize()
      requires Cursor(tokens, current)
      modifies this`current
      ensures current == Grammar.Synchronize(tokens, old(current))
    {
      var _ := Advance();
      while !IsAtEnd()
        invariant Cursor(tokens, current) && (0 < current || AtEnd(tokens, current))
        invariant Grammar.Synchronize(tokens, old(current)) == SyncFrom(tokens, current)
        decreases |tokens| - current
      {
        if Previous().value.kind == Semicolon {
          return;
        }
        if StartsStatement(Peek().kind) {
          return;
        }
        var _ := Advance();
      }
    }
  }

  /** Parsing a token list: a new parser and its `parse`. */
  method ParseTokens(tokens: seq<Token>) returns (r: Result<seq<Stmt>, Failure>)
    requires Terminated(tokens)
    ensures r == Program(tokens, 0, [])
  {
    var parser := new Parser(tokens);
    r := parser.Parse();
  }
}
