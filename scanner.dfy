/**
 * `src/scanner.ts`: the `Scanner` class, a cursor over the source that
 * appends tokens. Its fields are updated step by step as in the source, and
 * each method is proved to do what the functional definition in `Lexical`
 * says; `ScanSource` is the whole run, from construction to `getTokens`.
 */
module Scanning {

  import opened Results
  import opened Utils
  import opened Tokens
  import opened ReservedWords
  import opened Lexical

  class Scanner {
    const source: string
    var tokens: seq<Token>
    var start: nat
    var current: nat
    var line: nat
    /** Set by `error`, after which the process has exited and nothing else runs. */
    var failure: Option<Failure>

    /** What the run has produced: the token list, or the failure that ended the process. */
    function Outcome(): Result<seq<Token>, Failure>
      reads this
    {
      if failure.Some? then Failure(failure.value) else Success(tokens)
    }

    /** The fields after one call of `scanToken` that computed `step`. */
    ghost predicate Stepped(before: seq<Token>, step: Step)
      reads this
    {
      match step
      case Emit(t, n, l) => failure.None? && tokens == before + [t] && current == n && line == l
      case Skip(n, l) => failure.None? && tokens == before && current == n && line == l
      case Fail(f) => failure == Some(f)
    }

    /** The constructor scans the whole source at once. */
    constructor (source: string)
      ensures this.source == source
      ensures Outcome() == Scan(source)
    {
      this.source := source;
      tokens := [];
      start := 0;
      current := 0;
      line := 1;
      failure := None;
      new;
      Tokenize();
    }

    /** `getTokens`. */
    method GetTokens() returns (ts: seq<Token>)
      requires failure.None?
      ensures Success(ts) == Outcome()
    {
      ts := tokens;
    }

    /** The `lexeme` getter: the source from the token start to the cursor. */
    function Lexeme(): string
      reads this
      requires start <= current <= |source|
    {
      source[start..current]
    }

    method Tokenize()
      requires tokens == [] && current == 0 && line == 1 && failure.None?
      modifies this
      ensures Outcome() == Scan(source)
    {
      var length := |source|;
      assert Prefixed(tokens, ScanFrom(source, current, line)) == Scan(source) by {
        match ScanFrom(source, 0, 1)
        case Success(rest) => assert tokens + rest == rest;
        case Failure(_) =>
      }
      while current <= length
        invariant current <= length + 1
        invariant failure.None?
        invariant Scan(source) == Prefixed(tokens, ScanFrom(source, current, line))
        decreases length + 1 - current
      {
        start := current;
        ghost var before, from, at := tokens, current, line;
        ScanToken();
        if failure.Some? {
          return;  // `error` has ended the process
        }
        match StepAt(source, from, at)
        case Emit(t, _, _) =>
          assert ScanFrom(source, from, at) == Prefixed([t], ScanFrom(source, current, line));
          PrefixedAppend(before, [t], ScanFrom(source, current, line));
        case Skip(_, _) =>
          assert ScanFrom(source, from, at) == ScanFrom(source, current, line);
          assert tokens == before;
      }
      var eof := Token(Eof, "", NullLit, line);
      tokens := tokens + [eof];
    }

    method Advance() returns (c: Option<char>)
      modifies this`current
      ensures current == old(current) + 1
      ensures c == (if old(current) < |source| then Some(source[old(current)]) else None)
    {
      current := current + 1;
      c := if current - 1 < |source| then Some(source[current - 1]) else None;
    }

    method ScanToken()
      requires start == current <= |source| && failure.None?
      modifies this
      ensures Stepped(old(tokens), StepAt(source, old(current), old(line)))
    {
      var c := Advance();
      if c.None? {
        return;
      }
      var ch := c.value;
      if IsDigit(ch) {
        Number();
        NumberStepIs(source, start, line, current);
      } else if IsAlpha(ch) {
        Identifier();
      } else {
        Symbol(ch);
      }
    }

    /** The `switch` of `scanToken` on the character `ch` just read. */
    method Symbol(ch: char)
      requires start + 1 == current <= |source| && failure.None? && source[start] == ch
      modifies this
      ensures Stepped(old(tokens), SymbolStep(source, old(start), old(line)))
    {
      match ch
      case '(' => AddToken(LeftParen, NullLit);
      case ')' => AddToken(RightParen, NullLit);
      case '{' => AddToken(LeftBrace, NullLit);
      case '}' => AddToken(RightBrace, NullLit);
      case ',' => AddToken(Comma, NullLit);
      case '.' => AddToken(Dot, NullLit);
      case '-' => AddToken(Minus, NullLit);
      case '+' => AddToken(Plus, NullLit);
      case ';' => AddToken(Semicolon, NullLit);
      case '*' => AddToken(Star, NullLit);
      case '=' =>
        var two := Match('=');
        AddToken(if two then EqualEqual else Equal, NullLit);
      case '<' =>
        var two := Match('=');
        AddToken(if two then LessEqual else Less, NullLit);
      case '>' =>
        var two := Match('=');
        AddToken(if two then GreaterEqual else Greater, NullLit);
      case '!' =>
        var two := Match('=');
        AddToken(if two then BangEqual else Bang, NullLit);
      case '/' =>
        var comment := Match('/');
        if comment {
          while Peek() != '\n' && !IsAtEnd()
            modifies this`current
            invariant start + 2 <= current <= |source|
            invariant forall k | start + 2 <= k < current :: source[k] != '\n'
            decreases |source| - current
          {
            var _ := Advance();
          }
          FindIs(source, start + 2, '\n', current);
        }
        AddToken(Slash, NullLit);
      case '"' => String(ch);
      case '\'' => String(ch);
      case '\n' => NextLine();
      case _ =>  // space, carriage return, tab and every unrecognised character
    }

    method AddToken(kind: TokenType, literal: Lit)
      requires start <= current <= |source|
      modifies this`tokens
      ensures tokens == old(tokens) + [Token(kind, Lexeme(), literal, line)]
    {
      var lexeme := Lexeme();
      var token := Token(kind, lexeme, literal, line);
      tokens := tokens + [token];
    }

    method String(quote: char)
      requires current == start + 1 <= |source| && source[start] == quote && quote != '\0'
      requires failure.None?
      modifies this`current, this`line, this`tokens, this`failure
      ensures Stepped(old(tokens), StringStep(source, old(start), quote, old(line)))
    {
      while Peek() != quote && !IsAtEnd()
        modifies this`current, this`line
        invariant start < current <= |source|
        invariant forall k | start + 1 <= k < current :: source[k] != quote
        invariant line == old(line) + LineFeeds(source, start + 1, current)
        decreases |source| - current
      {
        if Peek() == '\n' {
          NextLine();
        }
        var _ := Advance();
      }
      FindIs(source, start + 1, quote, current);
      if IsAtEnd() {
        StringStepIs(source, start, quote, old(line), line);
        failure := Some(Error(line, "Unterminated string"));
        return;
      }
      ghost var close := current;
      StringStepIs(source, start, quote, old(line), line);
      var _ := Advance();
      var value := source[start + 1..current - 1];
      assert value == source[start + 1..close] && Lexeme() == source[start..close + 1];
      AddToken(TokenType.String, StringLit(value));
    }

    method Number()
      requires current == start + 1 <= |source| && IsDigit(source[start])
      requires failure.None?
      modifies this`current, this`tokens
      ensures current == NumberEnd(source, old(current))
      ensures tokens == old(tokens) + [NumberToken(source[old(start)..current], line)]
    {
      SkipDigits();
      if Peek() == '.' && IsDigit(PeekNext()) {
        var _ := Advance();
        SkipDigits();
      }
      var lexeme := Lexeme();
      assert lexeme[0] == source[start];
      AddToken(TokenType.Number, NumberLit(ParseInt(lexeme).value));
      assert tokens[|tokens| - 1] == NumberToken(lexeme, line);
    }

    /** The `while (isDigit(this.peek())) this.advance()` loop of `number`, which it runs twice. */
    method SkipDigits()
      requires current <= |source|
      modifies this`current
      ensures current == DigitsEnd(source, old(current))
    {
      ghost var from := current;
      while IsDigit(Peek())
        invariant from <= current <= |source|
        invariant forall k | from <= k < current :: IsDigit(source[k])
        decreases |source| - current
      {
        var _ := Advance();
      }
      DigitsEndIs(source, from, current);
    }

    method Identifier()
      requires current == start + 1 <= |source|
      requires failure.None?
      modifies this`current, this`tokens
      ensures Stepped(old(tokens), WordStep(source, old(start), old(line)))
    {
      while IsAlphaNumeric(Peek())
        modifies this`current
        invariant start < current <= |source|
        invariant forall k | start + 1 <= k < current :: IsAlphaNumeric(source[k])
        decreases |source| - current
      {
        var _ := Advance();
      }
      WordEndIs(source, start + 1, current);
      var kind := KeywordOrIdentifier(Lexeme());
      AddToken(kind, NullLit);
    }

    /** `match`: consume the next character when it is `symbol`. */
    method Match(symbol: char) returns (matched: bool)
      modifies this`current
      ensures matched == (old(current) < |source| && source[old(current)] == symbol)
      ensures current == if matched then old(current) + 1 else old(current)
    {
      if IsAtEnd() {
        return false;
      }
      if source[current] != symbol {
        return false;
      }
      current := current + 1;
      return true;
    }

    /** `peek`: the character under the cursor, NUL at the end. */
    function Peek(): char
      reads this
    {
      if IsAtEnd() then '\0' else source[current]
    }

    /** `peekNext`: the character after it, NUL past the end. */
    function PeekNext(): char
      reads this
    {
      if current + 1 >= |source| then '\0' else source[current + 1]
    }

    function IsAtEnd(): bool
      reads this
    {
      current >= |source|
    }

    method NextLine()
      modifies this`line
      ensures line == old(line) + 1
    {
      line := line + 1;
    }
  }

  lemma NumberStepIs(src: string, start: nat, line: nat, e: nat)
    requires start < |src| && IsDigit(src[start]) && e == NumberEnd(src, start + 1)
    ensures start < e && src[start..e][0] == src[start]
    ensures NumberStep(src, start, line) == Emit(NumberToken(src[start..e], line), e, line)
  {
  }

  /** `StringStep` once the closing quote, or the end, has been found at `Find(src, start + 1, quote)`. */
  lemma StringStepIs(src: string, start: nat, quote: char, line0: nat, line: nat)
    requires start < |src|
    requires line == line0 + LineFeeds(src, start + 1, Find(src, start + 1, quote))
    ensures var close := Find(src, start + 1, quote);
      close == |src| ==> StringStep(src, start, quote, line0) == Fail(Error(line, "Unterminated string"))
    ensures var close := Find(src, start + 1, quote);
      close < |src| ==>
        StringStep(src, start, quote, line0)
        == Emit(Token(TokenType.String, src[start..close + 1], StringLit(src[start + 1..close]), line), close + 1, line)
  {
  }

  lemma PrefixedAppend(a: seq<Token>, b: seq<Token>, r: Result<seq<Token>, Failure>)
    ensures Prefixed(a, Prefixed(b, r)) == Prefixed(a + b, r)
  {
    if r.Success? {
      assert a + (b + r.value) == (a + b) + r.value;
    }
  }

  /**
   * Scanning a source text: build a scanner and take its tokens. The result
   * is the token list of `Lexical.Scan`, or the failure with which `error`
   * ended the process.
   */
  method ScanSource(source: string) returns (r: Result<seq<Token>, Failure>)
    ensures r == Scan(source)
  {
    var scanner := new Scanner(source);
    if scanner.failure.Some? {
      return Failure(scanner.failure.value);
    }
    var ts := scanner.GetTokens();
    return Success(ts);
  }
}
