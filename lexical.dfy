/**
 * A functional definition of what `src/scanner.ts` computes. `StepAt` is one
 * call of `scanToken` with the cursor at `start`; `ScanFrom` is the loop of
 * `tokenize` from there on. The `Scanning.Scanner` class is proved to
 * produce exactly `Scan(source)`; the lemmas below state what the tokens are.
 */
module Lexical {

  import opened Results
  import opened Utils
  import opened Tokens
  import opened ReservedWords

  /** One call of `scanToken`: a token emitted, nothing emitted, or `error` called. */
  datatype Step =
    | Emit(token: Token, next: nat, line: nat)
    | Skip(next: nat, line: nat)
    | Fail(failure: Failure)

  /** Number of line feeds in `src[i..j]`. */
  function LineFeeds(src: string, i: nat, j: nat): nat
    requires i <= j <= |src|
    decreases j - i
  {
    if i == j then 0 else LineFeeds(src, i, j - 1) + (if src[j - 1] == '\n' then 1 else 0)
  }

  /** End of the maximal run of letters, digits and underscores starting at `i`. */
  function WordEnd(src: string, i: nat): (j: nat)
    requires i <= |src|
    ensures i <= j <= |src|
    decreases |src| - i
  {
    if i < |src| && IsAlphaNumeric(src[i]) then WordEnd(src, i + 1) else i
  }

  /** The first position at or after `i` holding `c`, or the end of the source. */
  function Find(src: string, i: nat, c: char): (j: nat)
    requires i <= |src|
    ensures i <= j <= |src|
    decreases |src| - i
  {
    if i < |src| && src[i] != c then Find(src, i + 1, c) else i
  }

  /* ---------- the runs the scanner skips over ---------- */

  lemma {:induction false} WordEndMaximal(src: string, i: nat)
    requires i <= |src|
    ensures forall k | i <= k < WordEnd(src, i) :: IsAlphaNumeric(src[k])
    ensures WordEnd(src, i) == |src| || !IsAlphaNumeric(src[WordEnd(src, i)])
    decreases |src| - i
  {
    if i < |src| && IsAlphaNumeric(src[i]) {
      WordEndMaximal(src, i + 1);
    }
  }

  lemma {:induction false} WordEndIs(src: string, i: nat, j: nat)
    requires i <= j <= |src|
    requires forall k | i <= k < j :: IsAlphaNumeric(src[k])
    requires j == |src| || !IsAlphaNumeric(src[j])
    ensures WordEnd(src, i) == j
    decreases j - i
  {
    if i < j {
      WordEndIs(src, i + 1, j);
    }
  }

  lemma {:induction false} FindFirst(src: string, i: nat, c: char)
    requires i <= |src|
    ensures forall k | i <= k < Find(src, i, c) :: src[k] != c
    ensures Find(src, i, c) == |src| || src[Find(src, i, c)] == c
    decreases |src| - i
  {
    if i < |src| && src[i] != c {
      FindFirst(src, i + 1, c);
    }
  }

  lemma {:induction false} FindIs(src: string, i: nat, c: char, j: nat)
    requires i <= j <= |src|
    requires forall k | i <= k < j :: src[k] != c
    requires j == |src| || src[j] == c
    ensures Find(src, i, c) == j
    decreases j - i
  {
    if i < j {
      FindIs(src, i + 1, c, j);
    }
  }

  /**
   * End of a number whose first digit is at `cur - 1`: the digit run, then a
   * dot and a second digit run only when a digit follows the dot.
   */
  function NumberEnd(src: string, cur: nat): (e: nat)
    requires cur <= |src|
    ensures cur <= e <= |src|
  {
    var j := DigitsEnd(src, cur);
    if j < |src| && src[j] == '.' && j + 1 < |src| && IsDigit(src[j + 1]) then DigitsEnd(src, j + 1) else j
  }

  /** The kind of a one-character token that needs no look-ahead. */
  function Punctuation(c: char): Option<TokenType> {
    match c
    case '(' => Some(LeftParen)
    case ')' => Some(RightParen)
    case '{' => Some(LeftBrace)
    case '}' => Some(RightBrace)
    case ',' => Some(Comma)
    case '.' => Some(Dot)
    case '-' => Some(Minus)
    case '+' => Some(Plus)
    case ';' => Some(Semicolon)
    case '*' => Some(Star)
    case _ => None
  }

  /** The kinds of `=`, `<`, `>`, `!` alone and followed by `=`. */
  function OperatorKinds(c: char): Option<(TokenType, TokenType)> {
    match c
    case '=' => Some((Equal, EqualEqual))
    case '<' => Some((Less, LessEqual))
    case '>' => Some((Greater, GreaterEqual))
    case '!' => Some((Bang, BangEqual))
    case _ => None
  }

  /** The NUMBER token for `lexeme`, whose literal is `parseInt(lexeme, 10)`. */
  function NumberToken(lexeme: string, line: nat): Token
    requires |lexeme| > 0 && IsDigit(lexeme[0])
  {
    Token(Number, lexeme, NumberLit(ParseInt(lexeme).value), line)
  }

  /** `number()`, entered with the first digit at `start` already read. */
  function NumberStep(src: string, start: nat, line: nat): Step
    requires start < |src| && IsDigit(src[start])
  {
    var e := NumberEnd(src, start + 1);
    assert src[start..e][0] == src[start];
    Emit(NumberToken(src[start..e], line), e, line)
  }

  /** `identifier()`, entered with the first letter at `start` already read. */
  function WordStep(src: string, start: nat, line: nat): Step
    requires start < |src|
  {
    var e := WordEnd(src, start + 1);
    Emit(Token(KeywordOrIdentifier(src[start..e]), src[start..e], NullLit, line), e, line)
  }

  /** `string(quote)`, entered with the opening quote at `start` already read. */
  function StringStep(src: string, start: nat, quote: char, line: nat): Step
    requires start < |src|
  {
    var close := Find(src, start + 1, quote);
    var l := line + LineFeeds(src, start + 1, close);
    if close == |src| then Fail(Error(l, "Unterminated string"))
    else Emit(Token(String, src[start..close + 1], StringLit(src[start + 1..close]), l), close + 1, l)
  }

  /** The `/` case: a lone slash, or a comment running up to the next line feed. */
  function SlashStep(src: string, start: nat, line: nat): Step
    requires start < |src|
  {
    var cur := start + 1;
    var e := if cur < |src| && src[cur] == '/' then Find(src, cur + 1, '\n') else cur;
    Emit(Token(Slash, src[start..e], NullLit, line), e, line)
  }

  /**
   * The `switch` of `scanToken` on a character `c` at `start` that is neither
   * a digit nor a letter (those reach its `default` case, which does nothing).
   */
  function SymbolStep(src: string, start: nat, line: nat): Step
    requires start < |src|
  {
    var c := src[start];
    var cur := start + 1;
    if Punctuation(c).Some? then
      Emit(Token(Punctuation(c).value, src[start..cur], NullLit, line), cur, line)
    else if OperatorKinds(c).Some? then
      var (single, double) := OperatorKinds(c).value;
      if cur < |src| && src[cur] == '=' then Emit(Token(double, src[start..cur + 1], NullLit, line), cur + 1, line)
      else Emit(Token(single, src[start..cur], NullLit, line), cur, line)
    else if c == '/' then SlashStep(src, start, line)
    else if c == '"' || c == '\'' then StringStep(src, start, c, line)
    else if c == '\n' then Skip(cur, line + 1)
    else Skip(cur, line)  // space, carriage return, tab, and every unrecognised character
  }

  /** One call of `scanToken` with the cursor at `start`. */
  function StepAt(src: string, start: nat, line: nat): (r: Step)
    requires start <= |src|
    ensures r.Emit? ==> start < r.next <= |src| && r.token.lexeme == src[start..r.next]
    ensures r.Skip? ==> r.next == start + 1
  {
    if start == |src| then
      // reading past the end yields `undefined`, which matches no case
      Skip(start + 1, line)
    else if IsDigit(src[start]) then NumberStep(src, start, line)
    else if IsAlpha(src[start]) then WordStep(src, start, line)
    else SymbolStep(src, start, line)
  }

  /** Tokens appended in front of a later result, failures passed through. */
  function Prefixed(ts: seq<Token>, r: Result<seq<Token>, Failure>): Result<seq<Token>, Failure> {
    match r
    case Success(rest) => Success(ts + rest)
    case Failure(f) => Failure(f)
  }

  /** The `tokenize` loop from cursor `pos` and line `line` on, followed by the EOF token. */
  function ScanFrom(src: string, pos: nat, line: nat): Result<seq<Token>, Failure>
    requires pos <= |src| + 1
    decreases |src| + 1 - pos
  {
    if pos > |src| then Success([Token(Eof, "", NullLit, line)])
    else
      match StepAt(src, pos, line)
      case Emit(t, next, l) => Prefixed([t], ScanFrom(src, next, l))
      case Skip(next, l) => ScanFrom(src, next, l)
      case Fail(f) => Failure(f)
  }

  /** The tokens of a whole source text: cursor 0, line 1. */
  function Scan(src: string): Result<seq<Token>, Failure> {
    ScanFrom(src, 0, 1)
  }

  /* ---------- line counting ---------- */

  lemma {:induction false} LineFeedsSplit(src: string, i: nat, j: nat, k: nat)
    requires i <= j <= k <= |src|
    ensures LineFeeds(src, i, k) == LineFeeds(src, i, j) + LineFeeds(src, j, k)
    decreases k - j
  {
    if j < k {
      LineFeedsSplit(src, i, j, k - 1);
    }
  }

  lemma {:induction false} LineFeedsNone(src: string, i: nat, j: nat)
    requires i <= j <= |src|
    requires forall k | i <= k < j :: src[k] != '\n'
    ensures LineFeeds(src, i, j) == 0
    decreases j - i
  {
    if i < j {
      LineFeedsNone(src, i, j - 1);
    }
  }

  /** The line feeds at and after the cursor `pos`; none once it is past the end. */
  function FeedsAhead(src: string, pos: nat): nat {
    if pos <= |src| then LineFeeds(src, pos, |src|) else 0
  }

  lemma FeedsAheadStep(src: string, pos: nat)
    requires pos < |src|
    ensures FeedsAhead(src, pos) == (if src[pos] == '\n' then 1 else 0) + FeedsAhead(src, pos + 1)
  {
    LineFeedsSplit(src, pos, pos + 1, |src|);
  }

  /** An emitted token that spans no line feed keeps the line. */
  ghost predicate SameLineEmit(src: string, start: nat, line: nat, r: Step) {
    && r.Emit? && start < r.next <= |src| && r.line == line && r.token.line == line
    && (forall k | start <= k < r.next :: src[k] != '\n')
  }

  /** The line an emitted token ends on counts the line feeds it spans. */
  ghost predicate LineCounted(src: string, start: nat, line: nat, r: Step) {
    r.Emit? ==> start < r.next <= |src| && r.line == line + LineFeeds(src, start, r.next) && r.token.line == r.line
  }

  lemma SameLineCounted(src: string, start: nat, line: nat, r: Step)
    requires SameLineEmit(src, start, line, r)
    ensures LineCounted(src, start, line, r)
  {
    LineFeedsNone(src, start, r.next);
  }

  lemma NumberLine(src: string, start: nat, line: nat)
    requires start < |src| && IsDigit(src[start])
    ensures SameLineEmit(src, start, line, NumberStep(src, start, line))
  {
    var j := DigitsEnd(src, start + 1);
    DigitsEndMaximal(src, start + 1);
    if j + 1 < |src| {
      DigitsEndMaximal(src, j + 1);
    }
  }

  lemma WordLine(src: string, start: nat, line: nat)
    requires start < |src| && IsAlpha(src[start])
    ensures SameLineEmit(src, start, line, WordStep(src, start, line))
  {
    WordEndMaximal(src, start + 1);
  }

  lemma SlashLine(src: string, start: nat, line: nat)
    requires start < |src| && src[start] == '/'
    ensures SameLineEmit(src, start, line, SlashStep(src, start, line))
  {
    if start + 1 < |src| {
      FindFirst(src, start + 2, '\n');
    }
  }

  lemma StringLine(src: string, start: nat, quote: char, line: nat)
    requires start < |src| && src[start] == quote && quote != '\n'
    ensures LineCounted(src, start, line, StringStep(src, start, quote, line))
  {
    var r := StringStep(src, start, quote, line);
    FindFirst(src, start + 1, quote);
    if r.Emit? {
      var close := r.next - 1;
      LineFeedsSplit(src, start, start + 1, close);
      LineFeedsSplit(src, start, close, close + 1);
    }
  }

  /**
   * Each call of `scanToken` adds to the line counter exactly the line feeds
   * it moved over, and an emitted token carries the counter as it is at
   * emission; no call emits an EOF token.
   */
  lemma StepLine(src: string, start: nat, line: nat)
    requires start <= |src|
    ensures var r := StepAt(src, start, line);
      && LineCounted(src, start, line, r)
      && (r.Emit? ==> r.token.kind != Eof)
      && (r.Skip? ==> r.line == line + if start < |src| && src[start] == '\n' then 1 else 0)
  {
    var r := StepAt(src, start, line);
    if start < |src| {
      var c := src[start];
      if IsDigit(c) {
        NumberLine(src, start, line);
        SameLineCounted(src, start, line, r);
      } else if IsAlpha(c) {
        WordLine(src, start, line);
        SameLineCounted(src, start, line, r);
      } else if Punctuation(c).Some? || OperatorKinds(c).Some? {
        assert SameLineEmit(src, start, line, r);
        SameLineCounted(src, start, line, r);
      } else if c == '/' {
        SlashLine(src, start, line);
        SameLineCounted(src, start, line, r);
      } else if c == '"' || c == '\'' {
        StringLine(src, start, c, line);
      }
    }
  }

  /** A well-formed token list: one EOF token at the end and nowhere else, lines never decreasing. */
  ghost predicate EndsWithSingleEof(ts: seq<Token>, lastLine: nat) {
    && |ts| > 0
    && ts[|ts| - 1] == Token(Eof, "", NullLit, lastLine)
    && (forall i | 0 <= i < |ts| - 1 :: ts[i].kind != Eof)
    && (forall i, j | 0 <= i <= j < |ts| :: ts[i].line <= ts[j].line)
  }

  /**
   * From any cursor, a successful scan ends with exactly one EOF token
   * whose line is the starting line plus the line feeds still ahead, and
   * the lines of the tokens never decrease from the starting line on.
   */
  ghost predicate ShapeFrom(src: string, pos: nat, line: nat)
    requires pos <= |src| + 1
  {
    var r := ScanFrom(src, pos, line);
    r.Success? ==> EndsWithSingleEof(r.value, line + FeedsAhead(src, pos)) && line <= r.value[0].line
  }

  lemma {:induction false} ScanFromShape(src: string, pos: nat, line: nat)
    requires pos <= |src| + 1
    ensures ShapeFrom(src, pos, line)
    decreases |src| + 1 - pos
  {
    if pos <= |src| {
      StepLine(src, pos, line);
      var r := StepAt(src, pos, line);
      if r.Emit? {
        ScanFromShape(src, r.next, r.line);
        EmitShape(src, pos, line);
      } else if r.Skip? {
        ScanFromShape(src, r.next, r.line);
        if pos < |src| {
          FeedsAheadStep(src, pos);
        }
      }
    }
  }

  lemma EmitShape(src: string, pos: nat, line: nat)
    requires pos <= |src|
    requires var r := StepAt(src, pos, line);
      r.Emit? && LineCounted(src, pos, line, r) && r.token.kind != Eof && ShapeFrom(src, r.next, r.line)
    ensures ShapeFrom(src, pos, line)
  {
    var r := StepAt(src, pos, line);
    var rest := ScanFrom(src, r.next, r.line);
    assert ScanFrom(src, pos, line) == Prefixed([r.token], rest);
    if rest.Success? {
      var lastLine := r.line + FeedsAhead(src, r.next);
      assert lastLine == line + FeedsAhead(src, pos) by {
        LineFeedsSplit(src, pos, r.next, |src|);
      }
      assert EndsWithSingleEof(rest.value, lastLine);
      ConsShape(r.token, rest.value, lastLine);
    }
  }

  lemma ConsShape(t: Token, rest: seq<Token>, lastLine: nat)
    requires EndsWithSingleEof(rest, lastLine) && t.line <= rest[0].line && t.kind != Eof
    ensures EndsWithSingleEof([t] + rest, lastLine)
  {
    var ts := [t] + rest;
    forall i, j | 0 <= i <= j < |ts| ensures ts[i].line <= ts[j].line {
      if i > 0 {
        assert ts[i] == rest[i - 1] && ts[j] == rest[j - 1];
      } else if j > 0 {
        assert ts[j] == rest[j - 1];
      }
    }
  }

  /**
   * The token list of a whole source ends with exactly one EOF token, with
   * an empty lexeme, a null literal and the final line count (one plus the
   * number of line feeds in the source), and token lines never decrease.
   */
  lemma ScanEndsWithEof(src: string)
    ensures Scan(src).Success? ==> EndsWithSingleEof(Scan(src).value, 1 + LineFeeds(src, 0, |src|))
  {
    ScanFromShape(src, 0, 1);
  }

  /**
   * `=`, `<`, `>` and `!` followed by `=` give one two-character token;
   * otherwise the one-character kind.
   */
  lemma OperatorTokens(src: string, start: nat, line: nat)
    requires start < |src| && src[start] in "=<>!"
    ensures var r := StepAt(src, start, line);
      var c := src[start];
      var two := start + 1 < |src| && src[start + 1] == '=';
      && r.Emit? && r.line == line && r.token.line == line && r.token.literal == NullLit
      && r.next == (if two then start + 2 else start + 1)
      && (c == '=' ==> r.token.kind == if two then EqualEqual else Equal)
      && (c == '<' ==> r.token.kind == if two then LessEqual else Less)
      && (c == '>' ==> r.token.kind == if two then GreaterEqual else Greater)
      && (c == '!' ==> r.token.kind == if two then BangEqual else Bang)
  {
  }

  /**
   * A number is the maximal digit run, extended by a dot and a second digit
   * run only when a digit follows the dot (so `1.` is a NUMBER and then a
   * DOT); its literal is the value of the integer part alone.
   */
  lemma NumberScanned(src: string, start: nat, line: nat)
    requires start < |src| && IsDigit(src[start])
    ensures var r := StepAt(src, start, line);
      var j := DigitsEnd(src, start + 1);
      var fraction := j + 1 < |src| && src[j] == '.' && IsDigit(src[j + 1]);
      && r.Emit? && r.token.kind == Number && r.line == line && r.token.line == line
      && r.next == (if fraction then DigitsEnd(src, j + 1) else j)
      && (forall k | start <= k < j :: IsDigit(src[k]))
      && r.token.literal == NumberLit(DigitsValue(src[start..j]))
  {
    DigitsEndMaximal(src, start + 1);
    NumberLiteral(src, start, line);
  }

  /** The literal of a number is the value of its integer part. */
  lemma NumberLiteral(src: string, start: nat, line: nat)
    requires start < |src| && IsDigit(src[start])
    ensures var j := DigitsEnd(src, start + 1);
      NumberStep(src, start, line).token.literal == NumberLit(DigitsValue(src[start..j]))
  {
    DigitsEndMaximal(src, start + 1);
    ParseIntOfSlice(src, start, DigitsEnd(src, start + 1), NumberEnd(src, start + 1));
  }

  /** `parseInt` of `src[start..e]` reads the digits up to `j` when a non-digit or the end follows them. */
  lemma ParseIntOfSlice(src: string, start: nat, j: nat, e: nat)
    requires start < j <= e <= |src|
    requires forall k | start <= k < j :: IsDigit(src[k])
    requires j == e || !IsDigit(src[j])
    ensures ParseInt(src[start..e]) == Some(DigitsValue(src[start..j]))
  {
    var lexeme, digits, k := src[start..e], src[start..j], j - start;
    forall i | 0 <= i < k
      ensures IsDigit(lexeme[i]) && lexeme[i] == digits[i]
    {
      assert lexeme[i] == src[start + i] == digits[i];
    }
    DigitsEndIs(lexeme, 0, k);
    PrefixValueAgree(lexeme, digits, k);
  }

  /**
   * An identifier is the maximal run of letters, digits and underscores; it
   * gets the keyword's kind when the table lists it, IDENTIFIER otherwise.
   */
  lemma WordToken(src: string, start: nat, line: nat)
    requires start < |src| && IsAlpha(src[start])
    ensures var r := StepAt(src, start, line);
      var e := WordEnd(src, start + 1);
      var w := src[start..e];
      && r.Emit? && r.next == e && r.line == line && r.token.literal == NullLit
      && (forall k | start <= k < e :: IsAlphaNumeric(src[k]))
      && (e == |src| || !IsAlphaNumeric(src[e]))
      && r.token.kind == (if w in Reserved then Reserved[w] else Identifier)
  {
    WordEndMaximal(src, start + 1);
  }

  /**
   * A string closes only on the quote character that opened it; the literal
   * is the text between the quotes, every line feed in it advances the line,
   * and reaching the end of the source first is a fatal error.
   */
  lemma StringToken(src: string, start: nat, line: nat)
    requires start < |src| && (src[start] == '"' || src[start] == '\'')
    ensures var r := StepAt(src, start, line);
      var q := src[start];
      var close := Find(src, start + 1, q);
      var l := line + LineFeeds(src, start + 1, close);
      && (close == |src| ==> r == Fail(Error(l, "Unterminated string")))
      && (close < |src| ==>
            && r.Emit? && r.token.kind == String && r.next == close + 1 && src[close] == q
            && r.token.literal == StringLit(src[start + 1..close])
            && (forall k | start + 1 <= k < close :: src[k] != q)
            && r.line == l && r.token.line == l)
  {
    FindFirst(src, start + 1, src[start]);
  }

  /**
   * `//` runs to the next line feed or the end of the source, stopping before
   * the line feed, and still emits one SLASH token whose lexeme is the whole
   * comment.
   */
  lemma CommentToken(src: string, start: nat, line: nat)
    requires start + 1 < |src| && src[start] == '/' && src[start + 1] == '/'
    ensures var r := StepAt(src, start, line);
      && r.Emit? && r.token.kind == Slash && r.line == line
      && (r.next == |src| || src[r.next] == '\n')
      && (forall k | start <= k < r.next :: src[k] != '\n')
  {
    FindFirst(src, start + 2, '\n');
  }

  /**
   * Space, carriage return, tab and every character the scanner does not
   * recognise emit nothing; a line feed emits nothing and advances the line.
   */
  lemma SilentCharacters(src: string, start: nat, line: nat)
    requires start < |src|
    requires var c := src[start];
      !IsDigit(c) && !IsAlpha(c) && c !in "(){},.-+;*=<>!/\"'"
    ensures StepAt(src, start, line) == Skip(start + 1, if src[start] == '\n' then line + 1 else line)
  {
  }
}
