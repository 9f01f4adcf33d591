/**
 * `src/token.ts` and the token kinds it is built from. The `TokenType`
 * enumeration itself is not part of this model; its members are rebuilt from
 * the names the scanner, the parser and the keyword table use.
 */
module Tokens {

  import opened Utils

  datatype TokenType =
    // single-character punctuation
    | LeftParen | RightParen | LeftBrace | RightBrace
    | Comma | Dot | Minus | Plus | Semicolon | Slash | Star
    // one or two characters
    | Bang | BangEqual | Equal | EqualEqual
    | Greater | GreaterEqual | Less | LessEqual
    // literals
    | Identifier | String | Number
    // keywords
    | And | Class | Else | False | Function | For | If | Nil | Or
    | Print | Return | Super | This | True | Var | While
    | Eof

  /** The literal a token carries: `string | number | boolean | null`. */
  datatype Lit = NullLit | NumberLit(n: int) | StringLit(s: string) | BoolLit(b: bool)

  /** A token keeps the kind, lexeme, literal and line it was built with. */
  datatype Token = Token(kind: TokenType, lexeme: string, literal: Lit, line: nat)

  /** The enumeration member's name, as `${this.type}` renders it. */
  function KindName(k: TokenType): string {
    match k
    case LeftParen => "LEFT_PAREN"
    case RightParen => "RIGHT_PAREN"
    case LeftBrace => "LEFT_BRACE"
    case RightBrace => "RIGHT_BRACE"
    case Comma => "COMMA"
    case Dot => "DOT"
    case Minus => "MINUS"
    case Plus => "PLUS"
    case Semicolon => "SEMICOLON"
    case Slash => "SLASH"
    case Star => "STAR"
    case Bang => "BANG"
    case BangEqual => "BANG_EQUAL"
    case Equal => "EQUAL"
    case EqualEqual => "EQUAL_EQUAL"
    case Greater => "GREATER"
    case GreaterEqual => "GREATER_EQUAL"
    case Less => "LESS"
    case LessEqual => "LESS_EQUAL"
    case Identifier => "IDENTIFIER"
    case String => "STRING"
    case Number => "NUMBER"
    case And => "AND"
    case Class => "CLASS"
    case Else => "ELSE"
    case False => "FALSE"
    case Function => "FUNCTION"
    case For => "FOR"
    case If => "IF"
    case Nil => "NIL"
    case Or => "OR"
    case Print => "PRINT"
    case Return => "RETURN"
    case Super => "SUPER"
    case This => "THIS"
    case True => "TRUE"
    case Var => "VAR"
    case While => "WHILE"
    case Eof => "EOF"
  }

  /** `${literal}` for each literal kind. */
  function LitText(l: Lit): string {
    match l
    case NullLit => "null"
    case NumberLit(n) => IntToString(n)
    case StringLit(s) => s
    case BoolLit(b) => if b then "true" else "false"
  }

  /** `toString`: kind, lexeme and literal, separated by single spaces. */
  function ToString(t: Token): string {
    KindName(t.kind) + " " + t.lexeme + " " + LitText(t.literal)
  }

  /**
   * The rendering is the kind's name, one space, the lexeme, one space and
   * the literal's text, in that order; the line number plays no part in it.
   */
  lemma ToStringLayout(t: Token, otherLine: nat)
    ensures var s := ToString(t); var n := |KindName(t.kind)|; var m := n + 1 + |t.lexeme|;
      && |s| == m + 1 + |LitText(t.literal)|
      && s[..n] == KindName(t.kind) && s[n] == ' '
      && s[n + 1..m] == t.lexeme && s[m] == ' '
      && s[m + 1..] == LitText(t.literal)
    ensures ToString(t) == ToString(t.(line := otherLine))
  {
  }
}
