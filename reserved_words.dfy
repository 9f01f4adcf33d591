/**
 * `src/reserved-words.ts`: the keyword table. Each key is the text of a
 * keyword member of the source's `Type` enumeration, and each value the
 * token kind of the same name. The `Type` enumeration is not part of this
 * model; the spelling of its members is the language's (`fun` for FUNCTION).
 */
module ReservedWords {

  import opened Results
  import opened Tokens

  const Reserved: map<string, TokenType> := map[
    "or" := Or,
    "and" := And,
    "var" := Var,
    "return" := Return,
    "fun" := Function,
    "if" := If,
    "else" := Else,
    "super" := Super,
    "this" := This,
    "nil" := Nil,
    "class" := Class,
    "for" := For,
    "while" := While,
    "true" := True,
    "false" := False,
    "print" := Print
  ]

  /** The `Type` member of the same name as a keyword token kind, if there is one. */
  function Spelling(k: TokenType): Option<string> {
    match k
    case Or => Some("or")
    case And => Some("and")
    case Var => Some("var")
    case Return => Some("return")
    case Function => Some("fun")
    case If => Some("if")
    case Else => Some("else")
    case Super => Some("super")
    case This => Some("this")
    case Nil => Some("nil")
    case Class => Some("class")
    case For => Some("for")
    case While => Some("while")
    case True => Some("true")
    case False => Some("false")
    case Print => Some("print")
    case _ => None
  }

  /** The kind the scanner gives an identifier-shaped lexeme (`scanner.ts` line 185). */
  function KeywordOrIdentifier(lexeme: string): TokenType {
    if lexeme in Reserved then Reserved[lexeme] else Identifier
  }

  /** Every value of the table is the keyword kind spelled as its key, so never IDENTIFIER or EOF. */
  lemma TableKindsAreKeywords()
    ensures forall w | w in Reserved :: Spelling(Reserved[w]) == Some(w)
  {
  }

  /** Distinct keywords map to distinct kinds. */
  lemma TableInjective()
    ensures forall v, w | v in Reserved && w in Reserved && Reserved[v] == Reserved[w] :: v == w
  {
    TableKindsAreKeywords();
  }

  /** Every keyword kind is in the table under its own spelling. */
  lemma SpellingsAreInTable()
    ensures forall k: TokenType | Spelling(k).Some? :: Spelling(k).value in Reserved && Reserved[Spelling(k).value] == k
  {
  }

  /**
   * A lexeme gets IDENTIFIER exactly when the table does not list it, a
   * keyword kind otherwise, and never EOF; each keyword's own spelling gets
   * its kind.
   */
  lemma KeywordOrIdentifierKinds(lexeme: string)
    ensures var k := KeywordOrIdentifier(lexeme);
      && (k == Identifier <==> lexeme !in Reserved)
      && (lexeme in Reserved ==> Spelling(k).Some?)
      && k != Eof
    ensures forall k: TokenType | Spelling(k).Some? :: KeywordOrIdentifier(Spelling(k).value) == k
  {
    TableKindsAreKeywords();
    SpellingsAreInTable();
  }

  /** Sixteen keywords. */
  lemma TableSize()
    ensures |Reserved| == 16
  {
    var m: map<string, TokenType> := map[];
    assert "or" !in m;
    m := m["or" := Or];
    assert "and" !in m;
    m := m["and" := And];
    assert "var" !in m;
    m := m["var" := Var];
    assert "return" !in m;
    m := m["return" := Return];
    assert "fun" !in m;
    m := m["fun" := Function];
    assert "if" !in m;
    m := m["if" := If];
    assert "else" !in m;
    m := m["else" := Else];
    assert "super" !in m;
    m := m["super" := Super];
    assert "this" !in m;
    m := m["this" := This];
    assert "nil" !in m;
    m := m["nil" := Nil];
    assert "class" !in m;
    m := m["class" := Class];
    assert "for" !in m;
    m := m["for" := For];
    assert "while" !in m;
    m := m["while" := While];
    assert "true" !in m;
    m := m["true" := True];
    assert "false" !in m;
    m := m["false" := False];
    assert "print" !in m;
    m := m["print" := Print];
    assert |m| == 16;
    assert m == Reserved;
  }
}
