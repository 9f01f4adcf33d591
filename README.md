# ts-lox in Dafny

A model of the tree-walking Lox interpreter of the `ts-lox` repository: the
scanner that turns a source string into tokens, the recursive-descent parser
that turns tokens into statements, the environment chain, and the interpreter
that runs statements and evaluates expressions, with `LoxFunction.call`. The
top-level driver (`src/index.ts`) is modelled as its scan–parse–interpret
sequence.

Each stage that the source writes imperatively has two halves:

- a pure specification: `Lexical` for the scanner, `Grammar` for the parser and
  `Semantics` for the interpreter;
- a class that keeps the source's fields and loops: `Scanning.Scanner`,
  `Parsing.Parser` and `Interpreting.Interpreter`, with `Environments.Environment`.

Every method of a class is proved to compute what the specification function
of the same role computes. The properties are stated and proved about those
functions: token shapes and lines, associativity and precedence, the
desugaring of `for`, short-circuiting, what `call` binds, and so on.

Modules follow the source files:

| file | module | source |
|---|---|---|
| results.dfy | `Results` | `Option`/`Result` wrappers |
| utils.dfy | `Utils` | `src/utils.ts`, and `parseInt` as the scanner uses it |
| tokens.dfy | `Tokens` | `src/token.ts` and the token kinds |
| reserved_words.dfy | `ReservedWords` | `src/reserved-words.ts` |
| lexical.dfy, scanner.dfy | `Lexical`, `Scanning` | `src/scanner.ts` |
| expressions.dfy, statements.dfy | `Expressions`, `Statements` | `src/expression.ts`, `src/statement.ts` |
| grammar.dfy, grammar_lemmas.dfy, parser.dfy | `Grammar`, `GrammarLemmas`, `Parsing` | `src/parser.ts` |
| values.dfy | `Values` | runtime values and the JavaScript operators of `src/interpreter.ts` |
| environments.dfy | `Environments` | `src/environment.ts` |
| semantics.dfy, semantics_lemmas.dfy, interpreter.dfy | `Semantics`, `SemanticsLemmas`, `Interpreting` | `src/interpreter.ts`, `src/lox-function.ts` |
| running.dfy | `Running` | `src/index.ts` |

The interpreter's state is the two root maps (the one `environment` starts as,
and `globals`) and the console. `define` and `get` both hand the call up to the
root of a chain, so every environment a block or call creates reads and writes
one of those two maps. `Semantics` names the map in use by a `Scope`:
`MainScope` or `GlobalScope`. An evaluation ends in a `Completion`:

- `Normal`: a value;
- `Thrown`: a JavaScript `Error` or `TypeError`;
- `Gap`: a case whose JavaScript result the model does not represent, such as
  a coercion or a fraction;
- `OutOfFuel`: a run longer than the fuel bound the caller supplies.

Where the code departs from what a Lox interpreter is meant to do, the model
follows the code:

- A `//` comment still emits one SLASH token.
- An unterminated string ends the process through `error`; scanning does not go on.
- Number literals keep only their integer part.
- `get` reads the root map and `define` writes the root map. Blocks do not scope,
  and a variable declared in a block outlives it.
- An assignment always throws, because `Environment` has no `assign`.
- A `for` always appends its increment statement, and never replaces a missing
  condition with `true`.
- An `if` without `else` whose condition is falsy throws, because `execute(undefined)` fails.
- `return` does not leave a function body. A call yields the result of the
  last body statement.
- Functions bind their parameters in `globals`, not in the caller's or the
  defining environment. There is no arity check.
- `visitBinary` evaluates `and`/`or` eagerly, beside the short-circuiting `Logical` node.
- `+` on two strings concatenates, as JavaScript does.
- The parser has no rule for calls, `fun` or `return`. Those nodes only come
  from trees built by hand.

## Model

| member | source | states |
|---|---|---|
| Utils.IsDigitParses | src/utils.ts:12-14 | `isDigit(c)` holds exactly when `parseInt` of the one-character string is a number, and that number is the digit's value |
| Utils.DigitsEndMaximal | src/scanner.ts:165-167 | every character of the digit run is a digit, and the run ends at the end of the source or at a non-digit |
| Utils.DigitsEndIs | src/scanner.ts:165-167 | conversely, any maximal digit run from a position ends where `DigitsEnd` says |
| Utils.ParseInt | src/scanner.ts:177 | on the strings the scanner passes it, which start with neither white space nor a sign, `parseInt(s, 10)` is a number exactly when `s` starts with a digit |
| Utils.ParseIntStopsAtNonDigit | src/scanner.ts:177 | `parseInt` reads the leading digits only: what follows the first non-digit does not change the value |
| Utils.NatToString | src/utils.ts:8 | the line number rendered in a report is a non-empty run of decimal digits |
| Utils.NatToStringRoundTrip | src/utils.ts:8 | reading that rendering back with `parseInt` gives the number again |
| Utils.Error | src/utils.ts:1-4 | `error` never returns: it is a failure that ends the process with status 65 |
| Tokens.ToStringLayout | src/token.ts:11-13 | `toString` is the kind's name, one space, the lexeme, one space and the literal, and the line number plays no part |
| ReservedWords.TableKindsAreKeywords | src/reserved-words.ts:4-21 | each key maps to the keyword kind of the same spelling, so never to IDENTIFIER or EOF |
| ReservedWords.SpellingsAreInTable | src/reserved-words.ts:5-20 | every keyword kind is in the table under its own spelling |
| ReservedWords.TableInjective | src/reserved-words.ts:5-20 | distinct keywords map to distinct kinds |
| ReservedWords.TableSize | src/reserved-words.ts:4-21 | the table has exactly 16 keywords |
| ReservedWords.KeywordOrIdentifierKinds | src/scanner.ts:185 | a lexeme gets IDENTIFIER exactly when the table does not list it, never EOF, and each keyword's spelling gets its kind |
| Lexical.WordEndMaximal | src/scanner.ts:181-183 | the identifier loop stops at the end of the source or at the first character that is no letter, digit or `_` |
| Lexical.WordEndIs | src/scanner.ts:181-183 | conversely, any maximal run of such characters ends where `WordEnd` says |
| Lexical.FindFirst | src/scanner.ts:141-147 | the string loop stops at the first closing quote of the opening kind, or at the end |
| Lexical.FindIs | src/scanner.ts:141-147 | conversely, the first such quote is where `Find` stops |
| Lexical.NumberEnd | src/scanner.ts:164-175 | a number ends within the source and after its first digit |
| Lexical.StepAt | src/scanner.ts:21-23 | each `scanToken` call that emits a token moves the cursor forward, and the lexeme is the source from the token start to the cursor; a call that emits nothing moves one character |
| Lexical.StepLine | src/scanner.ts:120-129 | each `scanToken` call adds to `line` exactly the line feeds it stepped over, tokens carry the line at emission, and no call emits EOF |
| Lexical.StringLine | src/scanner.ts:140-162 | every line feed inside a string advances the line once |
| Lexical.ScanFromShape | src/scanner.ts:25-35 | from any cursor, a successful scan ends with one EOF token on the starting line plus the line feeds ahead, and lines never decrease |
| Lexical.ScanEndsWithEof | src/scanner.ts:25-35 | the token list of a whole source ends with exactly one EOF token, with empty lexeme, null literal and line 1 + the number of line feeds; token lines never decrease |
| Lexical.OperatorTokens | src/scanner.ts:87-106 | `=`, `<`, `>`, `!` followed by `=` give one two-character token of the `..._EQUAL` kind, otherwise the one-character kind |
| Lexical.NumberScanned | src/scanner.ts:164-178 | a number is the maximal digit run, extended by `.` and digits only when a digit follows the dot, and its literal is the value of the integer part |
| Lexical.NumberLiteral | src/scanner.ts:177 | the literal of a number token is the value of its leading digits |
| Lexical.ParseIntOfSlice | src/scanner.ts:177 | `parseInt` of a lexeme reads its digits up to the first non-digit |
| Lexical.WordToken | src/scanner.ts:180-188 | an identifier is the maximal run of letters, digits and `_`, with the keyword's kind when the table lists it and IDENTIFIER otherwise |
| Lexical.StringToken | src/scanner.ts:140-162 | a string closes only on its opening quote kind; the literal is the text between the quotes, the line counts the line feeds inside, and an unterminated string is the `error` failure at that line |
| Lexical.CommentToken | src/scanner.ts:107-115 | `//` runs to, not past, the next line feed or the end, and emits one SLASH token |
| Lexical.SilentCharacters | src/scanner.ts:120-129 | space, CR, tab and unrecognised characters emit nothing; a line feed emits nothing and advances the line |
| Scanning.Scanner.constructor | src/scanner.ts:13-15 | the constructor scans the whole source: the scanner's outcome is `Lexical.Scan(source)` |
| Scanning.Scanner.GetTokens | src/scanner.ts:17-19 | `getTokens` returns the token list of the scan |
| Scanning.Scanner.Tokenize | src/scanner.ts:25-35 | the `tokenize` loop from an empty list leaves the outcome `Lexical.Scan(source)`: the tokens and EOF, or the failure |
| Scanning.Scanner.Advance | src/scanner.ts:37-41 | the cursor moves by one and the character it passed is returned (none past the end) |
| Scanning.Scanner.ScanToken | src/scanner.ts:43-131 | one call updates cursor, line and tokens as `Lexical.StepAt` says |
| Scanning.Scanner.Symbol | src/scanner.ts:56-130 | the `switch` on a non-letter, non-digit character updates the fields as `Lexical.SymbolStep` says |
| Scanning.Scanner.AddToken | src/scanner.ts:133-138 | appends one token with the given kind and literal, the current lexeme and the current line |
| Scanning.Scanner.String | src/scanner.ts:140-162 | updates the fields as `Lexical.StringStep` says |
| Scanning.Scanner.Number | src/scanner.ts:164-178 | moves the cursor to the end of the number and appends the NUMBER token of its lexeme |
| Scanning.Scanner.SkipDigits | src/scanner.ts:165-167 | the digit loop moves the cursor to the end of the digit run |
| Scanning.Scanner.Identifier | src/scanner.ts:180-188 | updates the fields as `Lexical.WordStep` says |
| Scanning.Scanner.Match | src/scanner.ts:190-202 | consumes the next character exactly when it is the expected one, and says whether it did |
| Scanning.Scanner.NextLine | src/scanner.ts:224-226 | `line` grows by one |
| Scanning.ScanSource | src/index.ts:12-14 | a new scanner and its tokens give `Lexical.Scan(source)` |
| Grammar.Consume | src/parser.ts:358-364 | `consume` succeeds only on a token of the expected kind, returns that token and steps over it |
| Grammar.Expression | src/parser.ts:63-65 | a parsed expression consumes at least one token and stops on a token of the list |
| Grammar.Assignment | src/parser.ts:232-248 | likewise for `assignment` |
| Grammar.BinaryLevel | src/parser.ts:106-191 | likewise for each binary level |
| Grammar.LevelLoop | src/parser.ts:109-114 | a level's loop never moves the cursor back or past the list |
| Grammar.Unary | src/parser.ts:132-141 | a parsed unary expression consumes at least one token |
| Grammar.Primary | src/parser.ts:201-230 | a parsed primary expression consumes at least one token |
| Grammar.Declaration | src/parser.ts:193-199 | a parsed declaration consumes at least one token, so `parse` always moves on |
| Grammar.Statement | src/parser.ts:250-272 | a parsed statement consumes at least one token |
| Grammar.PrintStatement | src/parser.ts:274-280 | a parsed print statement consumes at least one token |
| Grammar.ExpressionStatement | src/parser.ts:282-288 | a parsed expression statement consumes at least one token |
| Grammar.VariableDeclaration | src/parser.ts:290-301 | a parsed declaration consumes at least one token |
| Grammar.Block | src/parser.ts:32-42 | a parsed block consumes at least its `}` |
| Grammar.ConditionStatement | src/parser.ts:48-61 | a parsed `if` consumes at least one token |
| Grammar.ElseBranch | src/parser.ts:54-58 | without a following `else` the branch is absent and no token is consumed |
| Grammar.WhileStatement | src/parser.ts:303-310 | a parsed `while` consumes at least one token |
| Grammar.ForClause | src/parser.ts:327-335 | a clause followed at once by its terminator is absent (`undefined`) and consumes nothing |
| Grammar.ForLoopStatement | src/parser.ts:312-356 | a parsed `for` consumes at least one token |
| Grammar.Synchronize | src/parser.ts:366-388 | `synchronize` stops on a token of the list, never before where it started |
| GrammarLemmas.CursorStaysInside | src/parser.ts:67-93 | `advance` stays on the EOF token and otherwise moves to another token of the list; at EOF no kind is checked or matched |
| GrammarLemmas.OperatorLevel | src/parser.ts:106-191 | each operator kind belongs to at most one binary level |
| GrammarLemmas.LeftAssociative | src/parser.ts:143-154 | `a op b op c` with two operators of one level parses as `(a op b) op c` |
| GrammarLemmas.SingleOperator | src/parser.ts:106-167 | `a op b` at the level of `op` is one node over the two atoms |
| GrammarLemmas.TighterBindsRight | src/parser.ts:106-167 | `a op1 b op2 c` with `op2` tighter parses as `a op1 (b op2 c)` |
| GrammarLemmas.TighterBindsLeft | src/parser.ts:106-167 | `a op1 b op2 c` with `op1` tighter parses as `(a op1 b) op2 c` |
| GrammarLemmas.LogicalOnlyForAndOr | src/parser.ts:169-191 | only the `and` and `or` levels build `Logical` nodes; the others build `Binary` nodes |
| GrammarLemmas.AtomOrLevel | src/parser.ts:181-191 | an atom followed by a token that continues no level is the whole `or` expression |
| GrammarLemmas.AssignmentRightAssociative | src/parser.ts:232-248 | `x = y = a` parses as `x = (y = a)` |
| GrammarLemmas.InvalidAssignmentTarget | src/parser.ts:232-248 | `=` after any target other than a bare variable (a literal, a grouping, a unary or binary expression) throws an `Error` with an empty message once the value on its right is parsed; a failure in that value comes first |
| GrammarLemmas.LiteralAssignmentThrows | src/parser.ts:239-244 | `1 = a`, a literal followed by `=` and one atom, throws an `Error` with an empty message |
| GrammarLemmas.LevelBuildsNoAssignment | src/parser.ts:106-191 | no binary level builds an assignment or leaves the tree `undefined`, and a bare variable it returns is the identifier at the cursor |
| GrammarLemmas.AssignmentTargetIsVariable | src/parser.ts:232-248 | every assignment node names the identifier that starts the expression |
| GrammarLemmas.VarNeedsInitializer | src/parser.ts:290-301 | `var x` without `=` throws an `Error` with an empty message |
| GrammarLemmas.StatementConditional | src/parser.ts:250-272 | only a leading `if` produces a condition statement |
| GrammarLemmas.NoElseAfter | src/parser.ts:48-61 | an `if` parsed without `else` is not followed by `else` |
| GrammarLemmas.DanglingElseBindsInner | src/parser.ts:48-61 | in `if (a) if (b) s else t` the `else` belongs to the inner `if` |
| GrammarLemmas.ExpressionNeverAbsent | src/parser.ts:201-248 | `expression` never yields `undefined`: that node only comes from a missing `for` clause |
| GrammarLemmas.ForClauseIs | src/parser.ts:327-335 | a condition or increment clause is `undefined` exactly when its terminator comes at once, and otherwise is the expression parsed there |
| GrammarLemmas.ForHeadClauses | src/parser.ts:313-337 | the head of a `for` opens with `(`; its initialiser is `null` exactly when it is a bare `;`, and otherwise the `var` declaration or expression statement there; the condition ends at `;` and the increment at `)` |
| GrammarLemmas.ForLoopDesugars | src/parser.ts:312-356 | a `for` becomes `while (condition) { body; increment; }` over the parsed clauses and body, wrapped in `{ initialiser; … }` exactly when the initialiser is not `;` |
| GrammarLemmas.EmptyForClauses | src/parser.ts:341-349 | `for (;;) s` is a `while` on an `undefined` condition whose body runs `s` and then an `undefined` increment |
| GrammarLemmas.ProgramKeepsPrefix | src/parser.ts:24-30 | running the loop of `parse` with statements already collected gives those statements followed by what a fresh run from the same token gives, or the same failure |
| GrammarLemmas.ProgramInSourceOrder | src/parser.ts:24-30 | the statements of a program are the declaration at the cursor followed by those parsed after it, in source order |
| GrammarLemmas.ProgramFailsWithDeclaration | src/parser.ts:24-30 | `parse` fails only with the failure of a declaration it reached |
| GrammarLemmas.SyncFromStops | src/parser.ts:369-387 | the loop of `synchronize` stops at the first boundary: EOF, just after `;`, or before a statement keyword |
| GrammarLemmas.SynchronizeStops | src/parser.ts:366-388 | `synchronize` steps over one token and then stops at the first boundary |
| Parsing.Parser.constructor | src/parser.ts:18-22 | a new parser starts at the first token with no statements |
| Parsing.Parser.Parse | src/parser.ts:24-30 | `parse` gives `Grammar.Program`, and the `statements` field then holds the result |
| Parsing.Parser.Block | src/parser.ts:32-42 | result and cursor are those of `Grammar.Block` |
| Parsing.Parser.ConditionStatement | src/parser.ts:48-61 | result and cursor are those of `Grammar.ConditionStatement` |
| Parsing.Parser.Parenthesised | src/parser.ts:49-51 | result and cursor are those of `Grammar.Parenthesised` |
| Parsing.Parser.ElseBranch | src/parser.ts:54-58 | result and cursor are those of `Grammar.ElseBranch` |
| Parsing.Parser.Expression | src/parser.ts:63-65 | result and cursor are those of `Grammar.Expression` |
| Parsing.Parser.Advance | src/parser.ts:67-73 | the cursor moves as `Grammar.Advance` says, never past EOF, and the previous token is returned |
| Parsing.Parser.Match | src/parser.ts:95-104 | steps over the token exactly when one of the kinds is checked there |
| Parsing.Parser.BinaryLevel | src/parser.ts:106-191 | result and cursor are those of `Grammar.BinaryLevel` |
| Parsing.Parser.LevelLoop | src/parser.ts:109-114 | result and cursor are those of `Grammar.LevelLoop` |
| Parsing.Parser.Operand | src/parser.ts:107 | result and cursor are those of `Grammar.Operand` |
| Parsing.Parser.Unary | src/parser.ts:132-141 | result and cursor are those of `Grammar.Unary` |
| Parsing.Parser.Declaration | src/parser.ts:193-199 | result and cursor are those of `Grammar.Declaration` |
| Parsing.Parser.Primary | src/parser.ts:201-230 | result and cursor are those of `Grammar.Primary` |
| Parsing.Parser.Assignment | src/parser.ts:232-248 | result and cursor are those of `Grammar.Assignment` |
| Parsing.Parser.Statement | src/parser.ts:250-272 | result and cursor are those of `Grammar.Statement` |
| Parsing.Parser.PrintStatement | src/parser.ts:274-280 | result and cursor are those of `Grammar.PrintStatement` |
| Parsing.Parser.ExpressionStatement | src/parser.ts:282-288 | result and cursor are those of `Grammar.ExpressionStatement` |
| Parsing.Parser.VariableDeclaration | src/parser.ts:290-301 | result and cursor are those of `Grammar.VariableDeclaration` |
| Parsing.Parser.WhileStatement | src/parser.ts:303-310 | result and cursor are those of `Grammar.WhileStatement` |
| Parsing.Parser.ForLoopStatement | src/parser.ts:312-356 | result and cursor are those of `Grammar.ForLoopStatement` |
| Parsing.Parser.ForHead | src/parser.ts:313-337 | result and cursor are those of `Grammar.ForHead` |
| Parsing.Parser.ForInitializer | src/parser.ts:319-325 | result and cursor are those of `Grammar.ForInitializer` |
| Parsing.Parser.ForClause | src/parser.ts:327-335 | result and cursor are those of `Grammar.ForClause` |
| Parsing.Parser.Consume | src/parser.ts:358-364 | result and cursor are those of `Grammar.Consume` |
| Parsing.Parser.Synchronize | src/parser.ts:366-388 | the cursor ends where `Grammar.Synchronize` says |
| Parsing.ParseTokens | src/index.ts:15 | a new parser's `parse` of a token list ending in EOF gives `Grammar.Program` |
| Values.LiteralValue | src/interpreter.ts:80-82 | a literal evaluates to null, a boolean, a number or a string |
| Values.BinaryValue | src/interpreter.ts:37-64 | applying a binary operator to two values never throws |
| Values.Compare | src/interpreter.ts:46-57 | a relational operator is modelled exactly when both operands are numbers |
| Values.UnaryValue | src/interpreter.ts:70-77 | applying a unary operator never throws |
| Values.FalsyValues | src/interpreter.ts:129 | `Boolean()` is false for exactly `false`, `null`, `undefined`, `0` and `""` |
| Values.NotEqualNegatesEqual | src/interpreter.ts:50-53 | `!==` is the negation of `===` whenever `===` is known |
| Values.StrictEqualsDoesNotCoerce | src/interpreter.ts:50-53 | `===` and `!==` compare values without coercion: `null` is not `undefined`, `0` is not `false`, `""` is not `0` |
| Values.PlusAddsOrConcatenates | src/interpreter.ts:38-39 | `+` adds two numbers and concatenates two strings, and is modelled for no other pair |
| Values.ArithmeticOnNumbers | src/interpreter.ts:40-45 | `-`, `*` and `/` yield a number and only from two numbers: `a - b` is the difference of any two numbers, `a * b` the product unless it is a negative zero, `a / b` an exact quotient and never for a zero divisor |
| Values.ComparisonsOnNumbers | src/interpreter.ts:46-57 | `<`, `<=`, `>` and `>=` yield a value exactly on two numbers, and that value is the boolean the integer relation gives |
| Values.UnaryOperators | src/interpreter.ts:71-74 | `!` is the opposite of `Boolean()` on every value; `-` negates exactly the nonzero numbers |
| Values.EagerAndOr | src/interpreter.ts:58-61 | `&&` and `||` in `visitBinary` pick an operand by the left one's truthiness, and are truthy as the logical connectives are |
| Environments.Lookup | src/environment.ts:16-30 | `get` at the root succeeds exactly when the name is bound to something other than `undefined`, and otherwise throws "variable NAME is not defined" |
| Environments.Environment.Root | src/environment.ts:4-6 | the end of a chain is an environment whose `enclosing` is null |
| Environments.Environment.constructor | src/environment.ts:4-6 | a missing enclosing environment becomes null; the new map is empty, and the new environment shares its enclosing environment's root |
| Environments.Environment.Define | src/environment.ts:8-14 | `define` on any environment of a chain writes the name into the root's map, and changes no other object |
| Environments.Environment.Get | src/environment.ts:16-30 | `get` on any environment of a chain is `Lookup` on the root's map |
| Environments.LookupAfterDefine | src/environment.ts:8-30 | after `define(n, v)`, `get(n)` gives `v` (throws when `v` is `undefined`), and every other name keeps its binding |
| Environments.NewScopeSharesRoot | src/environment.ts:8-23 | an environment enclosing another one shares its root, so both see the same bindings |
| Semantics.Bind | src/environment.ts:8-14 | `define` in a scope changes that scope's map at one name, and neither the console nor the other map |
| Semantics.Discard | src/interpreter.ts:128-136 | a statement's completion keeps the state and the success of the code it ran |
| Semantics.Eval | src/expression.ts:8-66 | evaluating any expression only appends to the console, and inside a function body leaves the main map alone |
| Semantics.EvalUnary | src/interpreter.ts:67-78 | likewise for `visitUnary` |
| Semantics.EvalBinary | src/interpreter.ts:33-65 | likewise for `visitBinary` |
| Semantics.EvalLogical | src/interpreter.ts:138-152 | likewise for `visitLogicalOperator` |
| Semantics.EvalAssignment | src/interpreter.ts:92-98 | likewise for `visitAssignmenExpression` |
| Semantics.EvalCall | src/interpreter.ts:164-173 | likewise for `visitCallExpression` |
| Semantics.EvalArgs | src/interpreter.ts:167-170 | the argument loop yields one value per argument, after those evaluated before |
| Semantics.Invoke | src/lox-function.ts:9-18 | a call only appends to the console and never touches the main map: the body runs in `globals` |
| Semantics.Exec | src/statement.ts:13-61 | executing any statement only appends to the console, and inside a function body leaves the main map alone |
| Semantics.ExecPrint | src/interpreter.ts:100-106 | likewise for `visitPrintStatement` |
| Semantics.ExecVariable | src/interpreter.ts:114-121 | likewise for `visitVariableStatement` |
| Semantics.ExecBlock | src/interpreter.ts:123-126 | likewise for `visitBlockStatement` |
| Semantics.ExecCondition | src/interpreter.ts:128-136 | likewise for `visitConditionStatement` |
| Semantics.WhileRound | src/interpreter.ts:157-158 | likewise for one round of the `while` loop |
| Semantics.ExecWhile | src/interpreter.ts:154-162 | likewise for `visitWhileStatement` |
| Semantics.ExecAll | src/interpreter.ts:192-204 | the `map` of `executeBlock` yields one result per statement, in order, after those before |
| Semantics.Interpret | src/interpreter.ts:23-31 | `interpret` never throws: an exception is logged and swallowed |
| Semantics.InterpretAll | src/index.ts:17-19 | running the statements in turn never throws, and only appends to the console |
| SemanticsLemmas.BindParametersDomain | src/lox-function.ts:11-13 | the parameter loop binds exactly the parameter names, on top of the bindings `globals` had |
| SemanticsLemmas.BindParametersKeepsOthers | src/lox-function.ts:11-13 | a name that is no parameter keeps its binding in `globals` |
| SemanticsLemmas.BindParametersBindsArgument | src/lox-function.ts:11-13 | parameter `i` (unless a later parameter has its name) is bound to argument `i`, or to `undefined` when fewer arguments were passed: no arity check |
| SemanticsLemmas.LogicalEvaluatesRightUnlessDecided | src/interpreter.ts:138-152 | `or` with a truthy left value, and `and` with a falsy one, yield the left value without evaluating the right operand; otherwise they yield the right operand's evaluation |
| SemanticsLemmas.LogicalAndBinaryAgree | src/interpreter.ts:33-61 | when both operands complete, `Logical` and `Binary` over `and`/`or` yield the same value; `Binary` has always run the right operand |
| SemanticsLemmas.AssignmentNeverCompletes | src/interpreter.ts:92-98 | an assignment never completes: after its value is evaluated, calling the missing `assign` throws a `TypeError` |
| SemanticsLemmas.FalsyIfWithoutElseThrows | src/interpreter.ts:128-136 | an `if` without `else` on a falsy condition throws a `TypeError` |
| SemanticsLemmas.BlockDeclarationOutlivesBlock | src/interpreter.ts:114-126 | a variable declared in a block is bound, and readable, after the block |
| SemanticsLemmas.PrintAppendsOnce | src/interpreter.ts:100-106 | `print` appends exactly its value to the console, changes no binding and completes with `null` |
| SemanticsLemmas.WhileStopsOnFalsy | src/interpreter.ts:154-162 | a `while` on a falsy condition runs no body and completes with `null` |
| SemanticsLemmas.WhileUnrolls | src/interpreter.ts:154-162 | after a round whose body completes, the loop re-evaluates the condition from the state the body left |
| SemanticsLemmas.ExecAllThenOne | src/interpreter.ts:192-204 | running statements followed by one more runs the first ones, then the last from the state they left, and appends its result |
| SemanticsLemmas.CallYieldsLastStatement | src/lox-function.ts:15-17 | whatever statements come before it, `return` included, a call whose body reaches its last statement yields exactly that statement's completion |
| SemanticsLemmas.ReturnDoesNotStopBody | src/lox-function.ts:15-17 | in `fun f() { return 1; print 2; }` the `print` still runs and the call yields `null`, not 1 |
| SemanticsLemmas.InterpretAllGoesOnAfterThrow | src/interpreter.ts:23-31 | a statement that throws is logged, and the statements after it still run |
| Interpreting.Interpreter.constructor | src/interpreter.ts:19-21 | a new interpreter has two distinct, empty roots and an empty console, and runs in the main one |
| Interpreting.Interpreter.Interpret | src/interpreter.ts:23-31 | result and new state are those of `Semantics.Interpret`, and `environment` is unchanged |
| Interpreting.Interpreter.Evaluate | src/interpreter.ts:206-212 | result and new state are those of `Semantics.Eval`, and `environment` is unchanged |
| Interpreting.Interpreter.VisitVariable | src/interpreter.ts:88-90 | the result is `get` of the name in the current root map |
| Interpreting.Interpreter.VisitUnary | src/interpreter.ts:67-78 | result and new state are those of `Semantics.EvalUnary` |
| Interpreting.Interpreter.VisitBinary | src/interpreter.ts:33-65 | result and new state are those of `Semantics.EvalBinary` |
| Interpreting.Interpreter.VisitLogicalOperator | src/interpreter.ts:138-152 | result and new state are those of `Semantics.EvalLogical` |
| Interpreting.Interpreter.VisitAssignment | src/interpreter.ts:92-98 | result and new state are those of `Semantics.EvalAssignment` |
| Interpreting.Interpreter.VisitCall | src/interpreter.ts:164-173 | result and new state are those of `Semantics.EvalCall` |
| Interpreting.Interpreter.CallFunction | src/lox-function.ts:9-18 | result and new state are those of `Semantics.Invoke`, and the caller's `environment` is back in place |
| Interpreting.Interpreter.Execute | src/interpreter.ts:214-216 | result and new state are those of `Semantics.Exec`, and `environment` is unchanged |
| Interpreting.Interpreter.VisitPrintStatement | src/interpreter.ts:100-106 | result and new state are those of `Semantics.ExecPrint` |
| Interpreting.Interpreter.VisitExpressionStatement | src/interpreter.ts:108-112 | result and new state are those of `Semantics.Exec` on the expression statement |
| Interpreting.Interpreter.VisitVariableStatement | src/interpreter.ts:114-121 | result and new state are those of `Semantics.ExecVariable` |
| Interpreting.Interpreter.VisitBlockStatement | src/interpreter.ts:123-126 | result and new state are those of `Semantics.ExecBlock` |
| Interpreting.Interpreter.VisitConditionStatement | src/interpreter.ts:128-136 | result and new state are those of `Semantics.ExecCondition` |
| Interpreting.Interpreter.VisitWhileStatement | src/interpreter.ts:154-162 | result and new state are those of `Semantics.ExecWhile` |
| Interpreting.Interpreter.Round | src/interpreter.ts:157-158 | result and new state are those of `Semantics.WhileRound` |
| Interpreting.Interpreter.VisitFunctionStatement | src/interpreter.ts:175-180 | the function value is bound under its name in the current root map |
| Interpreting.Interpreter.VisitReturnStatement | src/interpreter.ts:182-190 | result and new state are those of `Semantics.Exec` on the return statement |
| Interpreting.Interpreter.ExecuteBlock | src/interpreter.ts:192-204 | result and new state are those of `Semantics.ExecAll` in the block's scope, and the previous `environment` is restored however the block ends |
| Running.RunAll | src/index.ts:17-19 | the run of a parsed program never ends in an uncaught exception |
| Running.ScannedTokensAreTerminated | src/index.ts:13-15 | the tokens of a successful scan end with EOF, as the parser requires |
| Running.Run | src/index.ts:11-20 | a scanner failure ends the run with that failure; a run that gets past scanning and parsing never ends in an uncaught exception |
| Running.InterpretStatements | src/index.ts:17-19 | one interpreter running each statement in turn gives `RunAll` |
| Running.RunSource | src/index.ts:11-20 | scanner, parser and interpreter objects together give `Run` |

## Left out

- Reading the file and the command line (`src/index.ts`). The source text is a parameter of `Running.Run`.
- `console.log` and `console.error`. The console is a sequence of printed values and logged exceptions, not text.
- `process.exit`. `error` is the `ExitProcess(65, report)` failure, and an uncaught `throw` is the `Uncaught(message)` failure; both end the run.
- The enumerations `Type` and `TokenType` are not part of this model. Token kinds are rebuilt from their uses, and the `Type` members are spelled as the language spells its keywords, with `fun` for FUNCTION.
- `src/lox-callable.ts`: an interface only. A function value is `Fn(declaration)`, and `LoxFunction.call` is `Interpreting.Interpreter.CallFunction`, with `arity` as `Semantics.Arity`.
- Prototype properties of the keyword table: a lexeme such as `toString` finds an inherited property in JavaScript. The model's table is a finite map.
- Environments.Lookup: the root's `values` is a plain object, so `get` also finds inherited properties such as `toString`, `constructor` or `hasOwnProperty` (`print toString;` prints a function in JavaScript), and `define` of `__proto__` with a number, string, boolean or `null` is ignored there. The model's map holds only what `define` wrote, so those names are not defined, and `Environments.LookupAfterDefine` states for `__proto__` what JavaScript does not do.
- Tokens.ToStringLayout: `${this.type}` prints the value of the enumeration member. The model takes it to be a string enumeration whose values are the member names; a numeric one would print the ordinal instead.
- Utils.ParseInt: models `parseInt` only on strings that start with neither white space nor a sign, which are all the scanner passes it.
- Strings are sequences of characters, not UTF-16 code units.
- Numbers are unbounded integers, not float64 values. Integers stay exact beyond 2^53, where JavaScript rounds them: the literal `9007199254740993` is that number in the model, while `parseInt` gives 9007199254740992. No fraction is represented.
- Operator cases whose JavaScript result the model does not compute give `Gap` with a reason, not a value: `+` on anything but two numbers or two strings; `-`, `*` and `/` with an operand that is not a number (`"3" - 1`, `true * 2`); `/` by zero (Infinity or NaN) and an inexact `/`; a negative zero from `*`, `/` or unary `-`; `<`, `<=`, `>` and `>=` on anything but two numbers (strings, booleans, `null`); unary `-` on a non-number.
- `===` between two function objects is a `Gap`, because object identity is not recorded.
- Deep recursion is bounded by a fuel parameter, and a run past it ends in `OutOfFuel`. A `while` spends one unit per extra round, and a call spends one unit. The JavaScript stack overflow is not modelled.
- Semantics.InterpretAll: stops at the first `Gap` or `OutOfFuel`, where the source's `forEach` would go on; both are outside what the source can produce.
- Running.RunAll: states only that the run never throws and that it equals the loop of the interpreter object, not what each statement prints.
- Grammar.Expression and the other `Grammar` parsing functions: their own contracts state only cursor progress. What they build is stated by the `GrammarLemmas` lemmas, and the `Parsing.Parser` methods are proved equal to them.
- `synchronize` is modelled, but `parse` never calls it.
- The AST and token records are datatypes, and `accept` is the `match` of `Semantics.Eval`/`Semantics.Exec` and of `Interpreting.Interpreter.Evaluate`/`Execute`.
- `Parsing.Parser.Previous`, `Check`, `Peek`, `IsAtEnd` and `Scanning.Scanner.Peek`, `PeekNext`, `IsAtEnd` are functions with no contract of their own; the methods that use them state the effect.
