/**
 * `src/index.ts`: scan the source, parse the tokens, and hand every parsed
 * statement in turn to one interpreter. Reading the file and the command
 * line are left out; the source text is a parameter and the console is the
 * returned output.
 */
module Running {

  import opened Results
  import opened Utils
  import opened Tokens
  import opened Statements
  import opened Values
  import opened Lexical
  import opened Grammar
  import opened Semantics
  import opened Scanning
  import opened Parsing
  import opened Interpreting

  /** What a whole run ends with: how the last statement ended, and the console. */
  datatype Outcome = Outcome(result: Completion<()>, output: seq<Output>)

  /** The statements of `src/index.ts`, run from an interpreter that has just been built. */
  function RunAll(statements: seq<Stmt>, fuel: nat): (r: Outcome)
    ensures !r.result.Thrown?
  {
    var ran := InterpretAll(statements, 0, Initial, fuel);
    Outcome(ran.result, ran.state.out)
  }

  /** A scan that succeeds ends with the EOF token the parser stops at. */
  lemma ScannedTokensAreTerminated(source: string)
    requires Scan(source).Success?
    ensures Terminated(Scan(source).value)
  {
    ScanEndsWithEof(source);
  }

  /** The whole of `src/index.ts`: the scanner's or the parser's failure, or the run of the program. */
  function Run(source: string, fuel: nat): (r: Result<Outcome, Failure>)
    ensures Scan(source).Failure? ==> r == Failure(Scan(source).error)
    ensures r.Success? ==> !r.value.result.Thrown?
  {
    var tokens := Scan(source);
    if tokens.Failure? then Failure(tokens.error)
    else
      ScannedTokensAreTerminated(source);
      var statements := Program(tokens.value, 0, []);
      if statements.Failure? then Failure(statements.error)
      else Success(RunAll(statements.value, fuel))
  }

  /** The `forEach` of `src/index.ts`: one interpreter, each statement in order. */
  method InterpretStatements(statements: seq<Stmt>, fuel: nat) returns (r: Outcome)
    ensures r == RunAll(statements, fuel)
  {
    var interpreter := new Interpreter();
    var i := 0;
    while i < |statements|
      invariant i <= |statements|
      invariant interpreter.Valid() && interpreter.CurrentScope() == MainScope
      invariant fresh(interpreter.main) && fresh(interpreter.globals)
      invariant InterpretAll(statements, i, interpreter.CurrentState(), fuel) == InterpretAll(statements, 0, Initial, fuel)
      decreases |statements| - i
    {
      var done := interpreter.Interpret(statements[i], fuel);
      if !done.Normal? {
        return Outcome(done.Abrupt(), interpreter.output);
      }
      i := i + 1;
    }
    return Outcome(Normal(()), interpreter.output);
  }

  /** `src/index.ts` from the source text on, with the scanner, the parser and the interpreter objects. */
  method RunSource(source: string, fuel: nat) returns (r: Result<Outcome, Failure>)
    ensures r == Run(source, fuel)
  {
    var tokens := ScanSource(source);
    if tokens.Failure? {
      return Failure(tokens.error);
    }
    ScannedTokensAreTerminated(source);
    var statements := ParseTokens(tokens.value);
    if statements.Failure? {
      return Failure(statements.error);
    }
    var outcome := InterpretStatements(statements.value, fuel);
    return Success(outcome);
  }
}
