/**
 * The runtime values of `src/interpreter.ts`: what `evaluate` returns and
 * what an environment holds, with the JavaScript operators and `Boolean()`
 * that the `visit*` methods apply to them. Numbers are the integers the
 * scanner produces; every case of an operator whose JavaScript result is
 * not an integer, a string or a boolean of this model (a coercion, a
 * fraction, a negative zero) is a `Gap` naming what is left unmodelled.
 */
module Values {

  import opened Tokens
  import opened Statements

  datatype Value =
    | Undefined
    | Null
    | Bool(b: bool)
    | Num(n: int)
    | Str(s: string)
    /** A `LoxFunction`: the object only keeps the declaration it was built from. */
    | Fn(declaration: FunctionDeclaration)

  /** Why a JavaScript `TypeError` is raised. */
  datatype TypeErrorCause =
    /** `accept` called on `undefined`, where the tree has no node. */
    | UndefinedNode
    /** `this.environment.assign` does not exist. */
    | AssignIsNotAFunction
    /** `callee.call` on a value that is no `LoxFunction`. */
    | NotCallable(callee: Value)

  /** What a `throw` carries: an `Error` with its message, or a `TypeError`. */
  datatype Exception = JsError(message: string) | JsTypeError(cause: TypeErrorCause)

  /** How an evaluation ends. `OutOfFuel` stands for a run longer than the bound the model is given. */
  datatype Completion<+T> =
    | Normal(value: T)
    | Thrown(exception: Exception)
    | Gap(reason: string)
    | OutOfFuel
  {
    /** The same abrupt ending, at another result type. */
    function Abrupt<U>(): Completion<U>
      requires !Normal?
    {
      match this
      case Thrown(x) => Thrown(x)
      case Gap(why) => Gap(why)
      case OutOfFuel => OutOfFuel
    }
  }

  /** What reaches the console: a printed value, or an exception `interpret` logged. */
  datatype Output = Printed(value: Value) | Logged(exception: Exception)

  /** `Boolean(v)`. */
  predicate Truthy(v: Value) {
    match v
    case Undefined => false
    case Null => false
    case Bool(b) => b
    case Num(n) => n != 0
    case Str(s) => s != ""
    case Fn(_) => true
  }

  /** `visitLiteral`: the token's literal as a value. */
  function LiteralValue(lit: Lit): (v: Value)
    ensures v.Null? || v.Bool? || v.Num? || v.Str?
  {
    match lit
    case NullLit => Null
    case BoolLit(b) => Bool(b)
    case NumberLit(n) => Num(n)
    case StringLit(s) => Str(s)
  }

  /** `===`: two function objects are equal only when they are the same object, which values do not record. */
  function StrictEquals(left: Value, right: Value): (r: Completion<bool>)
  {
    if left.Fn? && right.Fn? then Gap("identity of function objects")
    else Normal(left == right)
  }

  /** `visitBinary` once both operands are evaluated, by operator kind. */
  function BinaryValue(kind: TokenType, left: Value, right: Value): (r: Completion<Value>)
    ensures r.Normal? || r.Gap?
  {
    match kind
    case Plus =>
      if left.Num? && right.Num? then Normal(Num(left.n + right.n))
      else if left.Str? && right.Str? then Normal(Str(left.s + right.s))
      else Gap("mixed-type +")
    case Star =>
      if !(left.Num? && right.Num?) then Gap("numeric coercion")
      else if left.n * right.n == 0 && (left.n < 0 || right.n < 0) then Gap("negative zero")
      else Normal(Num(left.n * right.n))
    case Minus =>
      if left.Num? && right.Num? then Normal(Num(left.n - right.n)) else Gap("numeric coercion")
    case Slash =>
      if !(left.Num? && right.Num?) then Gap("numeric coercion")
      else if right.n == 0 || left.n % right.n != 0 then Gap("non-integer quotient")
      else if left.n == 0 && right.n < 0 then Gap("negative zero")
      else Normal(Num(left.n / right.n))
    case Greater => Compare(left, right, (a, b) => a > b)
    case GreaterEqual => Compare(left, right, (a, b) => a >= b)
    case Less => Compare(left, right, (a, b) => a < b)
    case LessEqual => Compare(left, right, (a, b) => a <= b)
    case EqualEqual =>
      var eq := StrictEquals(left, right);
      if eq.Normal? then Normal(Bool(eq.value)) else eq.Abrupt()
    case BangEqual =>
      var eq := StrictEquals(left, right);
      if eq.Normal? then Normal(Bool(!eq.value)) else eq.Abrupt()
    case And => Normal(if Truthy(left) then right else left)
    case Or => Normal(if Truthy(left) then left else right)
    case _ => Normal(Undefined)
  }

  /** A relational operator on two numbers; strings and coercions are left unmodelled. */
  function Compare(left: Value, right: Value, holds: (int, int) -> bool): (r: Completion<Value>)
    ensures r.Normal? <==> left.Num? && right.Num?
  {
    if left.Num? && right.Num? then Normal(Bool(holds(left.n, right.n))) else Gap("relational coercion")
  }

  /** `visitUnary` once the operand is evaluated. */
  function UnaryValue(kind: TokenType, right: Value): (r: Completion<Value>)
    ensures r.Normal? || r.Gap?
  {
    match kind
    case Minus =>
      if !right.Num? then Gap("negating a non-number")
      else if right.n == 0 then Gap("negative zero")
      else Normal(Num(-right.n))
    case Bang => Normal(Bool(!Truthy(right)))
    case _ => Normal(Null)
  }

  /* ---------- properties ---------- */

  /** `Boolean()` is false for exactly `false`, `null`, `undefined`, `0` and `""`. */
  lemma FalsyValues(v: Value)
    ensures !Truthy(v) <==> v in {Bool(false), Null, Undefined, Num(0), Str("")}
  {
  }

  /** `!==` is the negation of `===` whenever `===` is known. */
  lemma NotEqualNegatesEqual(left: Value, right: Value)
    ensures BinaryValue(EqualEqual, left, right).Normal? <==> BinaryValue(BangEqual, left, right).Normal?
    ensures BinaryValue(EqualEqual, left, right).Normal? ==>
      BinaryValue(BangEqual, left, right).value == Bool(!BinaryValue(EqualEqual, left, right).value.b)
  {
  }

  /**
   * `===` compares without coercion: on values other than two functions it
   * is equality of values, so `null` and `undefined`, `0` and `false`, or
   * `""` and `0` are told apart, although `Boolean()` makes each pair falsy.
   */
  lemma StrictEqualsDoesNotCoerce(left: Value, right: Value)
    requires !(left.Fn? && right.Fn?)
    ensures BinaryValue(EqualEqual, left, right) == Normal(Bool(left == right))
    ensures BinaryValue(BangEqual, left, right) == Normal(Bool(left != right))
    ensures BinaryValue(EqualEqual, Null, Undefined) == Normal(Bool(false))
    ensures BinaryValue(EqualEqual, Num(0), Bool(false)) == Normal(Bool(false))
    ensures BinaryValue(EqualEqual, Str(""), Num(0)) == Normal(Bool(false))
  {
  }

  /** `+` adds two numbers and concatenates two strings; any other pair is a coercion left as a `Gap`. */
  lemma PlusAddsOrConcatenates(left: Value, right: Value)
    ensures BinaryValue(Plus, left, right).Normal? <==> (left.Num? && right.Num?) || (left.Str? && right.Str?)
    ensures left.Num? && right.Num? ==> BinaryValue(Plus, left, right).value == Num(left.n + right.n)
    ensures left.Str? && right.Str? ==> BinaryValue(Plus, left, right).value == Str(left.s + right.s)
  {
  }

  /**
   * `-`, `*` and `/` compute only on two numbers, and always yield a number:
   * `-` on every pair of numbers, `*` unless the product is a negative zero,
   * `/` when the quotient is an exact integer other than a negative zero;
   * every other case (a string or boolean operand, division by zero, a
   * fraction) is a `Gap`.
   */
  lemma ArithmeticOnNumbers(kind: TokenType, left: Value, right: Value)
    requires kind == Minus || kind == Star || kind == Slash
    ensures BinaryValue(kind, left, right).Normal? ==> left.Num? && right.Num? && BinaryValue(kind, left, right).value.Num?
    ensures kind == Minus && left.Num? && right.Num? ==> BinaryValue(kind, left, right) == Normal(Num(left.n - right.n))
    ensures kind == Minus ==> (BinaryValue(kind, left, right).Normal? <==> left.Num? && right.Num?)
    ensures kind == Star && left.Num? && right.Num? && !(left.n * right.n == 0 && (left.n < 0 || right.n < 0)) ==>
      BinaryValue(kind, left, right) == Normal(Num(left.n * right.n))
    ensures kind == Slash && BinaryValue(kind, left, right).Normal? ==>
      right.n != 0 && BinaryValue(kind, left, right).value.n * right.n == left.n
    ensures kind == Slash && right == Num(0) ==> BinaryValue(kind, left, right).Gap?
  {
  }

  /** The integer relation a relational operator kind denotes. */
  predicate Relation(kind: TokenType, a: int, b: int)
    requires kind == Less || kind == LessEqual || kind == Greater || kind == GreaterEqual
  {
    match kind
    case Less => a < b
    case LessEqual => a <= b
    case Greater => a > b
    case GreaterEqual => a >= b
  }

  /** `<`, `<=`, `>` and `>=` yield a boolean on two numbers and a `Gap` on anything else, booleans and `null` included. */
  lemma ComparisonsOnNumbers(kind: TokenType, left: Value, right: Value)
    requires kind == Less || kind == LessEqual || kind == Greater || kind == GreaterEqual
    ensures BinaryValue(kind, left, right).Normal? <==> left.Num? && right.Num?
    ensures left.Num? && right.Num? ==> BinaryValue(kind, left, right) == Normal(Bool(Relation(kind, left.n, right.n)))
  {
  }

  /** `!` is the boolean opposite of `Boolean()` on every value; `-` negates only nonzero numbers. */
  lemma UnaryOperators(v: Value)
    ensures UnaryValue(Bang, v) == Normal(Bool(!Truthy(v)))
    ensures UnaryValue(Minus, v).Normal? <==> v.Num? && v.n != 0
    ensures UnaryValue(Minus, v).Normal? ==> UnaryValue(Minus, v).value == Num(-v.n) && Truthy(UnaryValue(Minus, v).value)
  {
  }

  /** Inside `visitBinary`, `&&` and `||` pick an operand by `Boolean()` of the left one, as JavaScript does. */
  lemma EagerAndOr(left: Value, right: Value)
    ensures BinaryValue(And, left, right).value == (if Truthy(left) then right else left)
    ensures BinaryValue(Or, left, right).value == (if Truthy(left) then left else right)
    ensures Truthy(BinaryValue(And, left, right).value) <==> Truthy(left) && Truthy(right)
    ensures Truthy(BinaryValue(Or, left, right).value) <==> Truthy(left) || Truthy(right)
  {
  }
}
