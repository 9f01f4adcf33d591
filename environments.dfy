/**
 * `src/environment.ts`: a chain of environments, each pointing at the one
 * that encloses it. As written, both `define` and `get` hand the call up the
 * chain, so every environment of a chain reads and writes the map of its
 * root, and the maps of the others stay empty.
 */
module Environments {

  import opened Results
  import opened Values

  /** The error `get` throws for a name the root does not hold, or holds as `undefined`. */
  function NotDefined(name: string): Exception {
    JsError("variable " + name + " is not defined")
  }

  /** `get` at the root: the binding, unless it is missing or `undefined`. */
  function Lookup(values: map<string, Value>, name: string): (r: Result<Value, Exception>)
    ensures r.Success? <==> name in values && values[name] != Undefined
    ensures r.Success? ==> r.value == values[name]
    ensures r.Failure? ==> r.error == NotDefined(name)
  {
    if name in values && values[name] != Undefined then Success(values[name]) else Failure(NotDefined(name))
  }

  class Environment {
    /** `null` at the root of a chain: the constructor turns a missing argument into `null`. */
    const enclosing: Environment?
    /** How many environments enclose this one. */
    ghost const depth: nat
    var values: map<string, Value>

    /** The chain above this environment is finite and ends at a root. */
    ghost predicate Chained()
      decreases depth
    {
      enclosing != null ==> enclosing.depth < depth && enclosing.Chained()
    }

    /** The environment at the end of the chain, whose map `define` and `get` use. */
    function Root(): (root: Environment)
      requires Chained()
      ensures root.enclosing == null && root.Chained()
      decreases depth
    {
      if enclosing == null then this else enclosing.Root()
    }

    constructor (enclosing: Environment?)
      requires enclosing != null ==> enclosing.Chained()
      ensures this.enclosing == enclosing && values == map[] && Chained()
      ensures Root() == if enclosing == null then this else enclosing.Root()
    {
      this.enclosing := enclosing;
      depth := if enclosing == null then 0 else enclosing.depth + 1;
      values := map[];
    }

    /** `define`: bind `name` in the root's map, replacing any earlier binding. */
    method Define(name: string, value: Value)
      requires Chained()
      modifies Root()
      ensures Root().values == old(Root().values)[name := value]
      decreases depth
    {
      if enclosing != null {
        enclosing.Define(name, value);
      } else {
        values := values[name := value];
      }
    }

    /** `get`: the root's binding of `name`, or the error it throws. */
    method Get(name: string) returns (r: Result<Value, Exception>)
      requires Chained()
      ensures r == Lookup(Root().values, name)
      decreases depth
    {
      var variable: Value;
      if enclosing != null {
        var above := enclosing.Get(name);
        if above.Failure? {
          return above;  // the error thrown further up
        }
        variable := above.value;
      } else {
        variable := if name in values then values[name] else Undefined;
      }
      if variable == Undefined {
        return Failure(NotDefined(name));
      }
      return Success(variable);
    }
  }

  /**
   * After `define(n, v)`, `get(n)` gives `v` back (or throws when `v` is
   * `undefined`), and every other name keeps its binding.
   */
  lemma LookupAfterDefine(values: map<string, Value>, n: string, v: Value, m: string)
    ensures Lookup(values[n := v], m)
         == if m != n then Lookup(values, m)
            else if v == Undefined then Failure(NotDefined(n))
            else Success(v)
  {
  }

  /** A new environment enclosing `e` shares its root, so it sees the same bindings. */
  lemma NewScopeSharesRoot(e: Environment, inner: Environment)
    requires e.Chained() && inner.Chained() && inner.enclosing == e
    ensures inner.Root() == e.Root() && inner != inner.Root()
  {
  }
}
