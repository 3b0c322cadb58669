/**
 * The equality policy of the hooks (`strictly_equal`) and the dependency
 * inference that feeds the memoisation engine (`_try_to_infer_closure_values`).
 */
module Equality {
  import opened PyValues

  /**
   * `strictly_equal(x, y)`: values of different runtime types are never equal;
   * a lambda or local function equals another exactly when their qualified
   * names and bytecode agree, whatever their closures hold; anything else is
   * compared with `x == y`.
   */
  predicate StrictlyEqual(x: Value, y: Value)
  {
    TypeOf(x) == TypeOf(y) &&
    if x.FuncV? && x.source.Some? then y.source == x.source else PyEq(x, y)
  }

  lemma {:induction false} StrictlyEqualReflexive(x: Value)
    ensures StrictlyEqual(x, x)
  {
    PyEqReflexive(x);
  }

  lemma {:induction false} StrictlyEqualSymmetric(x: Value, y: Value)
    requires StrictlyEqual(x, y)
    ensures StrictlyEqual(y, x)
  {
    if !(x.FuncV? && x.source.Some?) {
      PyEqSymmetric(x, y);
    }
  }

  /** A value with no parts: `None`, a `bool`, an `int` or a string. */
  predicate IsScalar(v: Value)
  {
    v.NoneV? || v.BoolV? || v.IntV? || v.StrV? || v.ScriptV?
  }

  /** On scalars the policy is exactly equality of value and type. */
  lemma StrictlyEqualOnScalars(x: Value, y: Value)
    requires IsScalar(x)
    ensures StrictlyEqual(x, y) <==> x == y
  {
    if x == y {
      StrictlyEqualReflexive(x);
    }
  }

  /** Module-level functions, generators, components and plain objects are equal only to themselves. */
  lemma StrictlyEqualOnIdentityObjects(x: Value, y: Value)
    requires (x.FuncV? && x.source.None?) || x.IterV? || x.ComponentV? || x.ObjectV?
    ensures StrictlyEqual(x, y) <==> x == y
  {
    if x == y {
      StrictlyEqualReflexive(x);
    }
  }

  /**
   * Two lambdas built from the same source text are equal even when they
   * close over different values, and a lambda never equals a module-level
   * function.
   */
  lemma LocalFunctionsCompareByCode(x: Value, y: Value)
    requires x.FuncV? && x.source.Some?
    ensures StrictlyEqual(x, y) <==> y.FuncV? && y.source == x.source
    ensures y.FuncV? && y.source.None? ==> !StrictlyEqual(y, x)
  {
  }

  /**
   * The type test is shallow: `True == 1` is rejected, but `[True] == [1]`
   * is accepted, because both are lists and `==` on lists is element-wise.
   */
  lemma TypeTestIsShallow()
    ensures PyEq(BoolV(true), IntV(1)) && !StrictlyEqual(BoolV(true), IntV(1))
    ensures StrictlyEqual(ListV([BoolV(true)]), ListV([IntV(1)]))
    ensures !StrictlyEqual(TupleV([IntV(1)]), ListV([IntV(1)]))
  {
    var a, b := ListV([BoolV(true)]), ListV([IntV(1)]);
    assert PyEq(a.items[0], b.items[0]);
  }

  /** The `dependencies` argument: `...` (infer) or an explicit sequence or `None`. */
  datatype DepsArg = Infer | Given(deps: Option<seq<Value>>)

  /**
   * `_try_to_infer_closure_values(func, values)`. `func` is `None` or the
   * function handed to the hook.
   */
  function InferClosureValues(func: Option<Value>, values: DepsArg): (r: Option<seq<Value>>)
    ensures values.Given? ==> r == values.deps
    ensures values.Infer? && func.Some? && func.value.FuncV? ==> r == Some(func.value.closure)
    ensures values.Infer? && !(func.Some? && func.value.FuncV?) ==> r == None
  {
    match values
    case Given(deps) => deps
    case Infer =>
      if func.Some? && func.value.FuncV? then Some(func.value.closure) else None
  }

  /**
   * `all(strictly_equal(c, n) for c, n in zip(current, new))`: `zip` stops at
   * the shorter sequence.
   */
  function AllStrictlyEqual(current: seq<Value>, given: seq<Value>): (r: bool)
    ensures r <==> forall i :: 0 <= i < |current| && i < |given| ==> StrictlyEqual(current[i], given[i])
  {
    if current == [] || given == [] then true
    else StrictlyEqual(current[0], given[0]) && AllStrictlyEqual(current[1..], given[1..])
  }

  /** The comparison `use_memo` makes between the stored and the new dependencies. */
  function DepsChanged(stored: seq<Value>, given: seq<Value>): (r: bool)
    ensures r <==> |stored| != |given| || exists i :: 0 <= i < |given| && !StrictlyEqual(stored[i], given[i])
  {
    |stored| != |given| || !AllStrictlyEqual(stored, given)
  }

  /** A dependency list never differs from itself. */
  lemma {:induction false} DepsUnchangedWhenSame(deps: seq<Value>)
    ensures !DepsChanged(deps, deps)
  {
    forall i | 0 <= i < |deps| ensures StrictlyEqual(deps[i], deps[i]) {
      StrictlyEqualReflexive(deps[i]);
    }
  }
}
