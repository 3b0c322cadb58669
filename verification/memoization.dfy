/**
 * The decision `use_memo` takes on every render: recompute (and store the new
 * dependencies) or hand back the stored value.
 */
module Memoization {
  import opened PyValues
  import opened Equality

  /** Whether the memo recomputes, and the dependencies it holds afterwards. */
  datatype MemoDecision = MemoDecision(changed: bool, deps: seq<Value>)

  /**
   * `filled` is `not memo.empty()`, `stored` is `memo.deps`, `dependencies`
   * what `_try_to_infer_closure_values` returned. A `None` is stored as `()`.
   */
  function Decide(filled: bool, stored: seq<Value>, dependencies: Option<seq<Value>>): MemoDecision
  {
    if !filled then MemoDecision(true, if dependencies.None? then [] else dependencies.value)
    else if dependencies.None? then MemoDecision(true, [])
    else if DepsChanged(stored, dependencies.value) then MemoDecision(true, dependencies.value)
    else MemoDecision(false, stored)
  }

  /**
   * Once filled, the memo recomputes exactly when the new list differs in
   * length or in some position by the equality policy; when it recomputes it
   * keeps the new list, otherwise it keeps the old one.
   */
  lemma RecomputesExactlyOnChange(stored: seq<Value>, deps: seq<Value>)
    ensures var d := Decide(true, stored, Some(deps));
      && (d.changed <==> |stored| != |deps| || exists i :: 0 <= i < |deps| && !StrictlyEqual(stored[i], deps[i]))
      && d.deps == if d.changed then deps else stored
  {
  }

  /** The first call, and every call without dependencies, recompute. */
  lemma AlwaysRecomputes(filled: bool, stored: seq<Value>, dependencies: Option<seq<Value>>)
    requires !filled || dependencies.None?
    ensures Decide(filled, stored, dependencies).changed
    ensures dependencies.None? ==> Decide(filled, stored, dependencies).deps == []
  {
  }

  /** Handing the stored dependencies back unchanged never recomputes. */
  lemma SameDepsReuse(stored: seq<Value>)
    ensures !Decide(true, stored, Some(stored)).changed
  {
    DepsUnchangedWhenSame(stored);
  }

  /**
   * After any call with the dependency list `deps`, a later call with the
   * same list reuses the stored value.
   */
  lemma StableDepsReuse(filled: bool, stored: seq<Value>, deps: seq<Value>)
    ensures var first := Decide(filled, stored, Some(deps));
      !Decide(true, first.deps, Some(deps)).changed
  {
    var first := Decide(filled, stored, Some(deps));
    if first.changed {
      DepsUnchangedWhenSame(deps);
    }
  }

  /**
   * A lambda re-created on the next render from the same source text, with
   * fresh closure values, does not count as a changed dependency.
   */
  lemma RecreatedLambdaIsStable(stored: seq<Value>, i: nat, id: nat, closure: seq<Value>)
    requires i < |stored| && stored[i].FuncV? && stored[i].source.Some?
    ensures !Decide(true, stored, Some(stored[i := FuncV(id, stored[i].source, closure)])).changed
  {
    var deps := stored[i := FuncV(id, stored[i].source, closure)];
    forall j | 0 <= j < |deps| ensures StrictlyEqual(stored[j], deps[j]) {
      StrictlyEqualReflexive(stored[j]);
    }
  }

  /** An empty dependency list computes once and never again. */
  lemma EmptyDepsComputeOnce(filled: bool, stored: seq<Value>)
    ensures var first := Decide(filled, stored, Some([]));
      Decide(true, first.deps, Some([])) == MemoDecision(false, [])
  {
    StableDepsReuse(filled, stored, []);
  }

  /**
   * With inferred dependencies, a plain function that closes over nothing is
   * computed once and never again.
   */
  lemma ClosurelessFunctionComputedOnce(id: nat, code: Option<nat>, filled: bool, stored: seq<Value>)
    ensures var deps := InferClosureValues(Some(FuncV(id, code, [])), Infer);
      var first := Decide(filled, stored, deps);
      !Decide(true, first.deps, deps).changed
  {
    StableDepsReuse(filled, stored, []);
  }

  /**
   * With inferred dependencies, anything that is not a plain function (a
   * callable object, or no function at all, as in the decorator form)
   * recomputes on every call.
   */
  lemma UninferableRecomputesEveryTime(func: Option<Value>, filled: bool, stored: seq<Value>)
    requires !(func.Some? && func.value.FuncV?)
    ensures Decide(filled, stored, InferClosureValues(func, Infer)) == MemoDecision(true, [])
  {
  }
}
