/**
 * What a state cell (`_CurrentState`) does with its value: the initial value,
 * and the decision `dispatch` makes between keeping the stored value and
 * replacing it while asking for a re-render.
 */
module StateUpdates {
  import opened PyValues
  import opened Equality

  /** `initial_value()` when it is callable, `initial_value` itself otherwise. */
  function InitialValue(init: Value, call: Caller): Value
  {
    if IsCallable(init) then call(init, []) else init
  }

  /** The next value `dispatch(update)` considers: `update(value)` when `update` is callable, else `update`. */
  function Candidate(current: Value, update: Value, call: Caller): Value
  {
    if IsCallable(update) then call(update, [current]) else update
  }

  /** The stored value after a dispatch, and whether `schedule_render` was called. */
  datatype Dispatched = Dispatched(value: Value, scheduled: bool)

  /**
   * The comparison at the heart of `dispatch`: a candidate that is strictly
   * equal to the stored value changes nothing; any other replaces it and
   * schedules one render. Either way the cell ends up holding a value the
   * policy cannot tell from the candidate (not always the candidate itself:
   * a stored `[True]` stays when `[1]` is dispatched).
   */
  function Settle(current: Value, next: Value): (r: Dispatched)
    ensures r.scheduled <==> !StrictlyEqual(next, current)
    ensures r.scheduled ==> r.value == next
    ensures !r.scheduled ==> r.value == current
    ensures StrictlyEqual(r.value, next)
  {
    if StrictlyEqual(next, current) then
      StrictlyEqualSymmetric(next, current);
      Dispatched(current, false)
    else
      StrictlyEqualReflexive(next);
      Dispatched(next, true)
  }

  /** One call `dispatch(update)` on a cell that holds `current`. */
  function Dispatch(current: Value, update: Value, call: Caller): Dispatched
  {
    Settle(current, Candidate(current, update, call))
  }

  /** Dispatching the same plain value a second time schedules nothing and changes nothing. */
  lemma RedispatchIsNoop(current: Value, update: Value, call: Caller)
    requires !IsCallable(update)
    ensures var d := Dispatch(current, update, call);
      Dispatch(d.value, update, call) == Dispatched(d.value, false)
  {
    var d := Dispatch(current, update, call);
    StrictlyEqualSymmetric(d.value, update);
  }

  /** The outcome of a sequence of dispatches: final value and renders scheduled. */
  datatype Settled = Settled(value: Value, renders: nat)

  function DispatchAll(current: Value, updates: seq<Value>, call: Caller): (r: Settled)
    ensures r.renders <= |updates|
    decreases |updates|
  {
    if updates == [] then Settled(current, 0)
    else
      var d := Dispatch(current, updates[0], call);
      var rest := DispatchAll(d.value, updates[1..], call);
      Settled(rest.value, rest.renders + if d.scheduled then 1 else 0)
  }

  /**
   * After any non-empty sequence of dispatches whose last argument is a plain
   * value, the cell holds a value strictly equal to that last argument.
   */
  lemma {:induction false} LastDispatchWins(current: Value, updates: seq<Value>, call: Caller)
    requires updates != [] && !IsCallable(updates[|updates| - 1])
    ensures StrictlyEqual(DispatchAll(current, updates, call).value, updates[|updates| - 1])
    decreases |updates|
  {
    var d := Dispatch(current, updates[0], call);
    if |updates| > 1 {
      LastDispatchWins(d.value, updates[1..], call);
      assert updates[1..][|updates[1..]| - 1] == updates[|updates| - 1];
    }
  }

  /** Dispatching only values strictly equal to the stored one leaves it alone and never renders. */
  lemma {:induction false} EqualDispatchesScheduleNothing(current: Value, updates: seq<Value>, call: Caller)
    requires forall i :: 0 <= i < |updates| ==> !IsCallable(updates[i]) && StrictlyEqual(updates[i], current)
    ensures DispatchAll(current, updates, call) == Settled(current, 0)
    decreases |updates|
  {
    if updates != [] {
      EqualDispatchesScheduleNothing(current, updates[1..], call);
    }
  }

  /**
   * The updater `lambda last_state: reducer(last_state, action)` that the
   * reducer's dispatch hands to `set_state`. Its identity plays no part.
   */
  function ReducerUpdater(reducer: Value, action: Value): Value
  {
    FuncV(0, Some(0), [reducer, action])
  }

  /**
   * `call`, extended with the body of the updater closure: applied to
   * `last_state`, it calls `reducer(last_state, action)`.
   */
  function UpdaterCaller(call: Caller, reducer: Value, action: Value): Caller
  {
    (f: Value, args: seq<Value>) =>
      if f == ReducerUpdater(reducer, action) && |args| == 1 then call(reducer, [args[0], action]) else call(f, args)
  }

  /**
   * A reducer dispatch of `action` settles on `reducer(state, action)`: the
   * cell keeps its value when that result is strictly equal to it, and
   * otherwise stores it and schedules one render. This holds even when the
   * result is itself callable, which a plain `set_state` would have called.
   */
  lemma ReducerDispatchSettlesOnReducerResult(current: Value, reducer: Value, action: Value, call: Caller)
    ensures var d := Dispatch(current, ReducerUpdater(reducer, action), UpdaterCaller(call, reducer, action));
      var next := call(reducer, [current, action]);
      && (d.scheduled <==> !StrictlyEqual(next, current))
      && d.value == (if d.scheduled then next else current)
  {
  }

  /** `use_counter`'s updater adds one; `k` clicks move the counter by `k` and render `k` times. */
  lemma {:induction false} CounterClicks(start: int, inc: Value, k: nat, call: Caller)
    requires IsCallable(inc)
    requires forall n :: call(inc, [IntV(n)]) == IntV(n + 1)
    ensures DispatchAll(IntV(start), seq(k, _ => inc), call) == Settled(IntV(start + k), k)
    decreases k
  {
    if k > 0 {
      assert seq(k, _ => inc)[1..] == seq(k - 1, _ => inc);
      CounterClicks(start + 1, inc, k - 1, call);
    }
  }

  /** `use_toggle`'s updater negates; two clicks restore the value and render twice. */
  lemma ToggleTwice(b: bool, toggle: Value, call: Caller)
    requires IsCallable(toggle)
    requires forall x :: call(toggle, [BoolV(x)]) == BoolV(!x)
    ensures DispatchAll(BoolV(b), [toggle, toggle], call) == Settled(BoolV(b), 2)
  {
    var once := Dispatch(BoolV(b), toggle, call);
    assert once == Dispatched(BoolV(!b), true);
    assert Dispatch(BoolV(!b), toggle, call) == Dispatched(BoolV(b), true);
    assert [toggle, toggle][1..] == [toggle];
    assert DispatchAll(BoolV(!b), [toggle], call) == Settled(BoolV(b), 1);
  }
}
