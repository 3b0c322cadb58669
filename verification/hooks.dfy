/**
 * The hooks as they act on the per-component store: state cells, reducer
 * dispatchers, memo cells, refs and effect registrations. The store itself
 * (`LifeCycleHook`, reached through `HOOK_STACK.current_hook()`) is kept
 * abstract: one slot per hook call position, created on first access, a
 * cursor, a count of `schedule_render` calls and the effects added during the
 * current render.
 */
module Hooks {
  import opened PyValues
  import opened Equality
  import opened StateUpdates
  import Memoization
  import opened EffectSteps

  /** What a slot of the store holds, by the hook that created it. */
  datatype Slot =
    | StateSlot(cell: StateCell)
    | DispatcherSlot(dispatcher: ReducerDispatcher)
    | MemoSlot(memo: Memo)
    | RefSlot(ref: Ref)
  {
    function Obj(): object
    {
      match this
      case StateSlot(c) => c
      case DispatcherSlot(d) => d
      case MemoSlot(m) => m
      case RefSlot(r) => r
    }
  }

  /** An effect registered during the current render. */
  datatype EffectEntry = SyncEntry(sync: SyncEffect) | AsyncEntry(task: AsyncEffect)

  /** A caller that nothing is asked of. */
  function NoCalls(): Caller
  {
    (f: Value, args: seq<Value>) => NoneV
  }

  class LifeCycleHook {
    var slots: seq<Slot>
    var index: nat
    var renderRequests: nat
    var effects: seq<EffectEntry>
    /** The value of the nearest enclosing provider of each context. */
    var providers: map<Value, Value>

    /**
     * The cursor stays within the slots; every state cell belongs to this
     * store; a reducer's dispatcher sits right after the state cell it
     * dispatches to.
     */
    ghost predicate Valid()
      reads this
    {
      && index <= |slots|
      && (forall i :: 0 <= i < |slots| && slots[i].StateSlot? ==> slots[i].cell.hook == this)
      && (forall i :: 0 <= i < |slots| && slots[i].DispatcherSlot? ==>
            0 < i && slots[i - 1] == StateSlot(slots[i].dispatcher.setState))
    }

    constructor (providers: map<Value, Value>)
      ensures Valid()
      ensures slots == [] && index == 0 && renderRequests == 0 && effects == []
      ensures this.providers == providers
    {
      slots, index, renderRequests, effects := [], 0, 0, [];
      this.providers := providers;
    }

    /** The object held by slot `i`, if it exists. */
    function At(i: nat): set<object>
      reads this
    {
      if i < |slots| then {slots[i].Obj()} else {}
    }

    /** The value stored in the memo at slot `i` (`None` for an empty memo or a slot still to be created). */
    ghost function MemoValue(i: nat): Option<Value>
      reads this, At(i)
    {
      if i < |slots| && slots[i].MemoSlot? then slots[i].memo.value else None
    }

    /** The dependencies stored in the memo at slot `i` (empty for a slot still to be created). */
    ghost function MemoDeps(i: nat): seq<Value>
      reads this, At(i)
    {
      if i < |slots| && slots[i].MemoSlot? then slots[i].memo.deps else []
    }

    /** A new render of the component: the cursor returns to the first slot. */
    method StartRender()
      requires Valid()
      modifies this`index, this`effects
      ensures Valid()
      ensures index == 0 && effects == []
    {
      index, effects := 0, [];
    }

    /** `schedule_render`, counted. */
    method ScheduleRender()
      modifies this`renderRequests
      ensures renderRequests == old(renderRequests) + 1
    {
      renderRequests := renderRequests + 1;
    }

    /** `add_effect` */
    method AddEffect(e: EffectEntry)
      modifies this`effects
      ensures effects == old(effects) + [e]
    {
      effects := effects + [e];
    }

    /**
     * `use_state(initial_value)`: the first render creates the cell with the
     * initial value; every later render hands back the same cell and its
     * current value, ignoring `initial_value`.
     */
    method UseState(init: Value, call: Caller) returns (value: Value, cell: StateCell)
      requires Valid()
      requires index < |slots| ==> slots[index].StateSlot?
      modifies this`slots, this`index
      ensures Valid()
      ensures index == old(index) + 1 && slots[old(index)] == StateSlot(cell)
      ensures value == cell.value && cell.hook == this
      ensures old(index) < old(|slots|) ==> slots == old(slots)
      ensures old(index) == old(|slots|) ==>
        && fresh(cell) && slots == old(slots) + [StateSlot(cell)]
        && cell.value == InitialValue(init, call)
    {
      if index == |slots| {
        cell := new StateCell(init, this, call);
        slots := slots + [StateSlot(cell)];
      } else {
        cell := slots[index].cell;
      }
      index := index + 1;
      value := cell.value;
    }

    /**
     * `use_reducer(reducer, initial_value)`: a state cell, then the dispatcher
     * built on the first render. Later renders keep that first dispatcher, and
     * with it the first render's `reducer`.
     */
    method UseReducer(reducer: Value, init: Value, call: Caller) returns (state: Value, dispatcher: ReducerDispatcher)
      requires Valid()
      requires index < |slots| ==> slots[index].StateSlot?
      requires index + 1 < |slots| ==> slots[index + 1].DispatcherSlot?
      modifies this`slots, this`index
      ensures Valid()
      ensures index == old(index) + 2
      ensures slots[old(index)] == StateSlot(dispatcher.setState) && slots[old(index) + 1] == DispatcherSlot(dispatcher)
      ensures state == dispatcher.setState.value && dispatcher.setState.hook == this
      ensures old(index) + 1 < old(|slots|) ==> slots == old(slots)
      ensures old(index) + 1 == old(|slots|) ==>
        && slots == old(slots) + [DispatcherSlot(dispatcher)]
        && fresh(dispatcher) && dispatcher.reducer == reducer
      ensures old(index) == old(|slots|) ==>
        && slots == old(slots) + [StateSlot(dispatcher.setState), DispatcherSlot(dispatcher)]
        && fresh(dispatcher) && fresh(dispatcher.setState) && dispatcher.reducer == reducer
        && state == InitialValue(init, call)
    {
      var cell;
      state, cell := UseState(init, call);
      if index == |slots| {
        dispatcher := new ReducerDispatcher(reducer, cell);
        slots := slots + [DispatcherSlot(dispatcher)];
      } else {
        dispatcher := slots[index].dispatcher;
      }
      index := index + 1;
    }

    /** `_use_const(_Memo)`: the memo cell at the cursor, created empty on first access. */
    method MemoAt() returns (memo: Memo)
      requires Valid()
      requires index < |slots| ==> slots[index].MemoSlot?
      modifies this`slots, this`index
      ensures Valid()
      ensures index == old(index) + 1 && slots[old(index)] == MemoSlot(memo)
      ensures old(index) < old(|slots|) ==> slots == old(slots)
      ensures old(index) == old(|slots|) ==>
        fresh(memo) && memo.value == None && memo.deps == [] && slots == old(slots) + [MemoSlot(memo)]
    {
      if index == |slots| {
        memo := new Memo();
        slots := slots + [MemoSlot(memo)];
      } else {
        memo := slots[index].memo;
      }
      index := index + 1;
    }

    /**
     * `use_memo(function, dependencies)`: infer the dependencies and take the
     * memo decision (storing the dependencies it keeps); when a function is
     * given, produce the value, `function()` when the decision says so and the
     * stored value otherwise. Without a function, `setup` is left to the caller.
     */
    method UseMemo(func: Option<Value>, dependencies: DepsArg, call: Caller)
      returns (memo: Memo, changed: bool, result: Option<Value>)
      requires Valid()
      requires index < |slots| ==> slots[index].MemoSlot?
      modifies this`slots, this`index, At(index)
      ensures Valid()
      ensures index == old(index) + 1 && slots[old(index)] == MemoSlot(memo)
      ensures old(index) < old(|slots|) ==> slots == old(slots)
      ensures old(index) == old(|slots|) ==> fresh(memo) && slots == old(slots) + [MemoSlot(memo)]
      ensures var d := Memoization.Decide(old(MemoValue(index)).Some?, old(MemoDeps(index)),
                                          InferClosureValues(func, dependencies));
        changed == d.changed && memo.deps == d.deps
      ensures !changed ==> memo.value.Some?
      ensures func.None? || !changed ==> memo.value == old(MemoValue(index))
      ensures func.None? ==> result.None?
      ensures func.Some? && changed ==> result == Some(call(func.value, [])) && memo.value == result
      ensures func.Some? && !changed ==> result == memo.value
    {
      var deps := InferClosureValues(func, dependencies);
      memo := MemoAt();
      changed := memo.Decide(deps);
      if func.Some? {
        var v := memo.Setup(changed, func.value, call);
        result := Some(v);
      } else {
        result := None;
      }
    }

    /**
     * `use_callback(function, dependencies)`: the memoised thunk returns the
     * function itself, so the result is the new function when the decision
     * says so and the stored one otherwise.
     */
    method UseCallback(func: Option<Value>, dependencies: DepsArg)
      returns (memo: Memo, changed: bool, result: Option<Value>)
      requires Valid()
      requires index < |slots| ==> slots[index].MemoSlot?
      modifies this`slots, this`index, At(index)
      ensures Valid()
      ensures index == old(index) + 1 && slots[old(index)] == MemoSlot(memo)
      ensures old(index) < old(|slots|) ==> slots == old(slots)
      ensures old(index) == old(|slots|) ==> fresh(memo) && slots == old(slots) + [MemoSlot(memo)]
      ensures var d := Memoization.Decide(old(MemoValue(index)).Some?, old(MemoDeps(index)),
                                          InferClosureValues(func, dependencies));
        changed == d.changed && memo.deps == d.deps
      ensures func.None? ==> result.None? && memo.value == old(MemoValue(index))
      ensures func.Some? ==> memo.value == result
      ensures func.Some? && changed ==> result == func
      ensures func.Some? && !changed ==> result == old(MemoValue(index))
    {
      var produced;
      memo, changed, produced := UseMemo(None, Given(InferClosureValues(func, dependencies)), NoCalls());
      if func.Some? {
        var f := func.value;
        var v := memo.Setup(changed, f, (thunk: Value, args: seq<Value>) => f);
        result := Some(v);
      } else {
        result := None;
      }
    }

    /** `use_ref(initial_value)`: the ref at the cursor, created on first access. */
    method UseRef(initial: Value) returns (ref: Ref)
      requires Valid()
      requires index < |slots| ==> slots[index].RefSlot?
      modifies this`slots, this`index
      ensures Valid()
      ensures index == old(index) + 1 && slots[old(index)] == RefSlot(ref)
      ensures old(index) < old(|slots|) ==> slots == old(slots)
      ensures old(index) == old(|slots|) ==>
        && fresh(ref) && slots == old(slots) + [RefSlot(ref)]
        && ref.current == initial && ref.storedBy == 0 && ref.history == [] && ref.registrations == 0
    {
      if index == |slots| {
        ref := new Ref(initial);
        slots := slots + [RefSlot(ref)];
      } else {
        ref := slots[index].ref;
      }
      index := index + 1;
    }

    /**
     * The slots both effect hooks take: the memo deciding whether to register
     * (`use_memo(dependencies=...)`) and the clean-up ref (`use_ref(None)`).
     */
    method EffectSlots(func: Option<Value>, dependencies: DepsArg) returns (memo: Memo, changed: bool, ref: Ref)
      requires Valid()
      requires index < |slots| ==> slots[index].MemoSlot?
      requires index + 1 < |slots| ==> slots[index + 1].RefSlot?
      modifies this`slots, this`index, At(index)
      ensures Valid()
      ensures index == old(index) + 2 && slots[old(index)] == MemoSlot(memo) && slots[old(index) + 1] == RefSlot(ref)
      ensures old(index) + 1 < old(|slots|) ==> slots == old(slots) && old(slots)[old(index) + 1] == RefSlot(ref)
      ensures old(index) + 1 == old(|slots|) ==> slots == old(slots) + [RefSlot(ref)]
      ensures old(index) == old(|slots|) ==> slots == old(slots) + [MemoSlot(memo), RefSlot(ref)]
      ensures old(index) < old(|slots|) ==> old(slots)[old(index)] == MemoSlot(memo)
      ensures old(index) == old(|slots|) ==> fresh(memo)
      ensures old(index) + 1 >= old(|slots|) ==>
        fresh(ref) && ref.current == NoneV && ref.storedBy == 0 && ref.history == [] && ref.registrations == 0
      ensures var d := Memoization.Decide(old(MemoValue(index)).Some?, old(MemoDeps(index)),
                                          InferClosureValues(func, dependencies));
        changed == d.changed && memo.deps == d.deps
      ensures memo.value == old(MemoValue(index))
      ensures changed || memo.value.Some?
    {
      var produced;
      memo, changed, produced := UseMemo(None, Given(InferClosureValues(func, dependencies)), NoCalls());
      ref := UseRef(NoneV);
    }

    /**
     * `use_effect(function, dependencies)`: when the memo decision says so and
     * a function is given, one synchronous effect is added for this render,
     * tied to the slot's clean-up ref and numbered after the ref's earlier
     * registrations; otherwise no effect is added. (In the decorator form
     * the same happens when the decorator is applied.)
     */
    method UseEffect(func: Option<Value>, dependencies: DepsArg)
      returns (memo: Memo, ref: Ref, changed: bool, registered: Option<SyncEffect>)
      requires Valid()
      requires index < |slots| ==> slots[index].MemoSlot?
      requires index + 1 < |slots| ==> slots[index + 1].RefSlot?
      modifies this`slots, this`index, this`effects, At(index), At(index + 1)
      ensures Valid()
      ensures index == old(index) + 2 && slots[old(index)] == MemoSlot(memo) && slots[old(index) + 1] == RefSlot(ref)
      ensures old(index) + 1 < old(|slots|) ==> slots == old(slots)
      ensures old(index) + 1 == old(|slots|) ==> slots == old(slots) + [RefSlot(ref)]
      ensures old(index) == old(|slots|) ==> fresh(memo) && slots == old(slots) + [MemoSlot(memo), RefSlot(ref)]
      ensures var d := Memoization.Decide(old(MemoValue(index)).Some?, old(MemoDeps(index)),
                                          InferClosureValues(func, dependencies));
        changed == d.changed && memo.deps == d.deps
      ensures memo.value == if registered.Some? then Some(NoneV) else old(MemoValue(index))
      ensures old(index) + 1 < old(|slots|) ==>
        && old(slots)[old(index) + 1] == RefSlot(ref)
        && ref.current == old(ref.current) && ref.storedBy == old(ref.storedBy) && ref.history == old(ref.history)
        && ref.registrations == old(ref.registrations) + (if registered.Some? then 1 else 0)
      ensures old(index) + 1 >= old(|slots|) ==>
        && fresh(ref) && ref.current == NoneV && ref.storedBy == 0 && ref.history == []
        && ref.registrations == (if registered.Some? then 1 else 0)
      ensures registered.Some? <==> changed && func.Some? && Truthy(func.value)
      ensures registered.None? ==> effects == old(effects)
      ensures registered.Some? ==>
        var e := registered.value;
        && fresh(e) && effects == old(effects) + [SyncEntry(e)]
        && e.func == func.value && e.phase == Pending && e.ref == ref
        && e.registration == ref.registrations - 1
    {
      memo, changed, ref := EffectSlots(func, dependencies);
      if changed && func.Some? && Truthy(func.value) {
        var e := new SyncEffect(func.value, ref, ref.registrations);
        ref.registrations := ref.registrations + 1;
        AddEffect(SyncEntry(e));
        memo.value := Some(NoneV);
        registered := Some(e);
      } else {
        registered := None;
      }
    }

    /**
     * `use_async_effect(function, dependencies, shutdown_timeout)`: as
     * `use_effect`, with an asynchronous effect.
     */
    method UseAsyncEffect(func: Option<Value>, dependencies: DepsArg)
      returns (memo: Memo, ref: Ref, changed: bool, registered: Option<AsyncEffect>)
      requires Valid()
      requires index < |slots| ==> slots[index].MemoSlot?
      requires index + 1 < |slots| ==> slots[index + 1].RefSlot?
      modifies this`slots, this`index, this`effects, At(index), At(index + 1)
      ensures Valid()
      ensures index == old(index) + 2 && slots[old(index)] == MemoSlot(memo) && slots[old(index) + 1] == RefSlot(ref)
      ensures old(index) + 1 < old(|slots|) ==> slots == old(slots)
      ensures old(index) + 1 == old(|slots|) ==> slots == old(slots) + [RefSlot(ref)]
      ensures old(index) == old(|slots|) ==> fresh(memo) && slots == old(slots) + [MemoSlot(memo), RefSlot(ref)]
      ensures var d := Memoization.Decide(old(MemoValue(index)).Some?, old(MemoDeps(index)),
                                          InferClosureValues(func, dependencies));
        changed == d.changed && memo.deps == d.deps
      ensures memo.value == if registered.Some? then Some(NoneV) else old(MemoValue(index))
      ensures old(index) + 1 < old(|slots|) ==>
        && old(slots)[old(index) + 1] == RefSlot(ref)
        && ref.current == old(ref.current) && ref.storedBy == old(ref.storedBy) && ref.history == old(ref.history)
        && ref.registrations == old(ref.registrations) + (if registered.Some? then 1 else 0)
      ensures old(index) + 1 >= old(|slots|) ==>
        && fresh(ref) && ref.current == NoneV && ref.storedBy == 0 && ref.history == []
        && ref.registrations == (if registered.Some? then 1 else 0)
      ensures registered.Some? <==> changed && func.Some? && Truthy(func.value)
      ensures registered.None? ==> effects == old(effects)
      ensures registered.Some? ==>
        var e := registered.value;
        && fresh(e) && effects == old(effects) + [AsyncEntry(e)]
        && e.func == func.value && e.phase == Pending && e.ref == ref
        && e.registration == ref.registrations - 1
    {
      memo, changed, ref := EffectSlots(func, dependencies);
      if changed && func.Some? && Truthy(func.value) {
        var e := new AsyncEffect(func.value, ref, ref.registrations);
        ref.registrations := ref.registrations + 1;
        AddEffect(AsyncEntry(e));
        memo.value := Some(NoneV);
        registered := Some(e);
      } else {
        registered := None;
      }
    }

    /**
     * `use_context(context)`: the value of the nearest provider of `context`,
     * else the `value` default that `create_context` gave it (`default`).
     * `None` stands for the unmodelled `TypeError` of a context without one.
     */
    function UseContext(context: Value, default: Option<Value>): (r: Option<Value>)
      reads this
      ensures context in providers ==> r == Some(providers[context])
      ensures context !in providers ==> r == default
    {
      if context in providers then Some(providers[context]) else default
    }
  }

  /**
   * Two renders of a component whose only hook is `use_effect(f, deps)`: the
   * second render registers an effect exactly when its function is truthy and
   * either the first registered nothing or the dependencies changed. The two
   * registrations share the clean-up ref and are numbered 0 and 1.
   */
  method EffectAcrossTwoRenders(f1: Value, deps1: seq<Value>, f2: Value, deps2: seq<Value>)
    returns (first: Option<SyncEffect>, second: Option<SyncEffect>)
    ensures first.Some? <==> Truthy(f1)
    ensures second.Some? <==> Truthy(f2) && (!Truthy(f1) || DepsChanged(deps1, deps2))
    ensures first.Some? && second.Some? ==>
      first.value.ref == second.value.ref && first.value.registration == 0 && second.value.registration == 1
  {
    var hook := new LifeCycleHook(map[]);
    hook.StartRender();
    var m1, r1, c1;
    m1, r1, c1, first := hook.UseEffect(Some(f1), Given(Some(deps1)));
    hook.StartRender();
    var m2, r2, c2;
    m2, r2, c2, second := hook.UseEffect(Some(f2), Given(Some(deps2)));
  }

  /**
   * Two renders of `use_reducer`: the second hands back the first render's
   * dispatcher, with the first render's reducer, and the state the first
   * render initialised; its own `reducer` and `initial_value` are ignored.
   */
  method ReducerAcrossTwoRenders(r1: Value, init1: Value, r2: Value, init2: Value, call: Caller)
    returns (s1: Value, d1: ReducerDispatcher, s2: Value, d2: ReducerDispatcher)
    ensures s1 == InitialValue(init1, call) && s2 == s1
    ensures d2 == d1 && d2.reducer == r1
  {
    var hook := new LifeCycleHook(map[]);
    hook.StartRender();
    s1, d1 := hook.UseReducer(r1, init1, call);
    hook.StartRender();
    s2, d2 := hook.UseReducer(r2, init2, call);
  }

  /**
   * Two renders of `use_callback(f, deps)`: the second hands back its own
   * function when the dependencies changed and the first render's otherwise.
   */
  method CallbackAcrossTwoRenders(f1: Value, deps1: seq<Value>, f2: Value, deps2: seq<Value>)
    returns (c1: Option<Value>, c2: Option<Value>)
    ensures c1 == Some(f1)
    ensures c2 == if DepsChanged(deps1, deps2) then Some(f2) else Some(f1)
  {
    var hook := new LifeCycleHook(map[]);
    hook.StartRender();
    var m1, ch1;
    m1, ch1, c1 := hook.UseCallback(Some(f1), Given(Some(deps1)));
    hook.StartRender();
    var m2, ch2;
    m2, ch2, c2 := hook.UseCallback(Some(f2), Given(Some(deps2)));
  }

  /**
   * Two renders of `use_memo(f, deps)`: the second calls its function only
   * when the dependencies changed, and otherwise returns the first result.
   */
  method MemoAcrossTwoRenders(f1: Value, deps1: seq<Value>, f2: Value, deps2: seq<Value>, call: Caller)
    returns (v1: Option<Value>, v2: Option<Value>)
    ensures v1 == Some(call(f1, []))
    ensures v2 == if DepsChanged(deps1, deps2) then Some(call(f2, [])) else v1
  {
    var hook := new LifeCycleHook(map[]);
    hook.StartRender();
    var m1, ch1;
    m1, ch1, v1 := hook.UseMemo(Some(f1), Given(Some(deps1)), call);
    hook.StartRender();
    var m2, ch2;
    m2, ch2, v2 := hook.UseMemo(Some(f2), Given(Some(deps2)), call);
  }

  /** `_CurrentState`: the value of one `use_state` call position. */
  class StateCell {
    var value: Value
    const hook: LifeCycleHook

    constructor (init: Value, hook: LifeCycleHook, call: Caller)
      ensures value == InitialValue(init, call) && this.hook == hook
    {
      if IsCallable(init) {
        value := call(init, []);
      } else {
        value := init;
      }
      this.hook := hook;
    }

    /**
     * `dispatch(new)`: the cell takes the candidate value and one render is
     * scheduled exactly when the candidate is not strictly equal to the
     * stored value; otherwise nothing changes.
     */
    method Dispatch(update: Value, call: Caller)
      modifies this`value, hook`renderRequests
      ensures var d := StateUpdates.Dispatch(old(value), update, call);
        && value == d.value
        && hook.renderRequests == old(hook.renderRequests) + (if d.scheduled then 1 else 0)
    {
      var next := if IsCallable(update) then call(update, [value]) else update;
      if !StrictlyEqual(next, value) {
        value := next;
        hook.ScheduleRender();
      }
    }
  }

  /** The `dispatch` that `_create_dispatcher(reducer, set_state)` returns. */
  class ReducerDispatcher {
    const reducer: Value
    const setState: StateCell

    constructor (reducer: Value, setState: StateCell)
      ensures this.reducer == reducer && this.setState == setState
    {
      this.reducer := reducer;
      this.setState := setState;
    }

    /**
     * `dispatch(action)`: `set_state(lambda last_state: reducer(last_state, action))`,
     * so the cell settles on `reducer(state, action)`.
     */
    method Dispatch(action: Value, call: Caller)
      modifies setState`value, setState.hook`renderRequests
      ensures var next := call(reducer, [old(setState.value), action]);
        var d := Settle(old(setState.value), next);
        && setState.value == d.value
        && setState.hook.renderRequests == old(setState.hook.renderRequests) + (if d.scheduled then 1 else 0)
    {
      ReducerDispatchSettlesOnReducerResult(setState.value, reducer, action, call);
      setState.Dispatch(ReducerUpdater(reducer, action), UpdaterCaller(call, reducer, action));
    }
  }

  /** `_Memo`: `value` is `None` while the memo is empty. */
  class Memo {
    var value: Option<Value>
    var deps: seq<Value>

    constructor ()
      ensures value == None && deps == []
    {
      value, deps := None, [];
    }

    /** The decision of `use_memo`, storing the dependencies it keeps. */
    method Decide(dependencies: Option<seq<Value>>) returns (changed: bool)
      modifies this`deps
      ensures var d := Memoization.Decide(value.Some?, old(deps), dependencies);
        changed == d.changed && deps == d.deps
      ensures changed || value.Some?
    {
      if value.None? {
        changed := true;
        deps := if dependencies.None? then [] else dependencies.value;
      } else if dependencies.None? {
        changed := true;
        deps := [];
      } else if |deps| != |dependencies.value| || !AllStrictlyEqual(deps, dependencies.value) {
        deps := dependencies.value;
        changed := true;
      } else {
        changed := false;
      }
    }

    /** `setup(function)`: compute and store when changed, else hand back the stored value. */
    method Setup(changed: bool, func: Value, call: Caller) returns (result: Value)
      requires changed || value.Some?
      modifies this`value
      ensures changed ==> result == call(func, []) && value == Some(result)
      ensures !changed ==> value == old(value) && value == Some(result)
    {
      if changed {
        result := call(func, []);
        value := Some(result);
      } else {
        result := value.value;
      }
    }
  }

  /**
   * `Ref`, with the bookkeeping of the effect registrations that share it:
   * which registration stored `current`, the calls made so far, and how many
   * registrations the slot has had.
   */
  class Ref {
    var current: Value
    ghost var storedBy: nat
    ghost var history: seq<Event>
    ghost var registrations: nat

    constructor (initial: Value)
      ensures current == initial && storedBy == 0 && history == [] && registrations == 0
    {
      current := initial;
      storedBy, history, registrations := 0, [], 0;
    }

    ghost function State(): SlotState
      reads this
    {
      SlotState(current, storedBy, history)
    }
  }

  /** `run_effect_cleanup(cleanup_func)` */
  method RunEffectCleanup(ref: Ref)
    modifies ref`current, ref`history
    ensures ref.State() == RunCleanup(old(ref.State()))
  {
    if Truthy(ref.current) {
      ref.history := ref.history + [Cleanup(ref.storedBy, ref.current)];
      ref.current := NoneV;
    }
  }

  /** Where an effect coroutine is: not started, waiting for the stop signal, or done. */
  datatype Phase = Pending | Running | Stopped

  /** The coroutine `effect(stop)` that `use_effect` adds. */
  class SyncEffect {
    const func: Value
    const ref: Ref
    ghost const registration: nat
    var phase: Phase

    constructor (func: Value, ref: Ref, ghost registration: nat)
      ensures this.func == func && this.ref == ref && this.registration == registration && phase == Pending
    {
      this.func, this.ref, this.registration := func, ref, registration;
      phase := Pending;
    }

    /** Up to `await stop.wait()`: clean up the previous effect, run the body, store its clean-up. */
    method Start(call: Caller)
      requires phase == Pending
      modifies this`phase, ref`current, ref`storedBy, ref`history
      ensures phase == Running
      ensures ref.State() == SyncStart(old(ref.State()), registration, call(func, []))
    {
      RunEffectCleanup(ref);
      var returned := call(func, []);
      ref.history := ref.history + [Body(registration, returned)];
      ref.current, ref.storedBy := returned, registration;
      phase := Running;
    }

    /** After the stop signal: run the clean-up, unless a later effect already ran it. */
    method Stop()
      requires phase == Running
      modifies this`phase, ref`current, ref`history
      ensures phase == Stopped
      ensures ref.State() == SyncStop(old(ref.State()))
    {
      RunEffectCleanup(ref);
      phase := Stopped;
    }
  }

  /** The coroutine `effect(stop)` that `use_async_effect` adds. */
  class AsyncEffect {
    const func: Value
    const ref: Ref
    ghost const registration: nat
    var phase: Phase

    constructor (func: Value, ref: Ref, ghost registration: nat)
      ensures this.func == func && this.ref == ref && this.registration == registration && phase == Pending
    {
      this.func, this.ref, this.registration := func, ref, registration;
      phase := Pending;
    }

    /** Up to `await stop.wait()`: clean up the previous effect, start the body as a task. */
    method Start()
      requires phase == Pending
      modifies this`phase, ref`current, ref`history
      ensures phase == Running
      ensures ref.State() == AsyncStart(old(ref.State()), registration)
    {
      RunEffectCleanup(ref);
      ref.history := ref.history + [Launch(registration)];
      phase := Running;
    }

    /**
     * After the stop signal: when the asyncio task finished within the timeout
     * (`finished`), store what it returned; run the clean-up; cancel the asyncio task.
     */
    method Stop(finished: bool, call: Caller)
      requires phase == Running
      modifies this`phase, ref`current, ref`storedBy, ref`history
      ensures phase == Stopped
      ensures ref.State() == AsyncStop(old(ref.State()), registration, finished, call(func, []))
    {
      if finished {
        ref.current, ref.storedBy := call(func, []), registration;
      }
      RunEffectCleanup(ref);
      ref.history := ref.history + [Cancel(registration)];
      phase := Stopped;
    }
  }
}
