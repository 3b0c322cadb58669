# A verified model of ReactPy's hooks, element constructors and shared renderer

This project models three parts of ReactPy in Dafny and proves properties of
them.

**Hooks** (`src/reactpy/core/hooks.py`). A component's hook store is a
`LifeCycleHook` object. It holds an ordered list of slots and a cursor that
each hook call advances. It also counts render requests and holds the
effects registered during the current render.
- `use_state` keeps a `StateCell`. The cell's `dispatch` compares the
  candidate value with the stored one under `strictly_equal`, and only a
  change stores the candidate and asks for a render.
- `use_reducer` wraps the state cell in a `ReducerDispatcher`.
- `use_memo` and `use_callback` keep a `Memo`. Its `deps` and `value` follow
  the recompute-or-reuse decision, which is stated once as
  `Memoization.Decide`.
- `use_ref` keeps a `Ref`.
- `use_effect` and `use_async_effect` combine a memo with a ref that holds
  the clean-up callable. They register a `SyncEffect` or an `AsyncEffect`
  whose start and stop steps run `run_effect_cleanup`, call the body and
  store what it returns. Each step is tied to a pure transition on the slot
  state (`EffectSteps`), which logs every body run and every clean-up call.
  For `use_effect`, over any sequence of starts and stops, the model proves
  that each registration's clean-up that returns normally runs at most once,
  in registration order, and before the next registration's body.
  For `use_async_effect`, it proves that no clean-up that returns normally
  runs twice, none stays pending, and each is followed by the cancellation
  of its task. The order is not guaranteed there: a later registration's body
  can start, and its clean-up can run, before an earlier registration's
  clean-up.

**Element constructors** (`src/reactpy/core/vdom.py`). A constructor call:
- separates the attributes from the children;
- flattens nested iterables of children, with the key-integrity warnings of
  debug mode;
- splits the attributes into plain attributes, event handlers and inline
  JavaScript;
- builds the node with the default or the custom constructor;
- checks children against `allow_children`.

The element schema is modelled as recursive predicates. The model proves
that a node the default constructor builds satisfies it under four
conditions:
- every child is an element or a string;
- a truthy import source is a valid import source;
- no attribute becomes an event handler;
- the key is `None`, a string or a number.

**Shared renderer** (`idom/core/render.py`). One layout serves many clients.
- A render step merges the new models into the shared model and deletes the
  removed ids.
- On success, the update is appended to every client's queue.
- A missing id raises `KeyError`, which ends the render loop's task. The
  update is not broadcast, and no later render reaches any client. The
  model records this as a `stopped` flag that every later step keeps.
- A client joining late gets a snapshot of the shared model when it holds
  the root. After that, its queue is consumed in order.

Calls into user code (effect bodies, updaters, reducers, custom
constructors) are a parameter `call: Caller`. Python values are the datatype
`PyValues.Value`, reduced to the distinctions the source draws:
- runtime type;
- truthiness;
- `callable`;
- iterability and length;
- `==`;
- for lambdas and local functions, a fingerprint of qualified name and
  bytecode.

Three facts about the code that the model keeps:
- A late joiner's snapshot is sent whenever the root is in the shared model.
  The client's queue is not checked (`idom/core/render.py:159-168`).
- An asynchronous effect's clean-up is only obtained if its body finished
  within the shutdown timeout (`src/reactpy/core/hooks.py:242-248`). The
  clean-up of a body that did not finish is never obtained, so it is never
  called. A finished body's clean-up runs only at that registration's own
  stop, which may come after later registrations' bodies have started.
- The rule that `tagName` is empty when `error` is present sits under
  `dependentSchemas` (`src/reactpy/core/vdom.py:56-59`). That keyword is not
  part of JSON Schema draft-07, so a draft-07 validator does not enforce the
  rule. The predicates state it.

## Model

| member | source | states |
|---|---|---|
| PyValues.PyEqReflexive | src/reactpy/core/hooks.py:617-620 | `==` on every modelled value is reflexive |
| PyValues.PyEqSymmetric | src/reactpy/core/hooks.py:617-620 | `==` on modelled values is symmetric |
| Equality.StrictlyEqualReflexive | src/reactpy/core/hooks.py:584-623 | every value is strictly equal to itself |
| Equality.StrictlyEqualSymmetric | src/reactpy/core/hooks.py:584-623 | strict equality is symmetric, including the bytecode comparison of lambdas |
| Equality.StrictlyEqualOnScalars | src/reactpy/core/hooks.py:597-620 | on `None`, `bool`, `int` and strings, strict equality is exactly equality of type and value |
| Equality.StrictlyEqualOnIdentityObjects | src/reactpy/core/hooks.py:617-623 | module-level functions, generators, components and plain objects are strictly equal only to themselves |
| Equality.LocalFunctionsCompareByCode | src/reactpy/core/hooks.py:601-615 | a lambda or local function equals exactly the functions with its qualified name and bytecode, whatever their closures hold; it never equals a module-level function |
| Equality.TypeTestIsShallow | src/reactpy/core/hooks.py:597-620 | `True` and `1` are not strictly equal, yet `[True]` and `[1]` are, and a tuple never equals a list |
| Equality.InferClosureValues | src/reactpy/core/hooks.py:567-581 | explicit dependencies pass through; inferring gives a function's closure values, and `None` for anything that is not a function |
| Equality.AllStrictlyEqual | src/reactpy/core/hooks.py:510-513 | true iff the two lists agree position by position up to the shorter length |
| Equality.DepsChanged | src/reactpy/core/hooks.py:507-514 | true iff the lengths differ or some position is not strictly equal |
| Equality.DepsUnchangedWhenSame | src/reactpy/core/hooks.py:507-518 | a dependency list never differs from itself |
| Memoization.RecomputesExactlyOnChange | src/reactpy/core/hooks.py:500-518 | once filled, the memo recomputes iff the new list differs, and then keeps the new list, otherwise the old |
| Memoization.AlwaysRecomputes | src/reactpy/core/hooks.py:500-506 | the first call and every call with no dependencies recompute; no dependencies store `()` |
| Memoization.SameDepsReuse | src/reactpy/core/hooks.py:507-518 | handing back the stored list never recomputes |
| Memoization.StableDepsReuse | src/reactpy/core/hooks.py:500-518 | after any call with a list, a second call with the same list reuses the value |
| Memoization.RecreatedLambdaIsStable | src/reactpy/core/hooks.py:500-518 | a lambda dependency re-created from the same source with new closure values does not trigger a recompute |
| Memoization.EmptyDepsComputeOnce | src/reactpy/core/hooks.py:500-518 | an empty dependency list computes once and is reused from then on |
| Memoization.ClosurelessFunctionComputedOnce | src/reactpy/core/hooks.py:571-577 | with inferred dependencies, a function without closure is computed once |
| Memoization.UninferableRecomputesEveryTime | src/reactpy/core/hooks.py:571-579 | with inferred dependencies, a callable object or no function recomputes on every call and stores `()` |
| StateUpdates.Settle | src/reactpy/core/hooks.py:96-99 | a render is scheduled iff the candidate is not strictly equal to the stored value; when scheduled the candidate itself is stored, otherwise the stored value is kept (a stored `[True]` stays when `[1]` is dispatched); either way the stored value is strictly equal to the candidate |
| StateUpdates.RedispatchIsNoop | src/reactpy/core/hooks.py:95-99 | dispatching the same plain value twice: the second dispatch changes nothing and schedules nothing |
| StateUpdates.DispatchAll | src/reactpy/core/hooks.py:95-99 | a sequence of dispatches schedules at most one render per dispatch |
| StateUpdates.LastDispatchWins | src/reactpy/core/hooks.py:95-99 | after dispatches ending with a plain value, the cell holds a value strictly equal to it |
| StateUpdates.EqualDispatchesScheduleNothing | src/reactpy/core/hooks.py:95-99 | dispatching only values equal to the stored one keeps it and schedules no render |
| StateUpdates.ReducerDispatchSettlesOnReducerResult | src/reactpy/core/hooks.py:401-408 | a reducer dispatch stores `reducer(state, action)` and renders iff that differs from the state, even when the result is callable |
| StateUpdates.CounterClicks | tests/tooling/hooks.py:14-16 | `k` clicks of the counter's updater add `k` and schedule `k` renders |
| StateUpdates.ToggleTwice | tests/tooling/hooks.py:8-10 | two toggles restore the value and schedule two renders |
| EffectSteps.RunCleanup | src/reactpy/core/hooks.py:626-629 | afterwards the ref holds a falsy value; a truthy stored clean-up is appended to the history as called, with the registration that stored it; a falsy one leaves the state unchanged |
| EffectSteps.CleanupIdempotent | src/reactpy/core/hooks.py:626-629 | running the clean-up twice is the same as running it once |
| EffectSteps.AsyncStopCleansOnlyIfFinished | src/reactpy/core/hooks.py:242-251 | stopping an async registration calls its clean-up iff the body finished in time and returned something truthy, and then cancels the asyncio task |
| EffectSteps.SyncCleanupsOnceAndInOrder | src/reactpy/core/hooks.py:155-168 | over any sequence of starts and stops, clean-ups that return normally are called in strictly increasing registration order (so at most once each); each truthy clean-up runs before the next body, and every superseded truthy clean-up has run |
| EffectSteps.AsyncCleanupsMayComeOutOfOrder | src/reactpy/core/hooks.py:228-251 | an async clean-up can run after a later registration's task was launched, and clean-ups of different registrations can run out of registration order |
| EffectSteps.AsyncCleanupsOnce | src/reactpy/core/hooks.py:228-251 | over any sequence of async starts and distinct stops, no clean-up that returns normally is called twice, none is left pending, and each is followed by the cancellation of its task |
| Hooks.LifeCycleHook.constructor | src/reactpy/core/hooks.py:563-564 | a new hook store has no slots, no effects and no render requests, and holds the given context providers |
| Hooks.LifeCycleHook.StartRender | src/reactpy/core/hooks.py:563-564 | a render reads the slots from the first one, starts with no effects registered, and keeps the store's invariant |
| Hooks.LifeCycleHook.ScheduleRender | src/reactpy/core/hooks.py:95-99 | one more render request |
| Hooks.LifeCycleHook.AddEffect | src/reactpy/core/hooks.py:170 | the effect is appended to the render's effects |
| Hooks.LifeCycleHook.UseState | src/reactpy/core/hooks.py:63-78 | the first render creates a cell holding the initial value; later renders return the same cell and its current value; the cursor moves by one |
| Hooks.LifeCycleHook.UseReducer | src/reactpy/core/hooks.py:381-398 | takes a state slot and a dispatcher slot; on the first render both are fresh, the state is the initial value and the dispatcher holds this reducer; later renders keep the slots, return the cell's value and the first render's dispatcher and reducer |
| Hooks.LifeCycleHook.MemoAt | src/reactpy/core/hooks.py:498 | the memo slot at the cursor: fresh and empty on the first render, the same memo later |
| Hooks.LifeCycleHook.UseMemo | src/reactpy/core/hooks.py:478-531 | the memo's deps follow the memo decision; on a change the function is called and its result stored and returned, otherwise the stored value is returned unchanged |
| Hooks.LifeCycleHook.UseCallback | src/reactpy/core/hooks.py:428-455 | uses one memo slot (fresh on the first render, the same memo later) whose deps follow the memo decision; returns and stores the new function when the dependencies changed, the stored one otherwise; without a function nothing is stored |
| Hooks.LifeCycleHook.UseRef | src/reactpy/core/hooks.py:551-560 | the first render creates a ref holding the initial value; later renders return the same ref |
| Hooks.LifeCycleHook.EffectSlots | src/reactpy/core/hooks.py:149-152 | an effect takes a memo slot and a ref slot, both fresh on the first render and the same objects later; a fresh ref holds `None` with no history or registrations; the memo's deps follow the decision on the inferred dependencies and its value is untouched |
| Hooks.LifeCycleHook.UseEffect | src/reactpy/core/hooks.py:126-176 | an effect is registered iff the memo decision says changed and a truthy function was given; it is appended to the effects, uses the slot's ref and gets the ref's next registration number; the memo then holds `None` as its value, and the ref's value and history are untouched |
| Hooks.LifeCycleHook.UseAsyncEffect | src/reactpy/core/hooks.py:195-259 | the same slots, registration rule and new state for an asynchronous effect |
| Hooks.LifeCycleHook.UseContext | src/reactpy/core/hooks.py:313-331 | the provider's value when a provider exists, the context's default otherwise |
| Hooks.EffectAcrossTwoRenders | src/reactpy/core/hooks.py:126-176 | over two renders of one component, the first registers iff its function is truthy; the second iff its function is truthy and either the first registered nothing or the dependencies changed; two registrations share the ref and are numbered 0 and 1 |
| Hooks.ReducerAcrossTwoRenders | src/reactpy/core/hooks.py:381-398 | over two renders, the second returns the first render's state and dispatcher, and the dispatcher keeps the first render's reducer |
| Hooks.CallbackAcrossTwoRenders | src/reactpy/core/hooks.py:428-455 | over two renders, the second returns its own function iff the dependencies changed, and the first render's function otherwise |
| Hooks.MemoAcrossTwoRenders | src/reactpy/core/hooks.py:478-531 | over two renders, the second calls its function iff the dependencies changed, and returns the first render's value otherwise |
| Hooks.StateCell.constructor | src/reactpy/core/hooks.py:84-93 | the cell holds `initial_value()` when that is callable and `initial_value` otherwise, and is bound to the current hook |
| Hooks.StateCell.Dispatch | src/reactpy/core/hooks.py:95-99 | the new value and the render request follow `Settle` on the candidate `new(value)` or `new` |
| Hooks.ReducerDispatcher.constructor | src/reactpy/core/hooks.py:401-408 | the dispatcher keeps the reducer and the state setter |
| Hooks.ReducerDispatcher.Dispatch | src/reactpy/core/hooks.py:405-406 | the cell settles on `reducer(old value, action)`, and a render is requested iff that result differs from the old value |
| Hooks.Memo.constructor | src/reactpy/core/hooks.py:534-548 | a new memo is empty |
| Hooks.Memo.Decide | src/reactpy/core/hooks.py:500-518 | the memo's deps and the `changed` flag follow the memo decision; an unchanged memo is filled |
| Hooks.Memo.Setup | src/reactpy/core/hooks.py:520-531 | on a change the function's result is stored and returned; otherwise the stored value is returned |
| Hooks.Ref.constructor | src/reactpy/core/hooks.py:551-560 | a ref holding the initial value, with no registrations yet |
| Hooks.RunEffectCleanup | src/reactpy/core/hooks.py:626-629 | the ref's state follows `RunCleanup` |
| Hooks.SyncEffect.constructor | src/reactpy/core/hooks.py:154-170 | a pending effect for the function, its ref and its registration number |
| Hooks.SyncEffect.Start | src/reactpy/core/hooks.py:155-164 | clean up the previous registration, run the body and store what it returns, as `SyncStart` |
| Hooks.SyncEffect.Stop | src/reactpy/core/hooks.py:166-168 | run the stored clean-up if not yet run, as `SyncStop` |
| Hooks.AsyncEffect.constructor | src/reactpy/core/hooks.py:227-253 | a pending asynchronous effect for the function, its ref and its registration number |
| Hooks.AsyncEffect.Start | src/reactpy/core/hooks.py:228-237 | clean up the previous registration and launch the body, as `AsyncStart` |
| Hooks.AsyncEffect.Stop | src/reactpy/core/hooks.py:239-251 | store the body's result if it finished, run the clean-up, cancel the asyncio task, as `AsyncStop` |
| Vdom.FlattenOne | src/reactpy/core/vdom.py:254-269 | flattening one child yields only single children |
| Vdom.Flatten | src/reactpy/core/vdom.py:254-261 | flattening yields only single children |
| Vdom.FlattenAppend | src/reactpy/core/vdom.py:254-261 | flattening distributes over concatenation |
| Vdom.FlattenFlat | src/reactpy/core/vdom.py:254-261 | a list of single children is left unchanged |
| Vdom.FlattenIdempotent | src/reactpy/core/vdom.py:254-261 | flattening twice is flattening once |
| Vdom.FlattenIgnoresNesting | src/reactpy/core/vdom.py:254-261 | a list, tuple or generator of children flattens like its items |
| Vdom.MissingKeys | src/reactpy/core/vdom.py:279-285 | at most one warning per child, and none iff every component and mapping child has a key |
| Vdom.ValidateChildKeyIntegrity | src/reactpy/core/vdom.py:272-285 | a generator gets the not-checked warning, a sized iterable one warning per unkeyed child |
| Vdom.NoWarningsWithoutDebug | src/reactpy/core/vdom.py:264-269 | outside debug mode flattening warns about nothing |
| Vdom.FlattenWarningsAppend | src/reactpy/core/vdom.py:254-269 | the warnings of a concatenation are the warnings of its parts, in order |
| Vdom.IsSingleChildWarn | src/reactpy/core/vdom.py:264-269 | strings, mappings and non-iterables are single; the key check runs on the others only in debug mode |
| Vdom.FlattenChildren | src/reactpy/core/vdom.py:254-261 | returns the flattened children and the warnings of the recursive definition |
| Vdom.SeparateAttributesAndChildren | src/reactpy/core/vdom.py:212-229 | a leading plain `dict` is exactly the attributes and the rest is flattened; otherwise there are no attributes and everything is flattened |
| Vdom.SeparateRoundTrip | src/reactpy/core/vdom.py:212-229 | a plain `dict` followed by single children separates back into exactly that `dict` and those children |
| Vdom.VdomDictFirstIsAChild | src/reactpy/core/vdom.py:221-225 | a leading `VdomDict` is a child, not attributes |
| Vdom.EventAttributeNameExamples | src/reactpy/core/vdom.py:35 | `onClick` and `onKeyDown` match the event-attribute pattern; `onclick`, `onC`, `on_Click`, `class` and `doClick` do not |
| Vdom.Place | src/reactpy/core/vdom.py:240-249 | callables and event handlers become handlers, strings under an event name and inline JavaScript become scripts, the rest stay attributes, in that priority |
| Vdom.SplitAttributes | src/reactpy/core/vdom.py:232-251 | the three maps partition the attribute keys, and each entry is where `Place` puts it |
| Vdom.SeparateAttributesHandlersAndInlineJavaScript | src/reactpy/core/vdom.py:232-251 | the loop builds exactly the partition `SplitAttributes` |
| Vdom.DefaultNode | src/reactpy/core/vdom.py:192-201 | each entry is present iff its part is not `None` (key) or not empty (the others), and holds that part; no other entries |
| Vdom.Call | src/reactpy/core/vdom.py:169-209 | a successful call returns a `VdomDict` whose `tagName` is the constructor's name, and has children only when the constructor allows them |
| Vdom.DefaultCallFields | src/reactpy/core/vdom.py:173-204 | with the default constructor the node is the default node plus `tagName`, and never carries `error` |
| Vdom.KeyStaysInAttributes | src/reactpy/core/vdom.py:174-177 | a plain `key` attribute becomes the node's key and also stays among its attributes |
| Vdom.ChildrenCheck | src/reactpy/core/vdom.py:178-207 | children on a constructor that allows none always fail; without that, and with serializable attributes, the default constructor succeeds |
| Vdom.GetAttr | src/reactpy/core/vdom.py:150-159 | nested components exist iff there is an import source; they are named `<name>.<attr>` and keep `allow_children` and the import source |
| Vdom.CallBuildsValidElement | src/reactpy/core/vdom.py:37-106 | a node from the default constructor satisfies the element schema when every child is an element or a string, a truthy import source is valid, no attribute is an event handler, and the key is `None`, a string or a number |
| Render.Outgoing | idom/core/render.py:171-173 | the message carries the root and the update's `src`, `new` and `old` |
| Render.ErrorNotSent | idom/core/render.py:171-173 | the update's error never reaches the message |
| Render.Evict | idom/core/render.py:153-154 | deleting ids leaves a sub-map that keeps every other id; when no id is missing, all listed ids are gone |
| Render.EvictOkIff | idom/core/render.py:153-154 | the deletions succeed iff the ids are distinct and all present |
| Render.StepEffect | idom/core/render.py:150-154 | after a successful step the shared model holds the new models except the removed ids, and the old models that were neither replaced nor removed |
| Render.StepOkIff | idom/core/render.py:150-154 | a step succeeds iff the removed ids are distinct and present after the merge |
| Render.Broadcast | idom/core/render.py:155-157 | the set of client queues is unchanged |
| Render.BroadcastAppendsAtTail | idom/core/render.py:155-157 | every client's queue gets exactly the update appended at its end |
| Render.Take | idom/core/render.py:171-173 | taking from one queue removes its head and leaves the others alone |
| Render.TakeBroadcastCommute | idom/core/render.py:155-173 | a client's next message does not change when an update is broadcast, and taking commutes with broadcasting |
| Render.BroadcastAllAppends | idom/core/render.py:147-157 | after the broadcasts of a sequence of successful steps, every queue is its old content followed by all updates in order |
| Render.StoppedLoopStaysStopped | idom/core/render.py:147-157 | once the render loop has stopped, no later update changes the shared model or any queue |
| Render.RunningLoopDeliversAll | idom/core/render.py:147-157 | if the loop is still running after a sequence of updates, it was running before, the clients are the same, and every queue holds its old content followed by all the updates in order |
| Render.SharedRenderer.constructor | idom/core/render.py:97-103 | an empty shared model, no client queues, and a render loop that has not stopped |
| Render.SharedRenderer.Run | idom/core/render.py:139-142 | joining registers a fresh, empty queue for the context |
| Render.SharedRenderer.RenderStep | idom/core/render.py:147-157 | on a stopped loop nothing changes; otherwise the shared model follows `Step`, the update is broadcast iff all deletions succeeded, and a failed deletion stops the loop |
| Render.SharedRenderer.RenderLoop | idom/core/render.py:147-157 | the loop's new state is the fold `Loop` of the steps over the updates, which stops at the first failed deletion |
| Render.SharedRenderer.DeleteOld | idom/core/render.py:153-154 | the deletion loop computes `Evict` |
| Render.SharedRenderer.PutAll | idom/core/render.py:155-157 | the put loop computes `Broadcast` |
| Render.SharedRenderer.Snapshot | idom/core/render.py:159-168 | a snapshot exists iff the root is in the shared model, and is the whole model with `src` the root and `old` empty |
| Render.SharedRenderer.Dequeue | idom/core/render.py:171-173 | an unknown context fails, an empty queue waits, and otherwise the head of the queue is sent and removed |

## Left out

- Concurrency and timing are not modelled. This covers asyncio tasks, task groups, `start`/`join`/`__aenter__`/`__aexit__`, the incoming loops, `ensure_future` and the shutdown timeout. An async body's completion within the timeout is the parameter `finished`. The render loop's `while True` is modelled over a finite sequence of updates.
- `HOOK_STACK` and the life-cycle hook's own module are not part of this model. The hook store is reduced to slots, a cursor, render requests, effects and context providers. The preconditions that slot kinds match the call order stand for the rule that hooks are called in the same order on every render.
- `use_debug_value`, `use_connection`, `use_scope`, `use_location`, `create_context` and `_ContextProvider` are not modelled. A context's default value is passed to `UseContext` directly.
- Hooks.LifeCycleHook.UseContext: does not model the `TypeError`s for a context without a `value` default, because these are unreachable for contexts built by `create_context`.
- The decorator forms of `use_effect`, `use_async_effect`, `use_memo` and `use_callback` are modelled only at the point of the call. A function applied later to the returned decorator is not modelled.
- `strictly_equal`: floats, complex numbers, bytes and NaN are not modelled. The bytecode comparison is abstracted to a fingerprint per lambda or local function. The fallback to identity for objects whose `==` raises is not modelled.
- Python's `id()` of lambdas is abstracted. StateUpdates.ReducerUpdater is a fixed function value carrying the reducer and the action.
- The text of warnings and the `warn` side effect are not modelled; only which warnings are issued.
- `json.dumps` is modelled by the predicate `JsonSerializable`. The fastjsonschema validator and `validate_vdom_json` are not modelled; the schema is stated as predicates instead.
- `to_event_handler_function` is not modelled. A callable attribute becomes an event handler wrapping that callable.
- `\w` in the event-attribute pattern is ASCII letters, digits and `_`; non-ASCII word characters are not modelled.
- The debugger-related attributes set in `Vdom.__init__` are not modelled.
- `src/reactpy/core/serve.py` is not part of this model.
- Ghost history in `Ref` and the effect classes logs body runs and clean-up calls; it is bookkeeping for the proofs and has no counterpart in the source.
- Exceptions raised by user code are not modelled; `Caller` always returns a value. The source's paths on such an exception differ from a normal return:
  - `use_memo` stores the new deps (`src/reactpy/core/hooks.py:503`, `515`) before calling the function (`523`). A raising function leaves those deps stored, so a later call with equal deps returns the stale value.
  - A raising synchronous effect body leaves the ref cleared by the clean-up that ran before it (`src/reactpy/core/hooks.py:158-161`).
  - In an asynchronous effect, `.result()` re-raises the body's exception (`src/reactpy/core/hooks.py:244`), which skips the clean-up and the cancellation (`248-251`).
  - A raising updater leaves the state cell unchanged and schedules nothing (`src/reactpy/core/hooks.py:96`).
  - `run_effect_cleanup` calls the stored clean-up (`src/reactpy/core/hooks.py:628`) before clearing the ref (`629`). A clean-up that raises therefore stays stored, and the next `run_effect_cleanup` calls it again: at the next registration's start, or at the stop of the same coroutine. The at-most-once results hold only for clean-ups that return normally.
- Vdom.FlattenChildren: a generator is read again each time its items are flattened. In Python a generator is exhausted after one pass, so reusing one yields no children the second time.
- Equality.StrictlyEqualOnIdentityObjects: plain objects compare by identity. An object whose class defines `__eq__`, such as a dataclass, compares by value at `src/reactpy/core/hooks.py:620`.
- Memoization.RecomputesExactlyOnChange: dependency lists are values. `memo.deps = dependencies` (`src/reactpy/core/hooks.py:515`) keeps the caller's own list, so a list mutated in place after the call compares equal to itself on the next call and does not trigger a recompute.
