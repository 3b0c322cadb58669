/**
 * The step order of the effect closures built by `use_effect` and
 * `use_async_effect`, over the clean-up `Ref` that all registrations of one
 * hook slot share. Each registration of the slot gets a number (0, 1, ...),
 * used only to say whose clean-up a call ran.
 */
module EffectSteps {
  import opened PyValues

  /** A call the effect closures make into user code or the asyncio task machinery. */
  datatype Event =
    | Body(registration: nat, returned: Value)  // a synchronous body ran and returned `returned`
    | Launch(registration: nat)                 // an asynchronous body was started as a task
    | Cleanup(registration: nat, fn: Value)     // a stored clean-up function was called
    | Cancel(registration: nat)                 // `task.cancel()`

  /**
   * The shared `Ref` (`current`, and the registration that stored it) and the
   * calls made so far.
   */
  datatype SlotState = SlotState(current: Value, storedBy: nat, history: seq<Event>)

  /**
   * `run_effect_cleanup(cleanup_func)`: a truthy stored value is called once
   * and the `Ref` is cleared, so that nothing is left to call.
   */
  function RunCleanup(s: SlotState): (r: SlotState)
    ensures !Truthy(r.current) && r.storedBy == s.storedBy
    ensures Truthy(s.current) ==> r.history == s.history + [Cleanup(s.storedBy, s.current)]
    ensures !Truthy(s.current) ==> r == s
  {
    if Truthy(s.current) then SlotState(NoneV, s.storedBy, s.history + [Cleanup(s.storedBy, s.current)])
    else s
  }

  /** A second `run_effect_cleanup` right after the first does nothing. */
  lemma CleanupIdempotent(s: SlotState)
    ensures RunCleanup(RunCleanup(s)) == RunCleanup(s)
  {
  }

  /**
   * The synchronous `effect(stop)` up to `await stop.wait()`: clean up what
   * the slot holds, run the body, store what it returned.
   */
  function SyncStart(s: SlotState, registration: nat, returned: Value): SlotState
  {
    var t := RunCleanup(s);
    SlotState(returned, registration, t.history + [Body(registration, returned)])
  }

  /** The synchronous `effect(stop)` after the stop signal. */
  function SyncStop(s: SlotState): SlotState
  {
    RunCleanup(s)
  }

  /** The asynchronous `effect(stop)` up to `await stop.wait()`: clean up, then start the asyncio task. */
  function AsyncStart(s: SlotState, registration: nat): SlotState
  {
    var t := RunCleanup(s);
    t.(history := t.history + [Launch(registration)])
  }

  /**
   * The asynchronous `effect(stop)` after the stop signal. `finished` says
   * whether the asyncio task completed within `shutdown_timeout`, and `returned` is
   * what it produced then.
   */
  function AsyncStop(s: SlotState, registration: nat, finished: bool, returned: Value): SlotState
  {
    var t := if finished then s.(current := returned, storedBy := registration) else s;
    var u := RunCleanup(t);
    u.(history := u.history + [Cancel(registration)])
  }

  /**
   * An asynchronous registration stopped on a slot with nothing pending calls
   * its own clean-up when, and only when, its task finished in time with a
   * truthy result; the asyncio task is cancelled after that, and nothing is left
   * pending.
   */
  lemma AsyncStopCleansOnlyIfFinished(s: SlotState, registration: nat, finished: bool, returned: Value)
    requires !Truthy(s.current)
    ensures var r := AsyncStop(s, registration, finished, returned);
      && r.history == s.history
                      + (if finished && Truthy(returned) then [Cleanup(registration, returned)] else [])
                      + [Cancel(registration)]
      && !Truthy(r.current)
  {
  }

  /** Registration numbers of all clean-up calls strictly increase along the history. */
  ghost predicate CleanupsIncreasing(h: seq<Event>)
  {
    forall i, j :: 0 <= i < j < |h| && h[i].Cleanup? && h[j].Cleanup? ==> h[i].registration < h[j].registration
  }

  /** The clean-up calls name pairwise different registrations. */
  ghost predicate CleanupsDistinct(h: seq<Event>)
  {
    forall i, j :: 0 <= i < j < |h| && h[i].Cleanup? && h[j].Cleanup? ==> h[i].registration != h[j].registration
  }

  /**
   * Before the body of registration k + 1 ran, the truthy clean-up that
   * registration k returned (`results[k]`) had been called.
   */
  ghost predicate CleanedBeforeNext(h: seq<Event>, results: seq<Value>)
  {
    forall j :: 0 <= j < |h| && h[j].Body? && 0 < h[j].registration <= |results|
                && Truthy(results[h[j].registration - 1])
      ==> Cleanup(h[j].registration - 1, results[h[j].registration - 1]) in h[..j]
  }

  /** One event of a synchronous slot's life: a registration starts, or some registration stops. */
  datatype SyncOp = Activate(returned: Value) | Deactivate

  /** Runs the operations; the next registration gets number `count`. */
  function SyncRun(s: SlotState, count: nat, ops: seq<SyncOp>): SlotState
    decreases |ops|
  {
    if ops == [] then s
    else match ops[0]
      case Activate(returned) => SyncRun(SyncStart(s, count, returned), count + 1, ops[1..])
      case Deactivate => SyncRun(SyncStop(s), count, ops[1..])
  }

  /** What the bodies of the registrations return, in order. */
  function Returns(ops: seq<SyncOp>): (r: seq<Value>)
    decreases |ops|
  {
    if ops == [] then []
    else (if ops[0].Activate? then [ops[0].returned] else []) + Returns(ops[1..])
  }

  /** Every logged call is a body or a clean-up of one of the first `n` registrations. */
  ghost predicate EventsOfRegistrations(h: seq<Event>, n: nat)
  {
    forall e :: e in h ==> (e.Body? || e.Cleanup?) && e.registration < n
  }

  /** A truthy stored value is the last registration's result, whose clean-up has not run. */
  ghost predicate PendingIsLast(s: SlotState, results: seq<Value>)
  {
    Truthy(s.current) ==>
      && |results| > 0
      && s.storedBy == |results| - 1
      && s.current == results[|results| - 1]
      && forall e :: e in s.history && e.Cleanup? ==> e.registration < |results| - 1
  }

  /** Every truthy result other than the pending one has been called. */
  ghost predicate SupersededCleaned(s: SlotState, results: seq<Value>)
  {
    forall k :: 0 <= k < |results| && Truthy(results[k]) && !(Truthy(s.current) && k == |results| - 1)
      ==> Cleanup(k, results[k]) in s.history
  }

  /**
   * The invariant of a synchronous slot after the registrations whose bodies
   * returned `results`: clean-ups ran in increasing order, at most the last
   * registration's clean-up is pending, every other truthy one has run, and
   * each ran before the next registration's body.
   */
  ghost predicate SyncInv(s: SlotState, results: seq<Value>)
  {
    && CleanupsIncreasing(s.history)
    && EventsOfRegistrations(s.history, |results|)
    && PendingIsLast(s, results)
    && SupersededCleaned(s, results)
    && CleanedBeforeNext(s.history, results)
  }

  lemma CleanupKeepsSyncInv(s: SlotState, results: seq<Value>)
    requires SyncInv(s, results)
    ensures SyncInv(RunCleanup(s), results)
  {
    if Truthy(s.current) {
      var h, h' := s.history, RunCleanup(s).history;
      forall j | 0 <= j < |h| ensures h'[..j] == h[..j] {
        assert h' == h + [h'[|h|]];
      }
    }
  }

  lemma BodyKeepsIncreasing(h: seq<Event>, b: Event)
    requires CleanupsIncreasing(h) && b.Body?
    ensures CleanupsIncreasing(h + [b])
  {
  }

  lemma BodyKeepsEvents(h: seq<Event>, n: nat, returned: Value)
    requires EventsOfRegistrations(h, n)
    ensures EventsOfRegistrations(h + [Body(n, returned)], n + 1)
  {
  }

  lemma BodyKeepsCleaned(t: SlotState, results: seq<Value>, returned: Value)
    requires !Truthy(t.current) && SupersededCleaned(t, results)
    ensures SupersededCleaned(SlotState(returned, |results|, t.history + [Body(|results|, returned)]), results + [returned])
  {
    var results' := results + [returned];
    var h' := t.history + [Body(|results|, returned)];
    forall k | 0 <= k < |results'| && Truthy(results'[k]) && !(Truthy(returned) && k == |results'| - 1)
      ensures Cleanup(k, results'[k]) in h'
    {
      assert results'[k] == results[k];
    }
  }

  lemma BodyKeepsOrder(t: SlotState, results: seq<Value>, returned: Value)
    requires !Truthy(t.current) && SupersededCleaned(t, results)
    requires EventsOfRegistrations(t.history, |results|) && CleanedBeforeNext(t.history, results)
    ensures CleanedBeforeNext(t.history + [Body(|results|, returned)], results + [returned])
  {
    var h := t.history;
    var h' := h + [Body(|results|, returned)];
    var results' := results + [returned];
    forall j | 0 <= j < |h'| && h'[j].Body? && 0 < h'[j].registration <= |results'|
              && Truthy(results'[h'[j].registration - 1])
      ensures Cleanup(h'[j].registration - 1, results'[h'[j].registration - 1]) in h'[..j]
    {
      var k := h'[j].registration - 1;
      if j < |h| {
        assert h'[j] in h;
        assert h'[..j] == h[..j];
        assert results'[k] == results[k];
      } else {
        assert h'[..j] == h;
        assert results'[k] == results[k];
      }
    }
  }

  lemma ActivateKeepsSyncInv(s: SlotState, results: seq<Value>, returned: Value)
    requires SyncInv(s, results)
    ensures SyncInv(SyncStart(s, |results|, returned), results + [returned])
  {
    CleanupKeepsSyncInv(s, results);
    var t := RunCleanup(s);
    BodyKeepsIncreasing(t.history, Body(|results|, returned));
    BodyKeepsEvents(t.history, |results|, returned);
    BodyKeepsCleaned(t, results, returned);
    BodyKeepsOrder(t, results, returned);
  }

  /** How the results seen so far grow by one operation. */
  lemma ReturnsStep(results: seq<Value>, ops: seq<SyncOp>)
    requires ops != []
    ensures ops[0].Activate? ==> results + [ops[0].returned] + Returns(ops[1..]) == results + Returns(ops)
    ensures ops[0].Deactivate? ==> results + Returns(ops[1..]) == results + Returns(ops)
  {
    var rest := Returns(ops[1..]);
    if ops[0].Activate? {
      assert Returns(ops) == [ops[0].returned] + rest;
      assert results + [ops[0].returned] + rest == results + ([ops[0].returned] + rest);
    } else {
      assert Returns(ops) == [] + rest;
      assert [] + rest == rest;
    }
  }

  lemma {:induction false} SyncRunKeepsInv(s: SlotState, results: seq<Value>, ops: seq<SyncOp>)
    requires SyncInv(s, results)
    ensures SyncInv(SyncRun(s, |results|, ops), results + Returns(ops))
    decreases |ops|
  {
    if ops == [] {
      assert results + Returns(ops) == results;
    } else {
      ReturnsStep(results, ops);
      match ops[0]
      case Activate(returned) =>
        ActivateKeepsSyncInv(s, results, returned);
        SyncRunKeepsInv(SyncStart(s, |results|, returned), results + [returned], ops[1..]);
      case Deactivate =>
        CleanupKeepsSyncInv(s, results);
        SyncRunKeepsInv(SyncStop(s), results, ops[1..]);
    }
  }

  /**
   * For every order in which a synchronous slot's registrations start and
   * stop: each registration's clean-up is called at most once (clean-ups run
   * in increasing registration order), registration k's truthy clean-up runs
   * before registration k + 1's body, and every superseded registration's
   * truthy clean-up has run.
   */
  lemma SyncCleanupsOnceAndInOrder(ops: seq<SyncOp>)
    ensures var s := SyncRun(SlotState(NoneV, 0, []), 0, ops);
      var results := Returns(ops);
      && CleanupsIncreasing(s.history)
      && CleanedBeforeNext(s.history, results)
      && forall k :: 0 <= k < |results| - 1 && Truthy(results[k]) ==> Cleanup(k, results[k]) in s.history
  {
    SyncRunKeepsInv(SlotState(NoneV, 0, []), [], ops);
    assert [] + Returns(ops) == Returns(ops);
  }

  /** One event of an asynchronous slot's life. */
  datatype AsyncOp = Start | Stop(registration: nat, finished: bool, returned: Value)

  function AsyncRun(s: SlotState, count: nat, ops: seq<AsyncOp>): SlotState
    decreases |ops|
  {
    if ops == [] then s
    else match ops[0]
      case Start => AsyncRun(AsyncStart(s, count), count + 1, ops[1..])
      case Stop(registration, finished, returned) =>
        AsyncRun(AsyncStop(s, registration, finished, returned), count, ops[1..])
  }

  /** Each registration is stopped at most once (its coroutine resumes once), and none of `stopped` again. */
  ghost predicate StopsFresh(ops: seq<AsyncOp>, stopped: set<nat>)
    decreases |ops|
  {
    ops == [] ||
    match ops[0]
    case Start => StopsFresh(ops[1..], stopped)
    case Stop(registration, _, _) => registration !in stopped && StopsFresh(ops[1..], stopped + {registration})
  }

  /**
   * The invariant of an asynchronous slot: nothing pending, each clean-up call
   * belongs to a stopped registration, no registration's clean-up is called
   * twice, and each clean-up is followed at once by its task's cancellation.
   */
  ghost predicate AsyncInv(s: SlotState, stopped: set<nat>)
  {
    && !Truthy(s.current)
    && CleanupsDistinct(s.history)
    && (forall i :: 0 <= i < |s.history| && s.history[i].Cleanup? ==>
          && s.history[i].registration in stopped
          && i + 1 < |s.history|
          && s.history[i + 1] == Cancel(s.history[i].registration))
  }

  lemma {:induction false} AsyncRunKeepsInv(s: SlotState, count: nat, stopped: set<nat>, ops: seq<AsyncOp>)
    requires AsyncInv(s, stopped) && StopsFresh(ops, stopped)
    ensures exists more: set<nat> :: AsyncInv(AsyncRun(s, count, ops), stopped + more)
    decreases |ops|
  {
    if ops == [] {
      assert stopped + {} == stopped;
    } else {
      match ops[0]
      case Start =>
        var t := AsyncStart(s, count);
        assert t.history == s.history + [Launch(count)];
        AsyncRunKeepsInv(t, count + 1, stopped, ops[1..]);
      case Stop(registration, finished, returned) =>
        var t := AsyncStop(s, registration, finished, returned);
        var stopped' := stopped + {registration};
        AsyncStopCleansOnlyIfFinished(s, registration, finished, returned);
        assert AsyncInv(t, stopped');
        AsyncRunKeepsInv(t, count, stopped', ops[1..]);
        var more :| AsyncInv(AsyncRun(t, count, ops[1..]), stopped' + more);
        assert stopped' + more == stopped + ({registration} + more);
    }
  }

  /**
   * For every order in which an asynchronous slot's registrations start and
   * stop (each stopping once): no registration's clean-up is called twice,
   * every clean-up call is followed at once by the cancellation of that
   * registration's task, and nothing is left pending.
   */
  lemma AsyncCleanupsOnce(ops: seq<AsyncOp>)
    requires StopsFresh(ops, {})
    ensures var s := AsyncRun(SlotState(NoneV, 0, []), 0, ops);
      && CleanupsDistinct(s.history)
      && !Truthy(s.current)
      && forall i :: 0 <= i < |s.history| && s.history[i].Cleanup? ==>
           i + 1 < |s.history| && s.history[i + 1] == Cancel(s.history[i].registration)
  {
    AsyncRunKeepsInv(SlotState(NoneV, 0, []), 0, {}, ops);
  }

  /**
   * Unlike the synchronous slot, an asynchronous slot does not call its
   * clean-ups in registration order, nor before the next body: a clean-up is
   * only obtained at its own registration's stop, after later tasks may have
   * been launched and even stopped.
   */
  lemma AsyncCleanupsMayComeOutOfOrder()
    ensures AsyncRun(SlotState(NoneV, 0, []), 0, [Start, Start, Stop(0, true, IntV(8))]).history
            == [Launch(0), Launch(1), Cleanup(0, IntV(8)), Cancel(0)]
    ensures var ops := [Start, Start, Stop(1, true, IntV(7)), Stop(0, true, IntV(8))];
      && StopsFresh(ops, {})
      && !CleanupsIncreasing(AsyncRun(SlotState(NoneV, 0, []), 0, ops).history)
  {
    var ops := [Start, Start, Stop(1, true, IntV(7)), Stop(0, true, IntV(8))];
    var h := AsyncRun(SlotState(NoneV, 0, []), 0, ops).history;
    assert h == [Launch(0), Launch(1), Cleanup(1, IntV(7)), Cancel(1), Cleanup(0, IntV(8)), Cancel(0)];
    assert h[2].Cleanup? && h[4].Cleanup? && h[2].registration > h[4].registration;
  }
}
