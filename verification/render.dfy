/**
 * The bookkeeping of the renderers: the message a single-client renderer
 * sends for one layout update, and the shared renderer's model table (id to
 * serialized model) with one FIFO queue of updates per client context.
 */
module Render {
  import opened PyValues

  /** A layout update: the id rendered from, the models added, the ids removed, and an error. */
  datatype LayoutUpdate = LayoutUpdate(src: string, newModels: map<string, Value>, oldIds: seq<string>, error: Value)

  /** The dictionary sent to a client: `{"root", "src", "new", "old"}`. */
  datatype Message = Message(root: string, src: string, newModels: map<string, Value>, oldIds: seq<string>)

  /**
   * `SingleStateRenderer._outgoing` (and the shared one once the update is
   * dequeued): the update becomes a message for the layout's root; its error
   * is not sent.
   */
  function Outgoing(root: string, u: LayoutUpdate): (m: Message)
    ensures m.root == root && m.src == u.src && m.newModels == u.newModels && m.oldIds == u.oldIds
  {
    Message(root, u.src, u.newModels, u.oldIds)
  }

  /** Two updates that differ only in their error give the same message. */
  lemma ErrorNotSent(root: string, u: LayoutUpdate, error: Value)
    ensures Outgoing(root, u.(error := error)) == Outgoing(root, u)
  {
  }

  /** The table after deleting `ids` one by one, and whether every `del` found its id. */
  datatype Evicted = Evicted(models: map<string, Value>, ok: bool)

  /**
   * `for old_id in old: del models[old_id]`: stops at the first id that is not
   * there (`KeyError`), keeping the deletions made before it. Deletion only
   * removes entries; when it completes, none of the ids is left, and every
   * other entry stays.
   */
  function Evict(m: map<string, Value>, ids: seq<string>): (r: Evicted)
    ensures forall k :: k in r.models ==> k in m && r.models[k] == m[k]
    ensures forall k :: k in m && k !in ids ==> k in r.models
    ensures r.ok ==> forall i :: 0 <= i < |ids| ==> ids[i] !in r.models
    decreases |ids|
  {
    if ids == [] then Evicted(m, true)
    else if ids[0] !in m then Evicted(m, false)
    else
      var r := Evict(m - {ids[0]}, ids[1..]);
      assert forall k :: k in ids[1..] ==> k in ids;
      r
  }

  predicate Distinct(ids: seq<string>)
  {
    forall i, j :: 0 <= i < j < |ids| ==> ids[i] != ids[j]
  }

  /** Deleting succeeds exactly when the ids are distinct and all present. */
  lemma {:induction false} EvictOkIff(m: map<string, Value>, ids: seq<string>)
    ensures Evict(m, ids).ok <==> Distinct(ids) && forall i :: 0 <= i < |ids| ==> ids[i] in m
    decreases |ids|
  {
    if ids != [] && ids[0] in m {
      var m' := m - {ids[0]};
      EvictOkIff(m', ids[1..]);
      if Distinct(ids) && forall i :: 0 <= i < |ids| ==> ids[i] in m {
        forall i | 0 <= i < |ids[1..]| ensures ids[1..][i] in m' {
          assert ids[1..][i] == ids[i + 1] != ids[0];
        }
      }
      if Evict(m, ids).ok {
        forall i, j | 0 <= i < j < |ids| ensures ids[i] != ids[j] {
          if i > 0 {
            assert ids[i] == ids[1..][i - 1] && ids[j] == ids[1..][j - 1];
          } else {
            assert ids[j] == ids[1..][j - 1] && ids[1..][j - 1] in m';
          }
        }
        forall i | 0 <= i < |ids| ensures ids[i] in m {
          if i > 0 {
            assert ids[i] == ids[1..][i - 1] && ids[1..][i - 1] in m';
          }
        }
      }
    }
  }

  /** The table after one pass of the render loop's body; its `ok` flag is false when a `del` failed. */
  function Step(models: map<string, Value>, u: LayoutUpdate): Evicted
  {
    Evict(models + u.newModels, u.oldIds)
  }

  /**
   * After a successful render step: ids in `new` and not in `old` map to
   * their new model, ids in `old` are gone (even when also in `new`), and ids
   * in neither keep their model.
   */
  lemma StepEffect(models: map<string, Value>, u: LayoutUpdate)
    requires Step(models, u).ok
    ensures var after := Step(models, u).models;
      && (forall k :: k in u.newModels && k !in u.oldIds ==> k in after && after[k] == u.newModels[k])
      && (forall k :: k in u.oldIds ==> k !in after)
      && (forall k :: k !in u.newModels && k !in u.oldIds ==> (k in after <==> k in models))
      && (forall k :: k in models && k !in u.newModels && k !in u.oldIds ==> after[k] == models[k])
  {
    var after := Step(models, u).models;
    forall k | k in u.oldIds ensures k !in after {
      var i :| 0 <= i < |u.oldIds| && u.oldIds[i] == k;
    }
  }

  /** A render step succeeds exactly when `old` lists distinct ids, each in the table after merging `new`. */
  lemma StepOkIff(models: map<string, Value>, u: LayoutUpdate)
    ensures Step(models, u).ok <==>
      Distinct(u.oldIds) && forall i :: 0 <= i < |u.oldIds| ==> u.oldIds[i] in models || u.oldIds[i] in u.newModels
  {
    EvictOkIff(models + u.newModels, u.oldIds);
  }

  /** Every client queue with `u` appended at its tail. */
  function Broadcast(queues: map<string, seq<LayoutUpdate>>, u: LayoutUpdate): (r: map<string, seq<LayoutUpdate>>)
    ensures r.Keys == queues.Keys
  {
    map c | c in queues :: queues[c] + [u]
  }

  /** Each queue gets exactly one more update, `u`, at its tail; what it held before is untouched. */
  lemma BroadcastAppendsAtTail(queues: map<string, seq<LayoutUpdate>>, u: LayoutUpdate, c: string)
    requires c in queues
    ensures var r := Broadcast(queues, u);
      |r[c]| == |queues[c]| + 1 && r[c][..|queues[c]|] == queues[c] && r[c][|queues[c]|] == u
  {
    assert Broadcast(queues, u)[c] == queues[c] + [u];
  }

  /** A table of queues that has `u` appended to each queue is the broadcast. */
  lemma BroadcastPointwise(before: map<string, seq<LayoutUpdate>>, after: map<string, seq<LayoutUpdate>>, u: LayoutUpdate)
    requires after.Keys == before.Keys
    requires forall c :: c in after ==> after[c] == before[c] + [u]
    ensures after == Broadcast(before, u)
  {
  }

  /** The queue of `context` without its head. */
  function Take(queues: map<string, seq<LayoutUpdate>>, context: string): (r: map<string, seq<LayoutUpdate>>)
    requires context in queues && queues[context] != []
    ensures r.Keys == queues.Keys && r[context] == queues[context][1..]
    ensures forall c :: c in queues && c != context ==> r[c] == queues[c]
  {
    queues[context := queues[context][1..]]
  }

  /**
   * FIFO: taking from a non-empty queue gives the same head whether or not an
   * update was broadcast first, and taking commutes with broadcasting.
   */
  lemma TakeBroadcastCommute(queues: map<string, seq<LayoutUpdate>>, u: LayoutUpdate, context: string)
    requires context in queues && queues[context] != []
    ensures Broadcast(queues, u)[context][0] == queues[context][0]
    ensures Take(Broadcast(queues, u), context) == Broadcast(Take(queues, context), u)
  {
    var l := Take(Broadcast(queues, u), context);
    var r := Broadcast(Take(queues, context), u);
    assert l.Keys == r.Keys;
    forall c | c in l ensures l[c] == r[c] {
      if c == context {
        assert (queues[context] + [u])[1..] == queues[context][1..] + [u];
      }
    }
  }

  /** Broadcasting several updates appends them to every queue, in order. */
  function BroadcastAll(queues: map<string, seq<LayoutUpdate>>, us: seq<LayoutUpdate>): map<string, seq<LayoutUpdate>>
    decreases |us|
  {
    if us == [] then queues else BroadcastAll(Broadcast(queues, us[0]), us[1..])
  }

  lemma {:induction false} BroadcastAllAppends(queues: map<string, seq<LayoutUpdate>>, us: seq<LayoutUpdate>)
    ensures BroadcastAll(queues, us).Keys == queues.Keys
    ensures forall c :: c in queues ==> BroadcastAll(queues, us)[c] == queues[c] + us
    decreases |us|
  {
    if us == [] {
      forall c | c in queues ensures queues[c] + us == queues[c] {
      }
    } else {
      var q' := Broadcast(queues, us[0]);
      BroadcastAllAppends(q', us[1..]);
      assert BroadcastAll(queues, us) == BroadcastAll(q', us[1..]);
      forall c | c in queues ensures BroadcastAll(queues, us)[c] == queues[c] + us {
        assert q'[c] == queues[c] + [us[0]];
        assert queues[c] + [us[0]] + us[1..] == queues[c] + us;
      }
    }
  }

  /** The renderer's shared state: the table, the client queues, and whether `_render_loop` has ended. */
  datatype Shared = Shared(models: map<string, Value>, queues: map<string, seq<LayoutUpdate>>, stopped: bool)

  /**
   * One iteration of `_render_loop`. A failing `del` raises out of the loop,
   * which runs as a task of its own: the loop is over, and nothing it owns
   * changes again.
   */
  function LoopStep(s: Shared, u: LayoutUpdate): Shared
  {
    if s.stopped then s
    else
      var e := Step(s.models, u);
      Shared(e.models, if e.ok then Broadcast(s.queues, u) else s.queues, !e.ok)
  }

  /** `_render_loop` fed the successive results `us` of `layout.render()`. */
  function Loop(s: Shared, us: seq<LayoutUpdate>): Shared
    decreases |us|
  {
    if us == [] then s else Loop(LoopStep(s, us[0]), us[1..])
  }

  /** Once the loop has ended, no later render reaches the table or any client. */
  lemma {:induction false} StoppedLoopStaysStopped(s: Shared, us: seq<LayoutUpdate>)
    requires s.stopped
    ensures Loop(s, us) == s
    decreases |us|
  {
    if us != [] {
      StoppedLoopStaysStopped(LoopStep(s, us[0]), us[1..]);
    }
  }

  /**
   * A loop still running after the renders `us` was running before them and
   * has put every one of them, in order, on every client's queue.
   */
  lemma {:induction false} RunningLoopDeliversAll(s: Shared, us: seq<LayoutUpdate>)
    requires !Loop(s, us).stopped
    ensures !s.stopped
    ensures Loop(s, us).queues == BroadcastAll(s.queues, us) && Loop(s, us).queues.Keys == s.queues.Keys
    ensures forall c :: c in s.queues ==> Loop(s, us).queues[c] == s.queues[c] + us
    decreases |us|
  {
    if s.stopped {
      StoppedLoopStaysStopped(s, us);
    }
    if us != [] {
      var s1 := LoopStep(s, us[0]);
      RunningLoopDeliversAll(s1, us[1..]);
      assert s1.queues == Broadcast(s.queues, us[0]);
    }
    BroadcastAllAppends(s.queues, us);
  }

  /** What the shared `_outgoing` does for one context. */
  datatype Dequeued =
    | Sent(message: Message)
    | Waiting         // `queue.get()` blocks: the queue is empty
    | UnknownContext  // `KeyError`: no queue was registered for the context

  /** `SharedStateRenderer`: the shared model table and the queues of the connected clients. */
  class SharedRenderer {
    const root: string
    var models: map<string, Value>
    var queues: map<string, seq<LayoutUpdate>>
    /** `_render_loop` has ended with a `KeyError`. */
    var stopped: bool

    constructor (root: string)
      ensures this.root == root && models == map[] && queues == map[] && !stopped
    {
      this.root := root;
      models, queues, stopped := map[], map[], false;
    }

    function State(): Shared
      reads this
    {
      Shared(models, queues, stopped)
    }

    /** `run(send, recv, context)`, registration only: a fresh empty queue for `context`, replacing any earlier one. */
    method Run(context: string)
      modifies this`queues
      ensures queues == old(queues)[context := []]
    {
      queues := queues[context := []];
    }

    /**
     * One pass of `_render_loop`'s body on the update `u` the layout
     * rendered: merge `new` into the table, delete the ids of `old` one by
     * one, then put `u` on every queue. A failing `del` ends the pass and
     * the loop: the deletions before it stay, no queue is touched, and no
     * later pass runs.
     */
    method RenderStep(u: LayoutUpdate) returns (ok: bool)
      modifies this`models, this`queues, this`stopped
      ensures old(stopped) ==> !ok && stopped && models == old(models) && queues == old(queues)
      ensures !old(stopped) ==>
        && ok == Step(old(models), u).ok
        && models == Step(old(models), u).models
        && stopped == !ok
      ensures queues == if ok then Broadcast(old(queues), u) else old(queues)
    {
      if stopped {
        return false;
      }
      models := models + u.newModels;
      ok := DeleteOld(u.oldIds);
      if ok {
        PutAll(u);
      } else {
        stopped := true;
      }
    }

    /** `_render_loop` over the successive renders `us`, until a `KeyError` ends it. */
    method RenderLoop(us: seq<LayoutUpdate>)
      modifies this`models, this`queues, this`stopped
      ensures State() == Loop(old(State()), us)
    {
      var i := 0;
      while i < |us| && !stopped
        invariant 0 <= i <= |us|
        invariant Loop(State(), us[i..]) == Loop(old(State()), us)
      {
        assert us[i..][1..] == us[i + 1..];
        var ok := RenderStep(us[i]);
        i := i + 1;
      }
      if stopped {
        StoppedLoopStaysStopped(State(), us[i..]);
      } else {
        assert us[i..] == [];
      }
    }

    /** `for old_id in old: del self._models[old_id]`, stopping at the first `KeyError`. */
    method DeleteOld(ids: seq<string>) returns (ok: bool)
      modifies this`models
      ensures ok == Evict(old(models), ids).ok && models == Evict(old(models), ids).models
    {
      var i := 0;
      while i < |ids|
        invariant 0 <= i <= |ids|
        invariant Evict(models, ids[i..]) == Evict(old(models), ids)
      {
        var id := ids[i];
        assert ids[i..][1..] == ids[i + 1..];
        if id !in models {
          return false;
        }
        models := models - {id};
        i := i + 1;
      }
      assert ids[i..] == [];
      return true;
    }

    /** `for queue in self._updates.values(): await queue.put(u)` */
    method PutAll(u: LayoutUpdate)
      modifies this`queues
      ensures queues == Broadcast(old(queues), u)
    {
      var contexts := queues.Keys;
      while contexts != {}
        invariant contexts <= old(queues).Keys && queues.Keys == old(queues).Keys
        invariant forall c :: c in queues ==> queues[c] == if c in contexts then old(queues)[c] else old(queues)[c] + [u]
        decreases |contexts|
      {
        var c :| c in contexts;
        queues := queues[c := queues[c] + [u]];
        contexts := contexts - {c};
      }
      BroadcastPointwise(old(queues), queues, u);
    }

    /**
     * The snapshot `_outgoing_loop` sends a joining client first: the whole
     * table, from the root, with nothing removed, exactly when the root is
     * already in the table.
     */
    function Snapshot(): (r: Option<Message>)
      reads this
      ensures r.Some? <==> root in models
      ensures r.Some? ==> r.value == Message(root, root, models, [])
    {
      if root in models then Some(Message(root, root, models, [])) else None
    }

    /** The shared `_outgoing(layout, context)`: dequeue the head of that context's queue only. */
    method Dequeue(context: string) returns (r: Dequeued)
      modifies this`queues
      ensures context !in old(queues) ==> r == UnknownContext && queues == old(queues)
      ensures context in old(queues) && old(queues)[context] == [] ==> r == Waiting && queues == old(queues)
      ensures context in old(queues) && old(queues)[context] != [] ==>
        && r == Sent(Outgoing(root, old(queues)[context][0]))
        && queues == Take(old(queues), context)
    {
      if context !in queues {
        return UnknownContext;
      }
      var q := queues[context];
      if q == [] {
        return Waiting;
      }
      queues := queues[context := q[1..]];
      r := Sent(Outgoing(root, q[0]));
    }
  }
}
