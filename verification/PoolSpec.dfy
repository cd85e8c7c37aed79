/** Values of the worker thread pool and what its critical sections do to them.
    The linked lists and the hash table are proved against these functions, and the
    step machine of module Engine is built from them. */
module PoolSpec {
  import opened Codec
  import opened Lists

  // A queued task: its request, its position in the submitted batch, and the
  // completion data it insists on, if any.
  datatype Task = Task(rid: Word, idx: nat, key: Option<Word>)

  // A wakeup waiting to be consumed by a worker.
  datatype Wake = Wake(rid: Word, data: Word)

  // A batch callback with its user data, by an identity; a batch may have none.
  type Callback = Option<nat>

  // The request context of the hash table: the worker the request is bound to, how many of its
  // tasks are not settled yet, and the batch callback.
  datatype Context = Context(worker: nat, pending: int, callback: Callback)

  function TaskOf(rid: Word): Task -> bool {
    (t: Task) => t.rid == rid
  }

  function WakeOf(rid: Word): Wake -> bool {
    (w: Wake) => w.rid == rid
  }

  // A task without a key takes any wakeup of its request, one with a key only its own.
  function Matching(rid: Word, data: Word): Task -> bool {
    (t: Task) => t.rid == rid && (t.key.None? || t.key.value == data)
  }

  // Publishing n more tasks; an existing context keeps its worker and its callback.
  function Published(ctx: Option<Context>, worker: nat, n: nat, callback: Callback): Context {
    if ctx.Some? then ctx.value.(pending := ctx.value.pending + n) else Context(worker, n, callback)
  }

  // Settling one executed task; the context goes away with the last one.
  function Settled(ctx: Option<Context>): Option<Context> {
    if ctx.None? || ctx.value.pending - 1 == 0 then None
    else Some(ctx.value.(pending := ctx.value.pending - 1))
  }

  // The batch callback belongs to the settlement that reaches zero.
  predicate SettlementFires(ctx: Option<Context>) {
    ctx.Some? && ctx.value.pending - 1 == 0
  }

  // Deducting tasks that a cancel removed; never fires the batch callback. The comparison is an
  // unsigned one, so that a negative count would never be reached.
  function Deducted(ctx: Option<Context>, removed: nat): Option<Context> {
    if ctx.None? || 0 <= ctx.value.pending <= removed then None
    else Some(ctx.value.(pending := ctx.value.pending - removed))
  }

  function Get<K, V>(m: map<K, V>, k: K): Option<V> {
    if k in m then Some(m[k]) else None
  }

  function Put<K, V>(m: map<K, V>, k: K, v: Option<V>): map<K, V> {
    match v
    case Some(x) => m[k := x]
    case None => m - {k}
  }

  // The context after n more settlements, and the callbacks that became due on the way.
  function SettledTimes(ctx: Option<Context>, n: nat): (Option<Context>, seq<Callback>) {
    if n == 0 then (ctx, [])
    else
      var (before, due) := SettledTimes(ctx, n - 1);
      (Settled(before), due + if SettlementFires(before) then [before.value.callback] else [])
  }

  lemma {:induction false} SettledOut(c: Context, k: nat)
    requires 0 < c.pending && k <= c.pending
    ensures SettledTimes(Some(c), k)
            == if k < c.pending then (Some(c.(pending := c.pending - k)), []) else (None, [c.callback])
  {
    if k > 0 {
      SettledOut(c, k - 1);
      var before := c.(pending := c.pending - (k - 1));
      var after := SettledTimes(Some(c), k);
      assert after.0 == Settled(Some(before));
      assert after.1 == if k == c.pending then [c.callback] else [];
    }
  }

  // A batch of n published under an id takes exactly n settlements more than were open before: until
  // then the context stays, bound to its first worker, and the last one makes due the callback that
  // was submitted first.
  lemma PublishAddsSettlements(ctx: Option<Context>, worker: nat, n: nat, callback: Callback, k: nat)
    requires n > 0 && (ctx.Some? ==> ctx.value.pending > 0)
    ensures var open := n + if ctx.Some? then ctx.value.pending else 0;
            var first := if ctx.Some? then ctx.value.callback else callback;
            var bound := if ctx.Some? then ctx.value.worker else worker;
            k <= open ==>
              SettledTimes(Some(Published(ctx, worker, n, callback)), k)
              == if k < open then (Some(Context(bound, open - k, first)), []) else (None, [first])
  {
    var c := Published(ctx, worker, n, callback);
    if k <= c.pending {
      SettledOut(c, k);
    }
  }

  // Tasks that a cancel removed need no settlement: deducting k of them leaves the context that k
  // settlements would leave, but makes no callback due.
  lemma DeductSavesSettlements(c: Context, k: nat)
    requires 0 < c.pending
    ensures Deducted(Some(c), k) == SettledTimes(Some(c), if k <= c.pending then k else c.pending).0
  {
    SettledOut(c, if k <= c.pending then k else c.pending);
  }
}
