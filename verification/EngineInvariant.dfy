/** What holds of every request in every reachable state of the engine. */
module EngineInvariant {
  import opened Codec
  import opened Lists
  import opened PoolSpec
  import opened Completion
  import opened Engine
  import opened Delivery

  // ----- The invariant of one request. The worker of the cell is the projection of its home.

  // The batch is the request's own and everything that names a worker names its home.
  ghost predicate Bound(c: Cell, rid: Word) {
    && c.req.batch != [] && (forall t | t in c.req.batch :: t.rid == rid)
    && (forall i | 0 <= i < |c.req.wakers| :: c.req.wakers[i].worker == c.req.home)
    && (forall j | 0 <= j < |c.req.cancels| :: c.req.cancels[j].worker == c.req.home)
    && (c.ctx.Some? ==> c.ctx.value.worker == c.req.home && c.ctx.value.callback == c.req.callback)
  }

  ghost predicate Early(c: Cell) {
    !c.req.published ==>
      && c.ctx.None? && c.req.wakers == [] && c.req.cancels == []
      && c.worker.pending == [] && c.worker.run.None?
      && c.req.flow.log == [] && c.req.flow.popped == [] && c.req.stage.Registering?
  }

  ghost predicate Sizes(c: Cell) {
    && |c.req.flow.popped| + |c.worker.queue| + |c.req.flow.removed| == |c.req.batch|
    && (if c.req.flow.cut.None? then c.req.flow.removed == [] else c.worker.queue == [])
  }

  function Share(req: Req, j: nat): nat {
    if req.flow.cut == Some(j) then |req.flow.removed| else 0
  }

  // Only the first cancel to reach the queue removes anything, and it reports exactly that.
  ghost predicate Cuts(req: Req) {
    && (req.flow.cut.Some? ==> req.flow.cut.value < |req.cancels| && !req.cancels[req.flow.cut.value].phase.Looked?)
    && forall j | 0 <= j < |req.cancels| ::
         !req.cancels[j].phase.Looked? ==> req.flow.cut.Some? && req.cancels[j].phase.k == Share(req, j)
  }

  function Undeducted(req: Req): nat {
    if req.flow.cut.Some? && req.flow.cut.value < |req.cancels| && req.cancels[req.flow.cut.value].phase.Removed?
    then |req.flow.removed| else 0
  }

  // Tasks that still count in the context: queued, handed out but not settled, removed but not deducted.
  function Live(c: Cell): nat {
    |c.worker.queue| + (if c.worker.run.Some? then 1 else 0) + Undeducted(c.req)
  }

  ghost predicate PoolLedger(c: Cell) {
    && (c.req.published ==> (c.ctx.Some? <==> Live(c) > 0) && (c.ctx.Some? ==> c.ctx.value.pending == Live(c)))
    && (c.req.tally.fired == [] || (c.req.tally.fired == [c.req.callback] && c.req.published && c.ctx.None?))
    && (c.req.published && c.ctx.None? && c.req.flow.removed == [] ==> c.req.tally.fired == [c.req.callback])
  }

  ghost predicate PoolInv(c: Cell, rid: Word) {
    Bound(c, rid) && Early(c) && Sizes(c) && Cuts(c.req) && PoolLedger(c)
  }

  predicate Accounted(stage: Stage) {
    stage.Releasing? || stage.Released?
  }

  // Tasks handed out whose body or mark is still to come.
  function Unmarked(w: Worker): nat {
    if w.run.Some? && !w.run.value.phase.Marked? then 1 else 0
  }

  function CountedCanceled(req: Req): nat {
    if Accounted(req.stage) && req.stage.at.Some? && req.flow.cut == req.stage.at then |req.flow.removed| else 0
  }

  ghost predicate SyncLedger(c: Cell) {
    && c.req.sync.total == |c.req.batch|
    && |c.req.flow.popped| == c.req.sync.completed + c.req.tally.failed + Unmarked(c.worker)
    && c.req.sync.canceled == CountedCanceled(c.req)
    && ((c.req.stage.Cancelling? || Accounted(c.req.stage)) && c.req.stage.at.Some? ==>
          c.req.stage.at.value < |c.req.cancels|
          && (Accounted(c.req.stage) ==> c.req.cancels[c.req.stage.at.value].phase.Returned?))
    && ((c.req.stage.Cancelling? || Accounted(c.req.stage)) && c.req.stage.at.None? ==> c.worker.queue == [])
  }

  // The record is claimed exactly when it is released and every task is counted.
  ghost predicate Freeing(req: Req) {
    && (req.sync.releaseRequested <==> req.stage.Released?)
    && (req.sync.requestCompleted <==>
          req.sync.completed + req.sync.canceled >= req.sync.total || req.tally.failed > 0 || req.tally.early)
    && (req.sync.freeing <==> req.stage.Released? && req.sync.completed + req.sync.canceled == req.sync.total)
    && req.tally.frees == (if req.sync.freeing then 1 else 0)
  }

  ghost predicate SyncInv(c: Cell) {
    SyncLedger(c) && Freeing(c.req)
  }

  ghost predicate Statuses(c: Cell) {
    && c.req.sync.urma == FirstFailure(c.req.tally.statuses)
    && (c.req.sync.urma != 0 ==>
          c.req.tally.failed > 0
          || (c.worker.run.Some? && c.worker.run.value.phase.Noted? && c.worker.run.value.phase.status != 0))
    && (c.req.stage.Released? ==>
          && c.req.stage.heard <= |c.req.tally.statuses|
          && c.req.stage.status == FirstFailure(c.req.tally.statuses[..c.req.stage.heard])
          && c.req.stage.returned == (if c.req.stage.status == 0 then c.req.stage.why else Failed))
  }

  predicate WaitEnded(stage: Stage) {
    stage.MustCancel? || stage.Cancelling? || Accounted(stage)
  }

  ghost predicate Verdicts(req: Req) {
    && (req.sync.requestCanceled <==> req.tally.failed > 0 || (Accounted(req.stage) && !req.stage.why.Success?))
    && (req.sync.requestTimedOut <==> WaitEnded(req.stage) && req.stage.why.TimedOut?)
    && (Accounted(req.stage) && req.stage.why.Success? ==>
          req.stage.at.None? && req.sync.completed == req.sync.total)
    && (req.stage.MustCancel? || req.stage.Cancelling? ==> !req.stage.why.Success?)
  }

  ghost predicate VerdictInv(c: Cell) {
    Statuses(c) && Verdicts(c.req)
  }

  function Failures(results: seq<int>): (n: nat)
    ensures n <= |results|
  {
    if results == [] then 0
    else Failures(results[..|results| - 1]) + if results[|results| - 1] == 0 then 0 else 1
  }

  function AllButLast(s: seq<int>): seq<int> {
    if s == [] then [] else s[..|s| - 1]
  }

  // The results of the bodies that ran, before the last one is noted or marked.
  function NotedResults(c: Cell): seq<int> {
    if c.worker.run.Some? && c.worker.run.value.phase.Ran? then AllButLast(c.req.tally.results) else c.req.tally.results
  }

  function MarkedResults(c: Cell): seq<int> {
    if c.worker.run.Some? && (c.worker.run.value.phase.Ran? || c.worker.run.value.phase.Noted?)
    then AllButLast(c.req.tally.results) else c.req.tally.results
  }

  // Every task handed out ran its body once; its result decides how it is counted, and is noted as a
  // status if and only if the request is a send.
  ghost predicate ResultsInv(c: Cell) {
    var run, results := c.worker.run, c.req.tally.results;
    && |results| == |c.req.flow.popped| - (if run.Some? && run.value.phase.Popped? then 1 else 0)
    && (run.Some? && (run.value.phase.Ran? || run.value.phase.Noted?) ==>
          results != [] && results[|results| - 1] == run.value.phase.status)
    && c.req.tally.failed == Failures(MarkedResults(c))
    && c.req.sync.completed == |MarkedResults(c)| - Failures(MarkedResults(c))
    && c.req.tally.statuses == (if c.req.send then NotedResults(c) else [])
  }

  function DataOf(pending: seq<Wake>): (data: seq<Word>)
    ensures |data| == |pending| && forall i | 0 <= i < |data| :: data[i] == pending[i].data
  {
    seq(|pending|, i requires 0 <= i < |pending| => pending[i].data)
  }

  // The queue is what the consumed wakeups left of the batch, until a cancel empties it for good.
  ghost predicate FlowInv(c: Cell, rid: Word) {
    && Replay(c.req.batch, rid, c.req.flow.log)
       == Outcome(c.req.flow.popped, if c.req.flow.cut.None? then c.worker.queue else c.req.flow.removed)
    && (c.worker.run.Some? ==>
          c.req.flow.popped != [] && c.worker.run.value.hit == c.req.flow.popped[|c.req.flow.popped| - 1])
  }

  // Until a cancel, wakeups are consumed in the order they were pushed and none is lost.
  ghost predicate Fifo(c: Cell) {
    c.req.flow.cut.None? ==> c.req.flow.pushed == c.req.flow.log + DataOf(c.worker.pending)
  }

  ghost predicate CellInv(c: Cell, rid: Word) {
    PoolInv(c, rid) && SyncInv(c) && VerdictInv(c) && ResultsInv(c) && FlowInv(c, rid) && Fifo(c)
  }
}
