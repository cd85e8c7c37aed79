/** The request engine as a machine of atomic steps, one per critical section.

    A state holds every worker with its queue, its pending wakeups and the task it runs; the
    table of request contexts; and one record per request with the local variables of the
    threads that work for it (submitter, wakers, cancellers, releaser) and with history. */
module Engine {
  import opened Codec
  import opened Lists
  import opened PoolSpec
  import opened Completion

  // A task handed to a worker together with the completion data that selected it.
  datatype Hit = Hit(task: Task, data: Word)

  // How far the worker got: the body returned, its status was noted, the record was marked.
  datatype Phase = Popped | Ran(status: int) | Noted(status: int) | Marked

  datatype Running = Running(hit: Hit, phase: Phase)

  datatype Worker = Worker(queue: seq<Task>, pending: seq<Wake>, run: Option<Running>)

  // A waker between its lookup and its push.
  datatype Waker = Waker(worker: nat, data: Word)

  // A canceller after its lookup: not yet at the worker, k tasks removed, k tasks deducted.
  datatype CancelPhase = Looked | Removed(k: nat) | Returned(k: nat)
  datatype Canceller = Canceller(worker: nat, phase: CancelPhase)

  datatype Verdict = Success | TimedOut | Failed | ByCancelCall

  // The one thread that submits, waits for (or cancels) and finally releases the request. It is
  // Waiting once its wait has found the request incomplete and blocked.
  // `at` names its own cancel in `cancels`, or is None when the lookup found no context;
  // `heard` is how many statuses had been noted when the result was read.
  datatype Stage =
    | Registering
    | Holding
    | Waiting
    | MustCancel(why: Verdict)
    | Cancelling(why: Verdict, at: Option<nat>)
    | Releasing(why: Verdict, at: Option<nat>)
    | Released(why: Verdict, at: Option<nat>, returned: Verdict, status: int, heard: nat)

  // What became of the batch.
  datatype Flow = Flow(
    pushed: seq<Word>,      // data of the wakeups, in the order they were pushed
    log: seq<Word>,         // data of the wakeups consumed before the first cancel
    popped: seq<Hit>,       // tasks handed to the worker, in order
    cut: Option<nat>,       // which cancel reached the queue first
    removed: seq<Task>)     // what it removed

  datatype Tally = Tally(
    results: seq<int>,      // what the bodies returned, in the order they ran
    statuses: seq<int>,     // statuses noted
    failed: nat,            // tasks marked as failed
    fired: seq<Callback>,   // batch callbacks that became due
    early: bool,            // the first chunk could not be posted
    frees: nat)             // claims of the record

  datatype Req = Req(
    home: nat,              // the worker the batch was attached to
    batch: seq<Task>,       // the tasks submitted
    send: bool,             // send tasks note their URMA status, recv tasks have none
    callback: Callback,     // the batch callback submitted with them
    published: bool,        // the submitter has published the context
    wakers: seq<Waker>,
    cancels: seq<Canceller>,
    stage: Stage,
    sync: Sync,
    flow: Flow,
    tally: Tally)

  datatype State = State(workers: seq<Worker>, table: map<Word, Context>, reqs: map<Word, Req>)

  // The part of the state that one step of one request can touch.
  datatype Cell = Cell(req: Req, ctx: Option<Context>, worker: Worker)

  datatype Act =
    | Publish | Return(firstPostFailed: bool)
    | WakeLookup(data: Word) | WakePush(i: nat)
    | Pop | RunBody(result: int) | NoteStatus | MarkSync | SettleContext
    | CancelLookup | CancelRemove(j: nat) | CancelDeduct(j: nat)
    | Block | WaitEnds(outcome: Verdict) | CallCancel | OwnLookup | AccountCancel | Release

  datatype Step =
    | Attach(rid: Word, w: nat, batch: seq<Task>, send: bool, callback: Callback)
    | Do(rid: Word, w: nat, act: Act)

  function Without<T>(s: seq<T>, i: nat): seq<T>
    requires i < |s|
  {
    s[..i] + s[i + 1..]
  }

  /** When request rid may take act with worker w. */
  predicate Can(c: Cell, rid: Word, w: nat, act: Act) {
    match act
    case Publish => !c.req.published
    case Return(_) => c.req.published && c.req.stage.Registering?
    case WakeLookup(_) => true
    case WakePush(i) => i < |c.req.wakers| && c.req.wakers[i].worker == w
    case Pop => c.worker.run.None? && c.worker.pending != [] && c.worker.pending[0].rid == rid
    case RunBody(_) => Runs(c.worker, rid) && c.worker.run.value.phase.Popped?
    case NoteStatus => Runs(c.worker, rid) && c.worker.run.value.phase.Ran?
    case MarkSync => Runs(c.worker, rid) && c.worker.run.value.phase.Noted?
    case SettleContext => Runs(c.worker, rid) && c.worker.run.value.phase.Marked?
    case CancelLookup => true
    case CancelRemove(j) =>
      j < |c.req.cancels| && c.req.cancels[j].worker == w && c.req.cancels[j].phase.Looked?
    case CancelDeduct(j) => j < |c.req.cancels| && c.req.cancels[j].phase.Removed?
    case Block => c.req.stage.Holding? && !c.req.sync.requestCompleted
    case WaitEnds(outcome) => MayEnd(c.req, outcome)
    case CallCancel => c.req.stage.Holding?
    case OwnLookup => c.req.stage.MustCancel?
    case AccountCancel =>
      c.req.stage.Cancelling? && OwnCancelReturned(c.req)
    case Release => c.req.stage.Releasing?
  }

  // A wait that blocked can run out of time or fail although the request completed meanwhile.
  predicate MayEnd(req: Req, outcome: Verdict) {
    match outcome
    case Success => InWait(req.stage) && req.sync.requestCompleted && req.sync.Succeeded()
    case TimedOut => req.stage.Waiting?
    case Failed => req.stage.Waiting? || (req.stage.Holding? && req.sync.requestCompleted && !req.sync.Succeeded())
    case ByCancelCall => false
  }

  predicate InWait(stage: Stage) {
    stage.Holding? || stage.Waiting?
  }

  predicate Runs(w: Worker, rid: Word) {
    w.run.Some? && w.run.value.hit.task.rid == rid
  }

  // ----- What the acts do, in the order of a request's life.

  function DoPublish(c: Cell): Cell {
    c.(req := c.req.(published := true), ctx := Some(Published(c.ctx, c.req.home, |c.req.batch|, c.req.callback)))
  }

  // The API call returns; a first chunk that could not be posted completes the record at once.
  function DoReturn(c: Cell, firstPostFailed: bool): Cell {
    var sync := if firstPostFailed then c.req.sync.(requestCompleted := true) else c.req.sync;
    var tally := c.req.tally.(early := c.req.tally.early || firstPostFailed);
    c.(req := c.req.(stage := Holding, sync := sync, tally := tally))
  }

  function DoWakeLookup(c: Cell, data: Word): Cell {
    if c.ctx.None? then c
    else c.(req := c.req.(wakers := c.req.wakers + [Waker(c.ctx.value.worker, data)]))
  }

  function DoWakePush(c: Cell, rid: Word, i: nat): Cell
    requires i < |c.req.wakers|
  {
    var flow := c.req.flow.(pushed := c.req.flow.pushed + [c.req.wakers[i].data]);
    c.(req := c.req.(wakers := Without(c.req.wakers, i), flow := flow),
       worker := c.worker.(pending := c.worker.pending + [Wake(rid, c.req.wakers[i].data)]))
  }

  // The worker's critical section: consume one wakeup, take the task it selects.
  function DoPop(c: Cell, rid: Word): Cell
    requires c.worker.pending != []
  {
    var data := c.worker.pending[0].data;
    var taken := TakeFirst(c.worker.queue, Matching(rid, data));
    var worker := c.worker.(queue := taken.rest, pending := c.worker.pending[1..]);
    var log := if c.req.flow.cut.None? then c.req.flow.log + [data] else c.req.flow.log;
    if taken.hit.None? then Cell(c.req.(flow := c.req.flow.(log := log)), c.ctx, worker)
    else
      var hit := Hit(taken.hit.value, data);
      Cell(c.req.(flow := c.req.flow.(log := log, popped := c.req.flow.popped + [hit])), c.ctx,
           worker.(run := Some(Running(hit, Popped))))
  }

  function InPhase(w: Worker, phase: Phase): Worker
    requires w.run.Some?
  {
    w.(run := Some(w.run.value.(phase := phase)))
  }

  function DoRunBody(c: Cell, result: int): Cell
    requires c.worker.run.Some?
  {
    Cell(c.req.(tally := c.req.tally.(results := c.req.tally.results + [result])), c.ctx,
         InPhase(c.worker, Ran(result)))
  }

  // Only send tasks note the status their body ended with.
  function DoNote(c: Cell): Cell
    requires c.worker.run.Some? && c.worker.run.value.phase.Ran?
  {
    var status := c.worker.run.value.phase.status;
    var req := if c.req.send
               then c.req.(sync := c.req.sync.Noted(status),
                           tally := c.req.tally.(statuses := c.req.tally.statuses + [status]))
               else c.req;
    Cell(req, c.ctx, InPhase(c.worker, Noted(status)))
  }

  function DoMark(c: Cell): Cell
    requires c.worker.run.Some? && c.worker.run.value.phase.Noted?
  {
    var ok := c.worker.run.value.phase.status == 0;
    var req := WithSync(c.req, c.req.sync.Marked(ok));
    Cell(req.(tally := req.tally.(failed := req.tally.failed + if ok then 0 else 1)), c.ctx,
         InPhase(c.worker, Marked))
  }

  function DoSettle(c: Cell): Cell {
    var fired := c.req.tally.fired + if SettlementFires(c.ctx) then [c.ctx.value.callback] else [];
    Cell(c.req.(tally := c.req.tally.(fired := fired)), Settled(c.ctx), c.worker.(run := None))
  }

  function DoCancelLookup(c: Cell): Cell {
    if c.ctx.None? then c
    else c.(req := c.req.(cancels := c.req.cancels + [Canceller(c.ctx.value.worker, Looked)]))
  }

  // The canceller's critical section: remove every queued task and pending wakeup of rid.
  function DoRemove(c: Cell, rid: Word, j: nat): Cell
    requires j < |c.req.cancels|
  {
    var gone := Select(c.worker.queue, TaskOf(rid));
    var worker := c.worker.(queue := Drop(c.worker.queue, TaskOf(rid)),
                            pending := Drop(c.worker.pending, WakeOf(rid)));
    var flow := if c.req.flow.cut.None? then c.req.flow.(cut := Some(j), removed := gone) else c.req.flow;
    Cell(c.req.(cancels := c.req.cancels[j := c.req.cancels[j].(phase := Removed(|gone|))], flow := flow),
         c.ctx, worker)
  }

  function DoDeduct(c: Cell, j: nat): Cell
    requires j < |c.req.cancels| && c.req.cancels[j].phase.Removed?
  {
    var k := c.req.cancels[j].phase.k;
    c.(req := c.req.(cancels := c.req.cancels[j := c.req.cancels[j].(phase := Returned(k))]),
       ctx := if k > 0 then Deducted(c.ctx, k) else c.ctx)
  }

  function DoWaitEnds(c: Cell, outcome: Verdict): Cell {
    var sync := if outcome.TimedOut? then c.req.sync.(requestTimedOut := true) else c.req.sync;
    c.(req := c.req.(sync := sync,
                     stage := if outcome.Success? then Releasing(outcome, None) else MustCancel(outcome)))
  }

  function DoOwnLookup(c: Cell): Cell
    requires c.req.stage.MustCancel?
  {
    var at := if c.ctx.None? then None else Some(|c.req.cancels|);
    var found := DoCancelLookup(c);
    found.(req := found.req.(stage := Cancelling(c.req.stage.why, at)))
  }

  // Counts what the own cancel removed, or nothing if its lookup found no context.
  function DoAccount(c: Cell): Cell
    requires c.req.stage.Cancelling? && OwnCancelReturned(c.req)
  {
    var at, why := c.req.stage.at, c.req.stage.why;
    var k := if at.Some? then c.req.cancels[at.value].phase.k else 0;
    c.(req := WithSync(c.req, c.req.sync.CanceledMore(k, why.TimedOut?)).(stage := Releasing(why, at)))
  }

  predicate OwnCancelReturned(req: Req)
    requires req.stage.Cancelling?
  {
    req.stage.at.Some? ==> req.stage.at.value < |req.cancels| && req.cancels[req.stage.at.value].phase.Returned?
  }

  function DoRelease(c: Cell): Cell
    requires c.req.stage.Releasing?
  {
    var at, why, status := c.req.stage.at, c.req.stage.why, c.req.sync.urma;
    var result := if status == 0 then why else Failed;
    c.(req := WithSync(c.req, c.req.sync.ReleaseAsked()).(
         stage := Released(why, at, result, status, |c.req.tally.statuses|)))
  }

  // Counts a free whenever the record gets claimed.
  function WithSync(req: Req, sync: Sync): Req {
    var frees := req.tally.frees + if sync.freeing && !req.sync.freeing then 1 else 0;
    req.(sync := sync, tally := req.tally.(frees := frees))
  }

  function Local(c: Cell, rid: Word, w: nat, act: Act): Cell
    requires Can(c, rid, w, act)
  {
    match act
    case Publish => DoPublish(c)
    case Return(firstPostFailed) => DoReturn(c, firstPostFailed)
    case WakeLookup(data) => DoWakeLookup(c, data)
    case WakePush(i) => DoWakePush(c, rid, i)
    case Pop => DoPop(c, rid)
    case RunBody(result) => DoRunBody(c, result)
    case NoteStatus => DoNote(c)
    case MarkSync => DoMark(c)
    case SettleContext => DoSettle(c)
    case CancelLookup => DoCancelLookup(c)
    case CancelRemove(j) => DoRemove(c, rid, j)
    case CancelDeduct(j) => DoDeduct(c, j)
    case Block => c.(req := c.req.(stage := Waiting))
    case WaitEnds(outcome) => DoWaitEnds(c, outcome)
    case CallCancel => c.(req := c.req.(stage := MustCancel(ByCancelCall)))
    case OwnLookup => DoOwnLookup(c)
    case AccountCancel => DoAccount(c)
    case Release => DoRelease(c)
  }

  // The request as submitted, before anything happened to it.
  function NewReq(w: nat, batch: seq<Task>, send: bool, callback: Callback): Req {
    Req(w, batch, send, callback, false, [], [], Registering, Fresh(|batch|), Flow([], [], [], None, []),
        Tally([], [], 0, [], false, 0))
  }

  /** Nothing in the state names rid any more: request ids are unique among active requests and
      are not reused while a wakeup for them may be pending. */
  predicate Idle(s: State, rid: Word) {
    && (forall i | 0 <= i < |s.workers| :: Proj(s.workers[i], rid) == Worker([], [], None))
    && rid !in s.table
    && (rid in s.reqs ==>
          s.reqs[rid].published && s.reqs[rid].wakers == [] && s.reqs[rid].stage.Released?
          && forall j | 0 <= j < |s.reqs[rid].cancels| :: s.reqs[rid].cancels[j].phase.Returned?)
  }

  // What worker w holds for request rid.
  function Proj(w: Worker, rid: Word): Worker {
    Worker(Select(w.queue, TaskOf(rid)), Select(w.pending, WakeOf(rid)), if Runs(w, rid) then w.run else None)
  }

  function CellOf(s: State, rid: Word, w: nat): Cell
    requires rid in s.reqs && w < |s.workers|
  {
    Cell(s.reqs[rid], Get(s.table, rid), s.workers[w])
  }

  predicate Enabled(s: State, step: Step) {
    step.w < |s.workers|
    && match step
       case Attach(rid, w, batch, send, callback) =>
         Idle(s, rid) && |batch| > 0 && forall t | t in batch :: t.rid == rid
       case Do(rid, w, act) => rid in s.reqs && Can(CellOf(s, rid, w), rid, w, act)
  }

  function Apply(s: State, step: Step): State
    requires Enabled(s, step)
  {
    match step
    case Attach(rid, w, batch, send, callback) =>
      s.(workers := s.workers[w := s.workers[w].(queue := s.workers[w].queue + batch)],
         reqs := s.reqs[rid := NewReq(w, batch, send, callback)])
    case Do(rid, w, act) =>
      var c := Local(CellOf(s, rid, w), rid, w, act);
      State(s.workers[w := c.worker], Put(s.table, rid, c.ctx), s.reqs[rid := c.req])
  }

  function Start(workers: nat): State {
    State(seq(workers, _ => Worker([], [], None)), map[], map[])
  }

  // A finite execution with any number of workers and any interleaving of steps.
  predicate IsRun(states: seq<State>, steps: seq<Step>) {
    && |states| == |steps| + 1
    && states[0] == Start(|states[0].workers|)
    && forall i | 0 <= i < |steps| :: Enabled(states[i], steps[i]) && states[i + 1] == Apply(states[i], steps[i])
  }
}
