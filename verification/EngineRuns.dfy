/** From one request to the whole engine: requests that share workers do not disturb each
    other, so the invariant of each holds in every state of every run. */
module EngineRuns {
  import opened Codec
  import opened Lists
  import opened PoolSpec
  import opened Engine
  import opened Delivery
  import opened EngineInvariant
  import opened EngineSteps

  const NOTHING := Worker([], [], None)

  // The request keeps its invariant at its home worker, and no other worker holds anything of it.
  ghost predicate AtHome(workers: seq<Worker>, req: Req, ctx: Option<Context>, rid: Word) {
    && req.home < |workers|
    && CellInv(Cell(req, ctx, Proj(workers[req.home], rid)), rid)
    && forall w | 0 <= w < |workers| && w != req.home :: Proj(workers[w], rid) == NOTHING
  }

  ghost predicate Nowhere(workers: seq<Worker>, rid: Word) {
    forall w | 0 <= w < |workers| :: Proj(workers[w], rid) == NOTHING
  }

  ghost predicate ReqInv(s: State, rid: Word) {
    if rid in s.reqs then AtHome(s.workers, s.reqs[rid], Get(s.table, rid), rid)
    else rid !in s.table && Nowhere(s.workers, rid)
  }

  ghost predicate Inv(s: State) {
    forall rid :: ReqInv(s, rid)
  }

  predicate UsesWorker(act: Act) {
    act.WakePush? || act.Pop? || act.RunBody? || act.NoteStatus? || act.MarkSync? || act.SettleContext?
    || act.CancelRemove?
  }

  lemma QuietActsIgnoreTheWorker(c: Cell, other: Worker, rid: Word, w: nat, act: Act)
    requires Can(c, rid, w, act) && !UsesWorker(act)
    ensures Local(c, rid, w, act).worker == c.worker
    ensures Can(c.(worker := other), rid, w, act)
    ensures Local(c.(worker := other), rid, w, act) == Local(c, rid, w, act).(worker := other)
  {}

  function Shared(c: Cell, rid: Word): Cell {
    c.(worker := Proj(c.worker, rid))
  }

  lemma PushCommutes(c: Cell, rid: Word, i: nat)
    requires i < |c.req.wakers|
    ensures DoWakePush(Shared(c, rid), rid, i) == Shared(DoWakePush(c, rid, i), rid)
  {
    SelectConcat(c.worker.pending, [Wake(rid, c.req.wakers[i].data)], WakeOf(rid));
  }

  lemma PopCommutes(c: Cell, rid: Word)
    requires c.worker.run.None? && c.worker.pending != [] && c.worker.pending[0].rid == rid
    ensures Shared(c, rid).worker.pending != [] && Shared(c, rid).worker.pending[0] == c.worker.pending[0]
    ensures DoPop(Shared(c, rid), rid) == Shared(DoPop(c, rid), rid)
  {
    var q, p := c.worker.queue, c.worker.pending;
    assert Select(p, WakeOf(rid)) == [p[0]] + Select(p[1..], WakeOf(rid));
    TakeCommutesWithSelect(q, Matching(rid, p[0].data), TaskOf(rid));
    var i := TakeSplits(q, Matching(rid, p[0].data));
  }

  lemma RemoveCommutes(c: Cell, rid: Word, j: nat)
    requires j < |c.req.cancels|
    ensures DoRemove(Shared(c, rid), rid, j) == Shared(DoRemove(c, rid, j), rid)
  {
    ProjTwice(c.worker, rid);
    DropThenSelect(c.worker.queue, TaskOf(rid), TaskOf(rid));
    DropThenSelect(c.worker.pending, WakeOf(rid), WakeOf(rid));
    ProjectedQueue(Proj(c.worker, rid), rid);
    ProjectedPending(Proj(c.worker, rid), rid);
  }

  // An act on the full worker does to the request's share of it what it does to the share alone.
  lemma ActCommutesWithProj(c: Cell, rid: Word, w: nat, act: Act)
    requires Can(c, rid, w, act) && UsesWorker(act)
    ensures Can(Shared(c, rid), rid, w, act)
    ensures Local(Shared(c, rid), rid, w, act) == Shared(Local(c, rid, w, act), rid)
  {
    match act
    case WakePush(i) => PushCommutes(c, rid, i);
    case Pop => PopCommutes(c, rid);
    case CancelRemove(j) => RemoveCommutes(c, rid, j);
    case _ =>
  }

  lemma ProjTwice(w: Worker, rid: Word)
    ensures Proj(Proj(w, rid), rid) == Proj(w, rid)
  {
    forall t | t in Select(w.queue, TaskOf(rid)) ensures t.rid == rid {
      SelectMembers(w.queue, TaskOf(rid), t);
    }
    forall k | k in Select(w.pending, WakeOf(rid)) ensures k.rid == rid {
      SelectMembers(w.pending, WakeOf(rid), k);
    }
    SelectAll(Select(w.queue, TaskOf(rid)), TaskOf(rid));
    SelectAll(Select(w.pending, WakeOf(rid)), WakeOf(rid));
  }

  lemma ProjectedPending(w: Worker, rid: Word)
    requires w == Proj(w, rid)
    ensures Drop(w.pending, WakeOf(rid)) == []
  {
    forall k | k in w.pending ensures k.rid == rid {
      SelectMembers(w.pending, WakeOf(rid), k);
    }
    DropAll(w.pending, WakeOf(rid));
  }

  lemma PushLeavesOthers(c: Cell, rid: Word, i: nat, other: Word)
    requires i < |c.req.wakers| && other != rid
    ensures Proj(DoWakePush(c, rid, i).worker, other) == Proj(c.worker, other)
  {
    SelectConcat(c.worker.pending, [Wake(rid, c.req.wakers[i].data)], WakeOf(other));
  }

  lemma PopLeavesOthers(c: Cell, rid: Word, other: Word)
    requires c.worker.run.None? && c.worker.pending != [] && c.worker.pending[0].rid == rid && other != rid
    ensures Proj(DoPop(c, rid).worker, other) == Proj(c.worker, other)
  {
    var q, p := c.worker.queue, c.worker.pending;
    assert Select(p, WakeOf(other)) == Select(p[1..], WakeOf(other));
    TakeLeavesOthers(q, Matching(rid, p[0].data), TaskOf(other));
    var i := TakeSplits(q, Matching(rid, p[0].data));
  }

  lemma RemoveLeavesOthers(c: Cell, rid: Word, j: nat, other: Word)
    requires j < |c.req.cancels| && other != rid
    ensures Proj(DoRemove(c, rid, j).worker, other) == Proj(c.worker, other)
  {
    DropThenSelect(c.worker.queue, TaskOf(rid), TaskOf(other));
    DropThenSelect(c.worker.pending, WakeOf(rid), WakeOf(other));
  }

  lemma RunLeavesOthers(c: Cell, rid: Word, w: nat, act: Act, other: Word)
    requires Can(c, rid, w, act) && other != rid
    requires act.RunBody? || act.NoteStatus? || act.MarkSync? || act.SettleContext?
    ensures Proj(Local(c, rid, w, act).worker, other) == Proj(c.worker, other)
  {}

  // Other requests keep their share of the worker.
  lemma ActLeavesOthers(c: Cell, rid: Word, w: nat, act: Act, other: Word)
    requires Can(c, rid, w, act) && other != rid
    ensures Proj(Local(c, rid, w, act).worker, other) == Proj(c.worker, other)
  {
    if !UsesWorker(act) {
      QuietActsIgnoreTheWorker(c, c.worker, rid, w, act);
    } else if act.WakePush? {
      PushLeavesOthers(c, rid, act.i, other);
    } else if act.Pop? {
      PopLeavesOthers(c, rid, other);
    } else if act.CancelRemove? {
      RemoveLeavesOthers(c, rid, act.j, other);
    } else {
      RunLeavesOthers(c, rid, w, act, other);
    }
  }

  // A step that needs a worker finds the request at home.
  lemma StepsAtHome(s: State, rid: Word, w: nat, act: Act)
    requires ReqInv(s, rid) && Enabled(s, Do(rid, w, act)) && UsesWorker(act)
    ensures w == s.reqs[rid].home
  {
    if act.Pop? {
      SelectMembers(s.workers[w].pending, WakeOf(rid), s.workers[w].pending[0]);
    }
    var share := Proj(s.workers[w], rid);
  }

  lemma SameShareKeeps(s: State, t: State, rid: Word)
    requires ReqInv(s, rid) && |t.workers| == |s.workers|
    requires rid in s.reqs <==> rid in t.reqs
    requires rid in s.reqs ==> t.reqs[rid] == s.reqs[rid]
    requires Get(t.table, rid) == Get(s.table, rid)
    requires forall w | 0 <= w < |s.workers| :: Proj(t.workers[w], rid) == Proj(s.workers[w], rid)
    ensures ReqInv(t, rid)
  {
    if rid in s.reqs {
      var req := s.reqs[rid];
      assert AtHome(s.workers, req, Get(s.table, rid), rid);
      assert AtHome(t.workers, req, Get(t.table, rid), rid);
    }
  }

  lemma NewReqInv(w: nat, batch: seq<Task>, send: bool, callback: Callback, rid: Word)
    requires batch != [] && forall t | t in batch :: t.rid == rid
    ensures CellInv(Cell(NewReq(w, batch, send, callback), None, Worker(batch, [], None)), rid)
  {
    assert Replay(batch, rid, []) == Outcome([], batch);
  }

  // The worker with the batch attached, as far as any request is concerned.
  lemma AttachedShare(worker: Worker, batch: seq<Task>, rid: Word, other: Word)
    requires forall t | t in batch :: t.rid == rid
    ensures var after := worker.(queue := worker.queue + batch);
            && (other != rid ==> Proj(after, other) == Proj(worker, other))
            && (Proj(worker, rid) == NOTHING ==> Proj(after, rid) == Worker(batch, [], None))
  {
    SelectConcat(worker.queue, batch, TaskOf(other));
    SelectConcat(worker.queue, batch, TaskOf(rid));
    SelectAll(batch, TaskOf(rid));
    if other != rid {
      SelectNone(batch, TaskOf(other));
    }
    assert [] + batch == batch;
  }

  lemma AttachStartsInv(s: State, rid: Word, w: nat, batch: seq<Task>, send: bool, callback: Callback)
    requires Enabled(s, Attach(rid, w, batch, send, callback))
    ensures ReqInv(Apply(s, Attach(rid, w, batch, send, callback)), rid)
  {
    var workers, attached := s.workers, s.workers[w].(queue := s.workers[w].queue + batch);
    NewReqInv(w, batch, send, callback, rid);
    assert Proj(workers[w], rid) == NOTHING;
    AttachedShare(workers[w], batch, rid, rid);
    assert AtHome(workers[w := attached], NewReq(w, batch, send, callback), None, rid);
  }

  lemma AttachKeepsInv(s: State, rid: Word, w: nat, batch: seq<Task>, send: bool, callback: Callback, other: Word)
    requires ReqInv(s, other) && Enabled(s, Attach(rid, w, batch, send, callback))
    ensures ReqInv(Apply(s, Attach(rid, w, batch, send, callback)), other)
  {
    if other == rid {
      AttachStartsInv(s, rid, w, batch, send, callback);
    } else {
      AttachedShare(s.workers[w], batch, rid, other);
      SameShareKeeps(s, Apply(s, Attach(rid, w, batch, send, callback)), other);
    }
  }

  lemma OthersUntouched(s: State, rid: Word, w: nat, act: Act, other: Word)
    requires Enabled(s, Do(rid, w, act)) && other != rid
    ensures var t := Apply(s, Do(rid, w, act));
            && |t.workers| == |s.workers| && (other in s.reqs <==> other in t.reqs)
            && (other in s.reqs ==> t.reqs[other] == s.reqs[other]) && Get(t.table, other) == Get(s.table, other)
            && forall v | 0 <= v < |s.workers| :: Proj(t.workers[v], other) == Proj(s.workers[v], other)
  {
    ActLeavesOthers(CellOf(s, rid, w), rid, w, act, other);
  }

  lemma ActKeepsOthersInv(s: State, rid: Word, w: nat, act: Act, other: Word)
    requires ReqInv(s, other) && Enabled(s, Do(rid, w, act)) && other != rid
    ensures ReqInv(Apply(s, Do(rid, w, act)), other)
  {
    OthersUntouched(s, rid, w, act, other);
    SameShareKeeps(s, Apply(s, Do(rid, w, act)), other);
  }

  lemma OwnCell(s: State, rid: Word, w: nat, act: Act) returns (home: Cell)
    requires ReqInv(s, rid) && Enabled(s, Do(rid, w, act))
    ensures home == Cell(s.reqs[rid], Get(s.table, rid), Proj(s.workers[s.reqs[rid].home], rid))
    ensures Can(home, rid, w, act)
    ensures var c, d := Local(home, rid, w, act), Local(CellOf(s, rid, w), rid, w, act);
            && c.req == d.req && c.ctx == d.ctx
            && c.req.home == s.reqs[rid].home && c.req.batch == s.reqs[rid].batch
            && (UsesWorker(act) ==> c.worker == Proj(d.worker, rid) && w == s.reqs[rid].home)
            && (!UsesWorker(act) ==> c.worker == home.worker && d.worker == s.workers[w])
  {
    var c, req := CellOf(s, rid, w), s.reqs[rid];
    home := Cell(req, Get(s.table, rid), Proj(s.workers[req.home], rid));
    PlanIsFixed(c, rid, w, act);
    if UsesWorker(act) {
      StepsAtHome(s, rid, w, act);
      ActCommutesWithProj(c, rid, w, act);
    } else {
      QuietActsIgnoreTheWorker(c, home.worker, rid, w, act);
    }
  }

  predicate SameSubmission(a: Req, b: Req) {
    a.home == b.home && a.batch == b.batch && a.send == b.send && a.callback == b.callback
  }

  lemma PlanIsFixed(c: Cell, rid: Word, w: nat, act: Act)
    requires Can(c, rid, w, act)
    ensures SameSubmission(c.req, Local(c, rid, w, act).req)
  {
    if act.Pop? || act.NoteStatus? || act.MarkSync? || act.SettleContext? || act.CancelRemove? {
      PlanIsFixedAtWorker(c, rid, w, act);
    }
  }

  lemma PlanIsFixedAtWorker(c: Cell, rid: Word, w: nat, act: Act)
    requires Can(c, rid, w, act)
    requires act.Pop? || act.NoteStatus? || act.MarkSync? || act.SettleContext? || act.CancelRemove?
    ensures SameSubmission(c.req, Local(c, rid, w, act).req)
  {}

  lemma HomeStaysOnly(workers: seq<Worker>, after: seq<Worker>, home: nat, rid: Word, w: nat, worker: Worker)
    requires home < |workers| && w < |workers| && (w != home ==> worker == workers[w])
    requires after == workers[w := worker]
    requires forall v | 0 <= v < |workers| && v != home :: Proj(workers[v], rid) == NOTHING
    ensures forall v | 0 <= v < |after| && v != home :: Proj(after[v], rid) == NOTHING
  {}

  lemma StillAtHome(workers: seq<Worker>, req: Req, ctx: Option<Context>, rid: Word, w: nat, worker: Worker, c: Cell)
    requires AtHome(workers, req, ctx, rid) && w < |workers| && c.req.home == req.home && CellInv(c, rid)
    requires if w == req.home then c.worker == Proj(worker, rid)
             else worker == workers[w] && c.worker == Proj(workers[req.home], rid)
    ensures AtHome(workers[w := worker], c.req, c.ctx, rid)
  {
    HomeStaysOnly(workers, workers[w := worker], req.home, rid, w, worker);
    assert Cell(c.req, c.ctx, Proj(workers[w := worker][c.req.home], rid)) == c;
  }

  lemma ActKeepsOwnInv(s: State, rid: Word, w: nat, act: Act)
    requires ReqInv(s, rid) && Enabled(s, Do(rid, w, act))
    ensures ReqInv(Apply(s, Do(rid, w, act)), rid)
  {
    var home := OwnCell(s, rid, w, act);
    ProjTwice(s.workers[home.req.home], rid);
    ActKeepsInvariant(home, rid, w, act);
    StillAtHome(s.workers, s.reqs[rid], Get(s.table, rid), rid, w,
                Local(CellOf(s, rid, w), rid, w, act).worker, Local(home, rid, w, act));
  }

  lemma StepKeepsInv(s: State, step: Step)
    requires Inv(s) && Enabled(s, step)
    ensures Inv(Apply(s, step))
  {
    forall rid ensures ReqInv(Apply(s, step), rid) {
      assert ReqInv(s, rid);
      match step
      case Attach(r, w, batch, send, callback) => AttachKeepsInv(s, r, w, batch, send, callback, rid);
      case Do(r, w, act) =>
        if rid == r { ActKeepsOwnInv(s, r, w, act); } else { ActKeepsOthersInv(s, r, w, act, rid); }
    }
  }

  // Every state of every run satisfies the invariant.
  lemma {:induction false} RunsKeepInv(states: seq<State>, steps: seq<Step>, n: nat)
    requires IsRun(states, steps) && n <= |steps|
    ensures Inv(states[n])
  {
    if n > 0 {
      RunsKeepInv(states, steps, n - 1);
      StepKeepsInv(states[n - 1], steps[n - 1]);
    }
  }

  // The request's share of the state: its record, its context and its part of the home worker.
  function ShareOf(s: State, rid: Word): Cell
    requires rid in s.reqs && s.reqs[rid].home < |s.workers|
  {
    var req := s.reqs[rid];
    Cell(req, Get(s.table, rid), Proj(s.workers[req.home], rid))
  }

  lemma ShareInv(s: State, rid: Word)
    requires Inv(s) && rid in s.reqs
    ensures s.reqs[rid].home < |s.workers| && CellInv(ShareOf(s, rid), rid)
    ensures ShareOf(s, rid).worker == Proj(ShareOf(s, rid).worker, rid)
  {
    assert ReqInv(s, rid);
    ProjTwice(s.workers[s.reqs[rid].home], rid);
  }

  // A step of the request itself acts on its share.
  lemma OwnShareStep(s: State, rid: Word, w: nat, act: Act)
    requires Inv(s) && Enabled(s, Do(rid, w, act)) && s.reqs[rid].home < |s.workers|
    ensures var t := Apply(s, Do(rid, w, act));
            && rid in t.reqs && t.reqs[rid].home < |t.workers| && t.reqs[rid].batch == s.reqs[rid].batch
            && Can(ShareOf(s, rid), rid, w, act)
            && ShareOf(t, rid) == Local(ShareOf(s, rid), rid, w, act)
  {
    assert ReqInv(s, rid);
    var home := OwnCell(s, rid, w, act);
  }

  lemma OtherAttachShare(s: State, r: Word, w: nat, batch: seq<Task>, send: bool, callback: Callback, rid: Word)
    requires Enabled(s, Attach(r, w, batch, send, callback)) && r != rid
    requires rid in s.reqs && s.reqs[rid].home < |s.workers|
    ensures var t := Apply(s, Attach(r, w, batch, send, callback));
            rid in t.reqs && t.reqs[rid].home < |t.workers| && ShareOf(t, rid) == ShareOf(s, rid)
  {
    AttachedShare(s.workers[w], batch, r, rid);
  }

  lemma OtherActShare(s: State, r: Word, w: nat, act: Act, rid: Word)
    requires Enabled(s, Do(r, w, act)) && r != rid && rid in s.reqs && s.reqs[rid].home < |s.workers|
    ensures var t := Apply(s, Do(r, w, act));
            rid in t.reqs && t.reqs[rid].home < |t.workers| && ShareOf(t, rid) == ShareOf(s, rid)
  {
    ActLeavesOthers(CellOf(s, r, w), r, w, act, rid);
  }

  // A step of another request does not touch it.
  lemma OtherShareStep(s: State, step: Step, rid: Word)
    requires Enabled(s, step) && rid in s.reqs && s.reqs[rid].home < |s.workers| && step.rid != rid
    ensures var t := Apply(s, step);
            rid in t.reqs && t.reqs[rid].home < |t.workers| && ShareOf(t, rid) == ShareOf(s, rid)
  {
    match step
    case Attach(r, w, batch, send, callback) => OtherAttachShare(s, r, w, batch, send, callback, rid);
    case Do(r, w, act) => OtherActShare(s, r, w, act, rid);
  }
}
