/** What the engine promises, read off in the terms of a whole state or a whole run. */
module EngineTheorems {
  import opened Codec
  import opened Lists
  import opened Numbers
  import opened PoolSpec
  import opened Completion
  import opened Engine
  import opened Delivery
  import opened EngineInvariant
  import opened EngineSteps
  import opened EngineRuns

  predicate Reached(states: seq<State>, steps: seq<Step>, n: nat, rid: Word) {
    IsRun(states, steps) && n <= |steps| && rid in states[n].reqs
  }

  // No worker has a task of rid in its queue.
  ghost predicate NothingQueued(s: State, rid: Word) {
    forall w, t | 0 <= w < |s.workers| && t in s.workers[w].queue :: t.rid != rid
  }

  // No worker is between taking a task of rid and marking it.
  ghost predicate NothingUnmarked(s: State, rid: Word) {
    forall w | 0 <= w < |s.workers| && Runs(s.workers[w], rid) :: s.workers[w].run.value.phase.Marked?
  }

  function Queued(s: State, req: Req, rid: Word): nat {
    if req.home < |s.workers| then |Select(s.workers[req.home].queue, TaskOf(rid))| else 0
  }

  function RunningUnmarked(s: State, req: Req, rid: Word): nat {
    if req.home < |s.workers| then Unmarked(Proj(s.workers[req.home], rid)) else 0
  }

  function Unsettled(s: State, req: Req, rid: Word): nat {
    if req.home < |s.workers| && Runs(s.workers[req.home], rid) then 1 else 0
  }

  lemma Facts(states: seq<State>, steps: seq<Step>, n: nat, rid: Word) returns (req: Req, c: Cell)
    requires Reached(states, steps, n, rid)
    ensures req == states[n].reqs[rid]
    ensures AtHome(states[n].workers, req, Get(states[n].table, rid), rid)
    ensures c == Cell(req, Get(states[n].table, rid), Proj(states[n].workers[req.home], rid)) && CellInv(c, rid)
  {
    RunsKeepInv(states, steps, n);
    assert ReqInv(states[n], rid);
    req := states[n].reqs[rid];
    c := Cell(req, Get(states[n].table, rid), Proj(states[n].workers[req.home], rid));
  }

  lemma QueuedSomewhere(s: State, req: Req, ctx: Option<Context>, rid: Word)
    requires AtHome(s.workers, req, ctx, rid)
    ensures NothingQueued(s, rid) <==> Select(s.workers[req.home].queue, TaskOf(rid)) == []
  {
    forall w, t | 0 <= w < |s.workers| && t in s.workers[w].queue && t.rid == rid
      ensures Select(s.workers[req.home].queue, TaskOf(rid)) != []
    {
      SelectMembers(s.workers[w].queue, TaskOf(rid), t);
      var share := Proj(s.workers[w], rid);
    }
    var home := Select(s.workers[req.home].queue, TaskOf(rid));
    if home != [] {
      SelectMembers(s.workers[req.home].queue, TaskOf(rid), home[0]);
    }
  }

  lemma UnmarkedSomewhere(s: State, req: Req, ctx: Option<Context>, rid: Word)
    requires AtHome(s.workers, req, ctx, rid)
    ensures NothingUnmarked(s, rid) <==> RunningUnmarked(s, req, rid) == 0
  {
    forall w | 0 <= w < |s.workers| && Runs(s.workers[w], rid) ensures w == req.home {
      var share := Proj(s.workers[w], rid);
    }
  }

  // ----- What was submitted.

  lemma StepKeepsSubmission(s: State, step: Step, rid: Word)
    requires Enabled(s, step) && rid in s.reqs && (step.Attach? ==> step.rid != rid)
    ensures rid in Apply(s, step).reqs && SameSubmission(s.reqs[rid], Apply(s, step).reqs[rid])
  {
    if step.Do? && step.rid == rid {
      PlanIsFixed(CellOf(s, rid, step.w), rid, step.w, step.act);
    }
  }

  // The tasks of a batch go behind everything that its worker has queued, whatever else is singled out.
  lemma AttachGoesBehind(s: State, attach: Step, v: nat, p: Task -> bool)
    requires Enabled(s, attach) && attach.Attach? && v < |s.workers|
    ensures v < |Apply(s, attach).workers|
    ensures Select(Apply(s, attach).workers[v].queue, p)
            == Select(s.workers[v].queue, p) + if v == attach.w then Select(attach.batch, p) else []
  {
    SelectConcat(s.workers[v].queue, attach.batch, p);
  }

  // Until its id is submitted anew a request is the one submitted: its worker, its tasks, its kind and
  // its callback.
  lemma {:induction false} KeptAsSubmitted(states: seq<State>, steps: seq<Step>, k: nat, n: nat)
    requires IsRun(states, steps) && k < n <= |steps| && steps[k].Attach?
    requires forall i | k < i < n && steps[i].Attach? :: steps[i].rid != steps[k].rid
    ensures var attach := steps[k];
            && attach.rid in states[n].reqs
            && var req := states[n].reqs[attach.rid];
               && req.home == attach.w && req.batch == attach.batch && req.send == attach.send
               && req.callback == attach.callback
  {
    assert Enabled(states[n - 1], steps[n - 1]) && states[n] == Apply(states[n - 1], steps[n - 1]);
    if k + 1 < n {
      KeptAsSubmitted(states, steps, k, n - 1);
      StepKeepsSubmission(states[n - 1], steps[n - 1], steps[k].rid);
    }
  }

  // ----- The record of a request.

  // Every task is counted in exactly one place.
  lemma RecordLedger(states: seq<State>, steps: seq<Step>, n: nat, rid: Word)
    requires Reached(states, steps, n, rid)
    ensures var s, req := states[n], states[n].reqs[rid];
            && req.sync.total == |req.batch| && req.sync.canceled <= |req.flow.removed|
            && req.sync.completed + req.sync.canceled + req.tally.failed + Queued(s, req, rid)
               + RunningUnmarked(s, req, rid) + (|req.flow.removed| - req.sync.canceled) == req.sync.total
  {
    var req, c := Facts(states, steps, n, rid);
  }

  // The record is claimed at most once, exactly when it is released and every task is counted as
  // completed or canceled; then none of its tasks is queued, before its mark, or removed uncounted.
  lemma FreedOnceAndUnused(states: seq<State>, steps: seq<Step>, n: nat, rid: Word)
    requires Reached(states, steps, n, rid)
    ensures var s, req := states[n], states[n].reqs[rid];
            && req.tally.frees <= 1
            && (req.tally.frees == 1 <==>
                  req.stage.Released? && req.sync.completed + req.sync.canceled == req.sync.total)
            && (req.tally.frees == 1 ==>
                  NothingQueued(s, rid) && NothingUnmarked(s, rid) && req.sync.canceled == |req.flow.removed|)
  {
    var req, c := Facts(states, steps, n, rid);
    RecordLedger(states, steps, n, rid);
    QueuedSomewhere(states[n], req, c.ctx, rid);
    UnmarkedSomewhere(states[n], req, c.ctx, rid);
  }

  predicate Canceling(stage: Stage) {
    stage.Cancelling? || Accounted(stage)
  }

  lemma ActKeepsAt(c: Cell, rid: Word, w: nat, act: Act)
    requires Can(c, rid, w, act) && Canceling(c.req.stage)
    ensures Canceling(Local(c, rid, w, act).req.stage)
    ensures Local(c, rid, w, act).req.stage.at == c.req.stage.at
  {}

  lemma StepKeepsAt(s: State, step: Step, rid: Word)
    requires Enabled(s, step) && rid in s.reqs && (step.Attach? ==> step.rid != rid) && Canceling(s.reqs[rid].stage)
    ensures var t := Apply(s, step);
            rid in t.reqs && Canceling(t.reqs[rid].stage) && t.reqs[rid].stage.at == s.reqs[rid].stage.at
  {
    if step.Do? && step.rid == rid {
      ActKeepsAt(CellOf(s, rid, step.w), rid, step.w, step.act);
    }
  }

  // The cancel that the caller makes when its wait has ended otherwise, step k, gets the next number
  // unless its lookup finds no context.
  function OwnCancel(s: State, rid: Word): Option<nat>
    requires rid in s.reqs
  {
    if rid in s.table then Some(|s.reqs[rid].cancels|) else None
  }

  lemma {:induction false} OwnCancelStays(states: seq<State>, steps: seq<Step>, rid: Word, w: nat, k: nat, n: nat)
    requires IsRun(states, steps) && k < n <= |steps| && steps[k] == Do(rid, w, OwnLookup)
    requires forall i | k < i < n && steps[i].Attach? :: steps[i].rid != rid
    ensures rid in states[k].reqs && rid in states[n].reqs && Canceling(states[n].reqs[rid].stage)
    ensures states[n].reqs[rid].stage.at == OwnCancel(states[k], rid)
  {
    assert Enabled(states[k], steps[k]) && states[k + 1] == Apply(states[k], steps[k]);
    if k + 1 < n {
      OwnCancelStays(states, steps, rid, w, k, n - 1);
      assert Enabled(states[n - 1], steps[n - 1]) && states[n] == Apply(states[n - 1], steps[n - 1]);
      StepKeepsAt(states[n - 1], steps[n - 1], rid);
    }
  }

  // Of all cancels that run for a request the record counts exactly what the caller's own one removed.
  lemma OwnCancelIsCounted(states: seq<State>, steps: seq<Step>, rid: Word, w: nat, k: nat, n: nat)
    requires IsRun(states, steps) && k < n <= |steps| && steps[k] == Do(rid, w, OwnLookup)
    requires forall i | k < i < n && steps[i].Attach? :: steps[i].rid != rid
    ensures rid in states[k].reqs && rid in states[n].reqs
    ensures var own, req := OwnCancel(states[k], rid), states[n].reqs[rid];
            Accounted(req.stage) ==>
              if own.None? then req.sync.canceled == 0
              else own.value < |req.cancels| && req.cancels[own.value].phase == Returned(req.sync.canceled)
  {
    OwnCancelStays(states, steps, rid, w, k, n);
    var req, c := Facts(states, steps, n, rid);
  }

  // What is lost for good: a failed task, and tasks removed by a cancel that does not account them.
  predicate Lossless(req: Req)
    requires req.stage.Released?
  {
    req.tally.failed == 0 && (req.flow.removed == [] || req.flow.cut == req.stage.at)
  }

  // Once released and with none of its tasks left in the pool, a record is freed if and only if no
  // task failed and the releaser's own cancel removed whatever was removed. Otherwise it leaks.
  lemma FreedIffNothingLost(states: seq<State>, steps: seq<Step>, n: nat, rid: Word)
    requires Reached(states, steps, n, rid) && states[n].reqs[rid].stage.Released?
    requires NothingQueued(states[n], rid) && NothingUnmarked(states[n], rid)
    ensures states[n].reqs[rid].tally.frees == 1 <==> Lossless(states[n].reqs[rid])
  {
    var req, c := Facts(states, steps, n, rid);
    QueuedSomewhere(states[n], req, c.ctx, rid);
    UnmarkedSomewhere(states[n], req, c.ctx, rid);
  }

  lemma FailedNeverFreed(states: seq<State>, steps: seq<Step>, n: nat, rid: Word)
    requires Reached(states, steps, n, rid) && states[n].reqs[rid].tally.failed > 0
    ensures states[n].reqs[rid].tally.frees == 0
  {
    FreedOnceAndUnused(states, steps, n, rid);
    RecordLedger(states, steps, n, rid);
  }

  // What a waiter waits for, besides time: all tasks completed, or a failure.
  lemma WaitReturnsIff(states: seq<State>, steps: seq<Step>, n: nat, rid: Word)
    requires Reached(states, steps, n, rid) && InWait(states[n].reqs[rid].stage)
    ensures var req := states[n].reqs[rid];
            req.sync.requestCompleted <==>
              req.sync.completed == req.sync.total || req.tally.failed > 0 || req.tally.early
  {
    var req, c := Facts(states, steps, n, rid);
  }

  // The acts that read or write the record or the task arguments it owns. A Pop that takes a
  // task prepares that task's argument.
  predicate TouchesRecord(act: Act) {
    act.Return? || act.RunBody? || act.NoteStatus? || act.MarkSync? || act.Block? || act.WaitEnds?
    || act.AccountCancel? || act.Release?
  }

  lemma CallerActsComeEarly(c: Cell, rid: Word, w: nat, act: Act)
    requires CellInv(c, rid) && Can(c, rid, w, act)
    requires act.Return? || act.Block? || act.WaitEnds? || act.AccountCancel? || act.Release?
    ensures c.req.tally.frees == 0
  {}

  lemma WorkerActsComeEarly(c: Cell, rid: Word, w: nat, act: Act)
    requires CellInv(c, rid) && Can(c, rid, w, act) && (act.RunBody? || act.NoteStatus? || act.MarkSync?)
    ensures c.req.tally.frees == 0
  {}

  lemma PopHitComesEarly(c: Cell, rid: Word)
    requires CellInv(c, rid) && c.worker.run.None? && c.worker.pending != [] && DoPop(c, rid).worker.run.Some?
    ensures c.req.tally.frees == 0
  {
    var i := TakeSplits(c.worker.queue, Matching(rid, c.worker.pending[0].data));
  }

  lemma NeverTouchedAfterFree(states: seq<State>, steps: seq<Step>, n: nat, rid: Word, w: nat, act: Act)
    requires Reached(states, steps, n, rid) && Enabled(states[n], Do(rid, w, act))
    ensures TouchesRecord(act) ==> states[n].reqs[rid].tally.frees == 0
    ensures act.Pop? && Runs(Apply(states[n], Do(rid, w, act)).workers[w], rid)
            ==> states[n].reqs[rid].tally.frees == 0
  {
    var req, c := Facts(states, steps, n, rid);
    var home := OwnCell(states[n], rid, w, act);
    if act.RunBody? || act.NoteStatus? || act.MarkSync? {
      WorkerActsComeEarly(home, rid, w, act);
    } else if TouchesRecord(act) {
      CallerActsComeEarly(home, rid, w, act);
    } else if act.Pop? && Runs(Apply(states[n], Do(rid, w, act)).workers[w], rid) {
      PopHitComesEarly(home, rid);
    }
  }

  // ----- The pool.

  // A published context counts the queued, the handed-out and the removed but undeducted tasks,
  // and exists exactly as long as there are any.
  lemma ContextLedger(states: seq<State>, steps: seq<Step>, n: nat, rid: Word)
    requires Reached(states, steps, n, rid) && states[n].reqs[rid].published
    ensures var s, req := states[n], states[n].reqs[rid];
            var live := Queued(s, req, rid) + Unsettled(s, req, rid) + Undeducted(req);
            && (rid in s.table <==> live > 0)
            && (rid in s.table ==> s.table[rid] == Context(req.home, live, req.callback))
  {
    var req, c := Facts(states, steps, n, rid);
  }

  // At most one batch callback becomes due and it is the one submitted with the batch, with nothing
  // left of the request; and without removals it was due by the time the context is gone.
  lemma BatchCallbackOnce(states: seq<State>, steps: seq<Step>, n: nat, rid: Word)
    requires Reached(states, steps, n, rid)
    ensures var s, req := states[n], states[n].reqs[rid];
            && (req.tally.fired == [] || req.tally.fired == [req.callback])
            && (req.tally.fired != [] ==>
                  rid !in s.table && NothingQueued(s, rid) && Unsettled(s, req, rid) == 0 && Undeducted(req) == 0)
            && (req.published && rid !in s.table && req.flow.removed == [] ==> req.tally.fired != [])
  {
    var req, c := Facts(states, steps, n, rid);
    QueuedSomewhere(states[n], req, c.ctx, rid);
  }

  // So the only callback that ever becomes due is the one its caller submitted.
  lemma SubmittedCallbackFires(states: seq<State>, steps: seq<Step>, k: nat, n: nat)
    requires IsRun(states, steps) && k < n <= |steps| && steps[k].Attach?
    requires forall i | k < i < n && steps[i].Attach? :: steps[i].rid != steps[k].rid
    ensures var rid := steps[k].rid;
            && rid in states[n].reqs
            && (states[n].reqs[rid].tally.fired == [] || states[n].reqs[rid].tally.fired == [steps[k].callback])
  {
    KeptAsSubmitted(states, steps, k, n);
    BatchCallbackOnce(states, steps, n, steps[k].rid);
  }

  // It becomes due only when the last task that counts has executed: none is queued and none is
  // removed but undeducted.
  lemma OnlyLastSettlementFires(states: seq<State>, steps: seq<Step>, n: nat, rid: Word, w: nat, act: Act)
    requires Reached(states, steps, n, rid) && Enabled(states[n], Do(rid, w, act))
    requires Apply(states[n], Do(rid, w, act)).reqs[rid].tally.fired != states[n].reqs[rid].tally.fired
    ensures act.SettleContext? && NothingQueued(states[n], rid) && Undeducted(states[n].reqs[rid]) == 0
    ensures states[n].workers[w].run.value.phase.Marked?
  {
    var req, c := Facts(states, steps, n, rid);
    var home := OwnCell(states[n], rid, w, act);
    OnlySettlementAdds(home, rid, w, act);
    QueuedSomewhere(states[n], req, c.ctx, rid);
  }

  lemma OnlySettlementAdds(c: Cell, rid: Word, w: nat, act: Act)
    requires Can(c, rid, w, act) && Local(c, rid, w, act).req.tally.fired != c.req.tally.fired
    ensures act.SettleContext? && SettlementFires(c.ctx)
  {}

  // Everything of a request that has a context sits on the worker the context names.
  lemma BoundToOneWorker(states: seq<State>, steps: seq<Step>, n: nat, rid: Word, w: nat)
    requires Reached(states, steps, n, rid) && rid in states[n].table && w < |states[n].workers|
    ensures var s := states[n];
            (exists t :: t in s.workers[w].queue && t.rid == rid)
            || (exists k :: k in s.workers[w].pending && k.rid == rid)
            || Runs(s.workers[w], rid)
            || (exists i :: 0 <= i < |s.reqs[rid].wakers| && s.reqs[rid].wakers[i].worker == w)
            ==> w == s.table[rid].worker
  {
    var req, c := Facts(states, steps, n, rid);
    var s := states[n];
    forall t | t in s.workers[w].queue && t.rid == rid ensures w == req.home {
      SelectMembers(s.workers[w].queue, TaskOf(rid), t);
      var share := Proj(s.workers[w], rid);
    }
    forall k | k in s.workers[w].pending && k.rid == rid ensures w == req.home {
      SelectMembers(s.workers[w].pending, WakeOf(rid), k);
      var share := Proj(s.workers[w], rid);
    }
    var share := Proj(s.workers[w], rid);
  }

  // ----- Cancel.

  // No worker has a wakeup of rid in its list.
  ghost predicate NothingPending(s: State, rid: Word) {
    forall w, k | 0 <= w < |s.workers| && k in s.workers[w].pending :: k.rid != rid
  }

  lemma PendingSomewhere(s: State, req: Req, ctx: Option<Context>, rid: Word)
    requires AtHome(s.workers, req, ctx, rid)
    ensures NothingPending(s, rid) <==> Select(s.workers[req.home].pending, WakeOf(rid)) == []
  {
    forall w, k | 0 <= w < |s.workers| && k in s.workers[w].pending && k.rid == rid
      ensures Select(s.workers[req.home].pending, WakeOf(rid)) != []
    {
      SelectMembers(s.workers[w].pending, WakeOf(rid), k);
      var share := Proj(s.workers[w], rid);
    }
    var home := Select(s.workers[req.home].pending, WakeOf(rid));
    if home != [] {
      SelectMembers(s.workers[req.home].pending, WakeOf(rid), home[0]);
    }
  }

  lemma RemovedShare(c: Cell, rid: Word, j: nat)
    requires c.worker == Proj(c.worker, rid) && j < |c.req.cancels|
    ensures DoRemove(c, rid, j).worker == Worker([], [], c.worker.run)
    ensures DoRemove(c, rid, j).req.cancels[j].phase == Removed(|c.worker.queue|)
    ensures DoRemove(c, rid, j).req.flow.cut.Some?
  {
    ProjectedQueue(c.worker, rid);
    ProjectedPending(c.worker, rid);
  }

  // A cancel that gets to its worker reaches every queued task of the request and every pending
  // wakeup, and reports the tasks.
  lemma CancelReachesAll(states: seq<State>, steps: seq<Step>, n: nat, rid: Word, w: nat, j: nat)
    requires Reached(states, steps, n, rid) && Enabled(states[n], Do(rid, w, CancelRemove(j)))
    ensures var after := Apply(states[n], Do(rid, w, CancelRemove(j)));
            && NothingQueued(after, rid) && NothingPending(after, rid) && after.reqs[rid].flow.cut.Some?
            && after.reqs[rid].cancels[j].phase == Removed(Queued(states[n], states[n].reqs[rid], rid))
  {
    RunsKeepInv(states, steps, n);
    RemovalReachesAll(states[n], rid, w, j);
  }

  lemma RemovalReachesAll(s: State, rid: Word, w: nat, j: nat)
    requires Inv(s) && Enabled(s, Do(rid, w, CancelRemove(j)))
    ensures var after := Apply(s, Do(rid, w, CancelRemove(j)));
            && NothingQueued(after, rid) && NothingPending(after, rid) && after.reqs[rid].flow.cut.Some?
            && after.reqs[rid].cancels[j].phase == Removed(Queued(s, s.reqs[rid], rid))
  {
    var after := Apply(s, Do(rid, w, CancelRemove(j)));
    ShareAfterRemoval(s, rid, w, j);
    StepKeepsInv(s, Do(rid, w, CancelRemove(j)));
    assert ReqInv(after, rid);
    QueuedSomewhere(after, after.reqs[rid], Get(after.table, rid), rid);
    PendingSomewhere(after, after.reqs[rid], Get(after.table, rid), rid);
  }

  lemma ShareAfterRemoval(s: State, rid: Word, w: nat, j: nat)
    requires Inv(s) && Enabled(s, Do(rid, w, CancelRemove(j)))
    ensures var t := Apply(s, Do(rid, w, CancelRemove(j)));
            && rid in t.reqs && t.reqs[rid].home < |t.workers|
            && Proj(t.workers[t.reqs[rid].home], rid).queue == []
            && Proj(t.workers[t.reqs[rid].home], rid).pending == []
            && t.reqs[rid].flow.cut.Some?
            && t.reqs[rid].cancels[j].phase == Removed(Queued(s, s.reqs[rid], rid))
  {
    assert ReqInv(s, rid);
    var c := ShareOf(s, rid);
    ProjTwice(s.workers[s.reqs[rid].home], rid);
    OwnShareStep(s, rid, w, CancelRemove(j));
    RemovedShare(c, rid, j);
  }

  // It takes nothing else: the tasks and wakeups of every other request stay, in order.
  lemma CancelLeavesOthers(s: State, rid: Word, w: nat, j: nat, other: Word, v: nat)
    requires Enabled(s, Do(rid, w, CancelRemove(j))) && other != rid && v < |s.workers|
    ensures var after := Apply(s, Do(rid, w, CancelRemove(j))).workers[v];
            && Select(after.queue, TaskOf(other)) == Select(s.workers[v].queue, TaskOf(other))
            && Select(after.pending, WakeOf(other)) == Select(s.workers[v].pending, WakeOf(other))
            && after.run == s.workers[v].run
  {
    RemoveLeavesOthers(CellOf(s, rid, w), rid, j, other);
    var share := Proj(CellOf(s, rid, w).worker, other);
  }

  predicate SameCut(before: Req, after: Req) {
    after.flow.cut == before.flow.cut && after.flow.removed == before.flow.removed
  }

  lemma CutStays(c: Cell, rid: Word, w: nat, act: Act)
    requires Can(c, rid, w, act) && c.req.flow.cut.Some?
    ensures SameCut(c.req, Local(c, rid, w, act).req)
  {}

  lemma StepKeepsCut(s: State, step: Step, rid: Word)
    requires Enabled(s, step) && rid in s.reqs && s.reqs[rid].flow.cut.Some?
    requires !(step.Attach? && step.rid == rid)
    ensures rid in Apply(s, step).reqs && SameCut(s.reqs[rid], Apply(s, step).reqs[rid])
  {
    if step.Do? && step.rid == rid {
      CutStays(CellOf(s, rid, step.w), rid, step.w, step.act);
    }
  }

  lemma {:induction false} RunKeepsCut(states: seq<State>, steps: seq<Step>, i: nat, n: nat, rid: Word)
    requires Reached(states, steps, i, rid) && i <= n <= |steps| && states[i].reqs[rid].flow.cut.Some?
    requires forall k | i <= k < n :: !(steps[k].Attach? && steps[k].rid == rid)
    ensures rid in states[n].reqs && SameCut(states[i].reqs[rid], states[n].reqs[rid])
  {
    if i < n {
      RunKeepsCut(states, steps, i, n - 1, rid);
      StepKeepsCut(states[n - 1], steps[n - 1], rid);
    }
  }

  // From the first removal on, until the id is submitted anew, nothing of the request is ever queued.
  lemma CancelIsFinal(states: seq<State>, steps: seq<Step>, i: nat, n: nat, rid: Word)
    requires Reached(states, steps, i, rid) && i <= n <= |steps| && states[i].reqs[rid].flow.cut.Some?
    requires forall k | i <= k < n :: !(steps[k].Attach? && steps[k].rid == rid)
    ensures rid in states[n].reqs && SameCut(states[i].reqs[rid], states[n].reqs[rid])
    ensures NothingQueued(states[n], rid)
  {
    RunKeepsCut(states, steps, i, n, rid);
    var req, c := Facts(states, steps, n, rid);
    QueuedSomewhere(states[n], req, c.ctx, rid);
  }

  // A cancel by request id that another caller makes while the releaser waits removes tasks that
  // nobody accounts. From then on the wait cannot succeed, and unless a task fails the request never
  // completes: a wait without a timeout does not return.
  lemma ForeignCancelStrandsWait(states: seq<State>, steps: seq<Step>, i: nat, n: nat, rid: Word)
    requires Reached(states, steps, i, rid) && i <= n <= |steps| && states[i].reqs[rid].flow.removed != []
    requires forall k | i <= k < n :: !(steps[k].Attach? && steps[k].rid == rid)
    requires rid in states[n].reqs && InWait(states[n].reqs[rid].stage)
    ensures var req := states[n].reqs[rid];
            && req.sync.completed < req.sync.total
            && (req.sync.requestCompleted <==> req.tally.failed > 0 || req.tally.early)
  {
    var was, b := Facts(states, steps, i, rid);
    RunKeepsCut(states, steps, i, n, rid);
    var req, c := Facts(states, steps, n, rid);
  }

  // A wakeup that raced past the cancel is dropped: it leaves its list and changes nothing else.
  lemma LateWakeupIsDropped(states: seq<State>, steps: seq<Step>, n: nat, rid: Word, w: nat)
    requires Reached(states, steps, n, rid) && states[n].reqs[rid].flow.cut.Some?
    requires Enabled(states[n], Do(rid, w, Pop))
    ensures var s := states[n];
            Apply(s, Do(rid, w, Pop))
            == s.(workers := s.workers[w := s.workers[w].(pending := s.workers[w].pending[1..])])
  {
    var req, c := Facts(states, steps, n, rid);
    var s := states[n];
    StepsAtHome(s, rid, w, Pop);
    var worker := s.workers[w];
    var i := TakeSplits(worker.queue, Matching(rid, worker.pending[0].data));
    if i < |worker.queue| {
      SelectMembers(worker.queue, TaskOf(rid), worker.queue[i]);
    }
    assert Put(s.table, rid, Get(s.table, rid)) == s.table;
    assert s.reqs[rid := s.reqs[rid]] == s.reqs;
  }

  // ----- Delivery.

  // The tasks handed to the worker are what the consumed wakeups select from the batch, however
  // the requests of one worker interleave.
  lemma HandedOutByReplay(states: seq<State>, steps: seq<Step>, n: nat, rid: Word)
    requires Reached(states, steps, n, rid)
    ensures var s, req := states[n], states[n].reqs[rid];
            && req.home < |s.workers|
            && Replay(req.batch, rid, req.flow.log).popped == req.flow.popped
            && (req.flow.cut.None? ==>
                  Replay(req.batch, rid, req.flow.log).rest == Select(s.workers[req.home].queue, TaskOf(rid)))
  {
    var req, c := Facts(states, steps, n, rid);
  }

  lemma UnkeyedRunInOrder(states: seq<State>, steps: seq<Step>, n: nat, rid: Word)
    requires Reached(states, steps, n, rid) && Unkeyed(states[n].reqs[rid].batch, rid)
    ensures var req := states[n].reqs[rid];
            TasksOf(req.flow.popped) == req.batch[..Min(|req.flow.log|, |req.batch|)]
  {
    var req, c := Facts(states, steps, n, rid);
    UnkeyedIsPrefix(req.batch, rid, req.flow.log);
  }

  lemma KeyedRunOnArrival(states: seq<State>, steps: seq<Step>, n: nat, rid: Word)
    requires Reached(states, steps, n, rid) && Keyed(states[n].reqs[rid].batch, rid)
    ensures var popped, batch := states[n].reqs[rid].flow.popped, states[n].reqs[rid].batch;
            && (forall h | h in popped :: h.task in batch && h.task.key == Some(h.data))
            && (forall i, j | 0 <= i < j < |popped| :: popped[i].task != popped[j].task)
  {
    var req, c := Facts(states, steps, n, rid);
    forall h | h in req.flow.popped ensures h.task in req.batch && h.task.key == Some(h.data) {
      KeyedHits(req.batch, rid, req.flow.log, h);
    }
    forall i, j | 0 <= i < j < |req.flow.popped| ensures req.flow.popped[i].task != req.flow.popped[j].task {
      KeyedOnce(req.batch, rid, req.flow.log, i, j);
    }
  }

  // A wakeup that fits no queued task of its request changes no task.
  lemma StrayWakeupChangesNoTask(s: State, rid: Word, w: nat)
    requires Enabled(s, Do(rid, w, Pop))
    requires forall t | t in s.workers[w].queue :: !Matching(rid, s.workers[w].pending[0].data)(t)
    ensures var t := Apply(s, Do(rid, w, Pop));
            && t.workers == s.workers[w := s.workers[w].(pending := s.workers[w].pending[1..])]
            && t.table == s.table
            && t.reqs[rid].(flow := s.reqs[rid].flow) == s.reqs[rid]
            && t.reqs[rid].flow.popped == s.reqs[rid].flow.popped
  {
    var i := TakeSplits(s.workers[w].queue, Matching(rid, s.workers[w].pending[0].data));
    assert Put(s.table, rid, Get(s.table, rid)) == s.table;
  }

  // Once every expected completion has been consumed and no body failed, every task is completed.
  lemma AllArrivedAllCompleted(states: seq<State>, steps: seq<Step>, n: nat, rid: Word)
    requires Reached(states, steps, n, rid)
    requires var req := states[n].reqs[rid];
             && Keyed(req.batch, rid) && (forall t | t in req.batch :: t.key.value in req.flow.log)
             && req.tally.failed == 0 && NothingUnmarked(states[n], rid)
    ensures var req := states[n].reqs[rid];
            req.sync.completed == req.sync.total && multiset(TasksOf(req.flow.popped)) == multiset(req.batch)
  {
    var req, c := Facts(states, steps, n, rid);
    AllArrivedAllRun(req.batch, rid, req.flow.log);
    UnmarkedSomewhere(states[n], req, c.ctx, rid);
  }

  // ----- The verdict of a wait.

  // Every task handed out ran its body once, and its result alone decides how it is counted. A send
  // notes exactly what its bodies returned, in order; a recv notes nothing.
  lemma ResultsAreExact(states: seq<State>, steps: seq<Step>, n: nat, rid: Word)
    requires Reached(states, steps, n, rid)
    ensures var req := states[n].reqs[rid];
            && |req.tally.results| <= |req.flow.popped| <= |req.tally.results| + 1
            && (NothingUnmarked(states[n], rid) ==>
                  && |req.tally.results| == |req.flow.popped|
                  && req.tally.failed == Failures(req.tally.results)
                  && req.sync.completed == |req.tally.results| - Failures(req.tally.results))
            && (req.send ==> req.tally.statuses <= req.tally.results
                             && |req.tally.results| <= |req.tally.statuses| + 1)
            && (!req.send ==> req.tally.statuses == [] && req.sync.urma == 0)
  {
    var req, c := Facts(states, steps, n, rid);
    UnmarkedSomewhere(states[n], req, c.ctx, rid);
  }

  lemma {:induction false} NoFailures(results: seq<int>)
    ensures Failures(results) == 0 <==> forall i | 0 <= i < |results| :: results[i] == 0
  {
    if results != [] {
      NoFailures(results[..|results| - 1]);
    }
  }

  // 0 is returned only if every task ran exactly once and returned 0; the status reported is the
  // first failure noted by then, and a noted failure never goes with 0. A recv reports no status,
  // and its wait returns just what it found.
  lemma WaitResultIsExact(states: seq<State>, steps: seq<Step>, n: nat, rid: Word)
    requires Reached(states, steps, n, rid) && states[n].reqs[rid].stage.Released?
    ensures var req := states[n].reqs[rid];
            && req.stage.heard <= |req.tally.statuses|
            && req.stage.status == FirstFailure(req.tally.statuses[..req.stage.heard])
            && req.stage.returned == (if req.stage.status == 0 then req.stage.why else Failed)
            && (!req.send ==> req.stage.status == 0 && req.stage.returned == req.stage.why)
            && (req.stage.returned.Success? <==> req.stage.why.Success?)
            && (req.stage.returned.Success? ==>
                  && req.stage.status == 0 && req.tally.failed == 0 && req.sync.canceled == 0
                  && req.sync.completed == req.sync.total && req.flow.removed == []
                  && multiset(TasksOf(req.flow.popped)) == multiset(req.batch)
                  && |req.tally.results| == |req.batch| && forall i | 0 <= i < |req.batch| :: req.tally.results[i] == 0)
  {
    var req, c := Facts(states, steps, n, rid);
    ReplayConserves(req.batch, rid, req.flow.log);
    if req.stage.why.Success? {
      FailureMeansFailed(req.tally.statuses, req.stage.heard);
      NoFailures(req.tally.results);
    }
  }

  lemma {:induction false} FailureMeansFailed(statuses: seq<int>, n: nat)
    requires n <= |statuses| && FirstFailure(statuses) == 0
    ensures FirstFailure(statuses[..n]) == 0
  {
    if n > 0 {
      FailureMeansFailed(statuses[1..], n - 1);
      assert statuses[..n][1..] == statuses[1..][..n - 1];
    }
  }

  lemma WaitEnding(c: Cell, rid: Word)
    requires CellInv(c, rid) && InWait(c.req.stage)
    ensures MayEnd(c.req, Success) <==> c.req.sync.completed == c.req.sync.total
    ensures c.req.sync.completed == c.req.sync.total ==> c.req.sync.requestCompleted && c.req.sync.Succeeded()
  {}

  lemma WaitFacts(states: seq<State>, steps: seq<Step>, n: nat, rid: Word)
    requires Reached(states, steps, n, rid) && InWait(states[n].reqs[rid].stage)
    ensures var req := states[n].reqs[rid];
            && (MayEnd(req, Success) <==> req.sync.completed == req.sync.total)
            && (req.sync.completed == req.sync.total ==> req.sync.requestCompleted && req.sync.Succeeded())
  {
    var req, c := Facts(states, steps, n, rid);
    WaitEnding(c, rid);
  }

  // A wait can end with success if and only if every task has completed. A wait that finds that
  // when it starts neither blocks nor ends in another way; one that blocked before can still run
  // out of time or fail. One that did not block fails only if a task failed or the first chunk was
  // not posted.
  lemma WaitSucceedsIffAllCompleted(states: seq<State>, steps: seq<Step>, n: nat, rid: Word, w: nat, act: Act)
    requires Reached(states, steps, n, rid) && InWait(states[n].reqs[rid].stage) && w < |states[n].workers|
    requires act.Block? || act.WaitEnds?
    ensures var s, req := states[n], states[n].reqs[rid];
            && (Enabled(s, Do(rid, w, WaitEnds(Success))) <==> req.sync.completed == req.sync.total)
            && (req.stage.Holding? && req.sync.completed == req.sync.total && Enabled(s, Do(rid, w, act))
                ==> act == WaitEnds(Success))
            && (Enabled(s, Do(rid, w, WaitEnds(TimedOut))) <==> req.stage.Waiting?)
            && (Enabled(s, Do(rid, w, WaitEnds(Failed))) <==>
                  req.stage.Waiting?
                  || (req.sync.completed < req.sync.total && (req.tally.failed > 0 || req.tally.early)))
  {
    WaitFacts(states, steps, n, rid);
    WaitReturnsIff(states, steps, n, rid);
    RecordLedger(states, steps, n, rid);
  }

  // What the caller's own cancel leaves: once the caller has accounted for it, or its wait has ended
  // with success, nothing of the request is queued any more.
  lemma ReleasedLeavesNothingQueued(states: seq<State>, steps: seq<Step>, n: nat, rid: Word)
    requires Reached(states, steps, n, rid) && Accounted(states[n].reqs[rid].stage)
    ensures NothingQueued(states[n], rid)
  {
    var req, c := Facts(states, steps, n, rid);
    QueuedSomewhere(states[n], req, c.ctx, rid);
  }

  // The two flags of the record say exactly this: a failed or given-up request, and one given up
  // because the time was over.
  lemma FlagsAreExact(states: seq<State>, steps: seq<Step>, n: nat, rid: Word)
    requires Reached(states, steps, n, rid)
    ensures var req := states[n].reqs[rid];
            && (req.sync.requestCanceled <==>
                  req.tally.failed > 0 || (Accounted(req.stage) && !req.stage.why.Success?))
            && (req.sync.requestTimedOut <==> WaitEnded(req.stage) && req.stage.why.TimedOut?)
  {
    var req, c := Facts(states, steps, n, rid);
  }

  // Until a cancel, the wakeups of a request are consumed in the order they were pushed, and none is
  // lost or made up.
  lemma WakeupsInOrder(states: seq<State>, steps: seq<Step>, n: nat, rid: Word)
    requires Reached(states, steps, n, rid) && states[n].reqs[rid].flow.cut.None?
    ensures var s, req := states[n], states[n].reqs[rid];
            && req.home < |s.workers|
            && req.flow.pushed == req.flow.log + DataOf(Select(s.workers[req.home].pending, WakeOf(rid)))
  {
    var req, c := Facts(states, steps, n, rid);
  }

  // ----- Progress.

  function WithReq(s: State, rid: Word, req: Req): State {
    s.(reqs := s.reqs[rid := req])
  }

  lemma BoundHome(s: State, rid: Word)
    requires Inv(s) && rid in s.reqs
    ensures var req := s.reqs[rid];
            && req.home < |s.workers| && (rid in s.table ==> s.table[rid].worker == req.home)
            && (req.stage.Cancelling? && req.stage.at.Some? ==> req.stage.at.value < |req.cancels|)
  {
    assert ReqInv(s, rid);
  }

  lemma OnlyReqChanges(s: State, rid: Word, w: nat, act: Act)
    requires Enabled(s, Do(rid, w, act)) && (act.WakeLookup? || act.CancelLookup?)
    ensures Apply(s, Do(rid, w, act)) == WithReq(s, rid, Local(CellOf(s, rid, w), rid, w, act).req)
    ensures rid !in s.table ==> Apply(s, Do(rid, w, act)) == s
  {
    assert s.workers[w := s.workers[w]] == s.workers;
    assert Put(s.table, rid, Get(s.table, rid)) == s.table;
    assert s.reqs[rid := s.reqs[rid]] == s.reqs;
  }

  // A canceller can always go on from one of its sections to the next.
  lemma CancellersNeverStuck(s: State, rid: Word, j: nat)
    requires Inv(s) && rid in s.reqs && j < |s.reqs[rid].cancels|
    ensures var home, phase := s.reqs[rid].home, s.reqs[rid].cancels[j].phase;
            && home < |s.workers|
            && (phase.Looked? ==> Enabled(s, Do(rid, home, CancelRemove(j))))
            && (phase.Removed? ==> Enabled(s, Do(rid, home, CancelDeduct(j))))
  {
    assert ReqInv(s, rid);
  }

  // So can the thread that submits and releases, up to its own cancel that has to return first: while
  // its wait is not over, it can block, run out of time or end. As long as it does not wait it can cancel.
  lemma ReleaserNeverStuck(s: State, rid: Word)
    requires Inv(s) && rid in s.reqs
    ensures var req, home := s.reqs[rid], s.reqs[rid].home;
            && home < |s.workers|
            && match req.stage
               case Registering => Enabled(s, Do(rid, home, if req.published then Return(false) else Publish))
               case Holding =>
                 Enabled(s, Do(rid, home, CallCancel))
                 && Enabled(s, Do(rid, home, if !req.sync.requestCompleted then Block
                                          else WaitEnds(if req.sync.Succeeded() then Success else Failed)))
               case Waiting => Enabled(s, Do(rid, home, WaitEnds(TimedOut)))
               case MustCancel(_) => Enabled(s, Do(rid, home, OwnLookup))
               case Cancelling(_, at) =>
                 (at.Some? ==> at.value < |req.cancels|)
                 && ((at.Some? ==> req.cancels[at.value].phase.Returned?) ==> Enabled(s, Do(rid, home, AccountCancel)))
               case Releasing(_, _) => Enabled(s, Do(rid, home, Release))
               case Released(_, _, _, _, _) => true
  {
    BoundHome(s, rid);
  }

  // Completions and cancels look an id up whenever they come. If it has a context, they go on to the
  // worker that has everything of the request; if not, they change nothing.
  lemma LookupsFindHome(s: State, rid: Word, w: nat, data: Word)
    requires Inv(s) && rid in s.reqs && w < |s.workers|
    ensures Enabled(s, Do(rid, w, WakeLookup(data))) && Enabled(s, Do(rid, w, CancelLookup))
    ensures var req := s.reqs[rid];
            var woken, canceled := Apply(s, Do(rid, w, WakeLookup(data))), Apply(s, Do(rid, w, CancelLookup));
            if rid in s.table
            then && woken == WithReq(s, rid, req.(wakers := req.wakers + [Waker(req.home, data)]))
                 && canceled == WithReq(s, rid, req.(cancels := req.cancels + [Canceller(req.home, Looked)]))
            else woken == s && canceled == s
  {
    BoundHome(s, rid);
    OnlyReqChanges(s, rid, w, WakeLookup(data));
    OnlyReqChanges(s, rid, w, CancelLookup);
  }

  // No worker runs a task of rid.
  ghost predicate NothingRunning(s: State, rid: Word) {
    forall w | 0 <= w < |s.workers| :: !Runs(s.workers[w], rid)
  }

  // Its request is released and nobody is between two sections for it.
  predicate Finished(req: Req) {
    req.stage.Released? && req.wakers == [] && forall j | 0 <= j < |req.cancels| :: req.cancels[j].phase.Returned?
  }

  lemma HeldNowhere(s: State, rid: Word)
    ensures (forall w | 0 <= w < |s.workers| :: Proj(s.workers[w], rid) == Worker([], [], None))
            <==> NothingQueued(s, rid) && NothingPending(s, rid) && NothingRunning(s, rid)
  {
    forall w | 0 <= w < |s.workers|
      ensures Proj(s.workers[w], rid) == Worker([], [], None)
              <==> (forall t | t in s.workers[w].queue :: t.rid != rid)
                   && (forall k | k in s.workers[w].pending :: k.rid != rid) && !Runs(s.workers[w], rid)
    {
      NoneSelected(s.workers[w].queue, TaskOf(rid));
      NoneSelected(s.workers[w].pending, WakeOf(rid));
    }
  }

  lemma NoneSelected<T>(s: seq<T>, p: T -> bool)
    ensures Select(s, p) == [] <==> forall x | x in s :: !p(x)
  {
    if forall x | x in s :: !p(x) {
      SelectNone(s, p);
    } else {
      var x :| x in s && p(x);
      SelectMembers(s, p, x);
    }
  }

  // A known id is free for a new submission if and only if its request is finished and no worker holds a
  // task or a wakeup of it; its context is gone by then.
  lemma IdIsFreeIff(s: State, rid: Word, w: nat, batch: seq<Task>, send: bool, callback: Callback)
    requires Inv(s) && rid in s.reqs && w < |s.workers|
    requires batch != [] && forall t | t in batch :: t.rid == rid
    ensures Enabled(s, Attach(rid, w, batch, send, callback)) <==>
              Finished(s.reqs[rid]) && NothingQueued(s, rid) && NothingPending(s, rid) && NothingRunning(s, rid)
  {
    assert ReqInv(s, rid);
    HeldNowhere(s, rid);
  }

  // A worker that holds a task or a wakeup can always go on: the wakeup at the head of its list
  // can be consumed whatever request it is for, and a task that was taken can be carried on.
  lemma WorkerNeverStuck(s: State, w: nat)
    requires Inv(s) && w < |s.workers|
    ensures var worker := s.workers[w];
            && (worker.run.None? && worker.pending != [] ==> Enabled(s, Do(worker.pending[0].rid, w, Pop)))
            && (worker.run.Some? ==>
                  Enabled(s, Do(worker.run.value.hit.task.rid, w,
                                match worker.run.value.phase
                                case Popped => RunBody(0)
                                case Ran(_) => NoteStatus
                                case Noted(_) => MarkSync
                                case Marked => SettleContext)))
  {
    var worker := s.workers[w];
    if worker.run.None? && worker.pending != [] {
      var rid := worker.pending[0].rid;
      assert ReqInv(s, rid);
      SelectMembers(worker.pending, WakeOf(rid), worker.pending[0]);
      var share := Proj(worker, rid);
    }
    if worker.run.Some? {
      var rid := worker.run.value.hit.task.rid;
      assert ReqInv(s, rid);
      var share := Proj(worker, rid);
    }
  }

  // ----- Resubmitting an id that is still active.

  // Tasks of rid queued anywhere.
  function QueuedAnywhere(workers: seq<Worker>, rid: Word): nat {
    if workers == [] then 0 else |Select(workers[0].queue, TaskOf(rid))| + QueuedAnywhere(workers[1..], rid)
  }

  lemma {:induction false} QueuedNowhereElse(workers: seq<Worker>, rid: Word)
    requires forall v | 0 <= v < |workers| :: Select(workers[v].queue, TaskOf(rid)) == []
    ensures QueuedAnywhere(workers, rid) == 0
  {
    if workers != [] {
      QueuedNowhereElse(workers[1..], rid);
    }
  }

  lemma {:induction false} QueuedAtHome(workers: seq<Worker>, home: nat, rid: Word)
    requires home < |workers|
    requires forall v | 0 <= v < |workers| && v != home :: Select(workers[v].queue, TaskOf(rid)) == []
    ensures QueuedAnywhere(workers, rid) == |Select(workers[home].queue, TaskOf(rid))|
  {
    if home == 0 {
      QueuedNowhereElse(workers[1..], rid);
    } else {
      QueuedAtHome(workers[1..], home - 1, rid);
    }
  }

  lemma {:induction false} AttachAddsQueued(workers: seq<Worker>, w: nat, batch: seq<Task>, rid: Word)
    requires w < |workers| && forall t | t in batch :: t.rid == rid
    ensures QueuedAnywhere(workers[w := workers[w].(queue := workers[w].queue + batch)], rid)
            == QueuedAnywhere(workers, rid) + |batch|
  {
    var after := workers[w := workers[w].(queue := workers[w].queue + batch)];
    if w == 0 {
      SelectConcat(workers[0].queue, batch, TaskOf(rid));
      SelectAll(batch, TaskOf(rid));
      assert after[1..] == workers[1..];
    } else {
      AttachAddsQueued(workers[1..], w - 1, batch, rid);
      assert after[1..] == workers[1..][w - 1 := workers[w].(queue := workers[w].queue + batch)];
    }
  }

  // Submitting a batch under an id that is still active: the context then counts the tasks queued
  // under the id on every worker, the one handed out and those removed but undeducted; it stays bound
  // to the worker and keeps the callback of the first submission.
  lemma ResubmissionLedger(states: seq<State>, steps: seq<Step>, n: nat, rid: Word, w: nat, batch: seq<Task>,
                           callback: Callback)
    requires Reached(states, steps, n, rid) && rid in states[n].table && w < |states[n].workers|
    requires batch != [] && forall t | t in batch :: t.rid == rid
    ensures var s, req := states[n], states[n].reqs[rid];
            var attached := s.workers[w := s.workers[w].(queue := s.workers[w].queue + batch)];
            Published(Some(s.table[rid]), w, |batch|, callback)
            == Context(req.home, QueuedAnywhere(attached, rid) + Unsettled(s, req, rid) + Undeducted(req), req.callback)
  {
    var s := states[n];
    var req, c := Facts(states, steps, n, rid);
    ContextLedger(states, steps, n, rid);
    forall v | 0 <= v < |s.workers| && v != req.home ensures Select(s.workers[v].queue, TaskOf(rid)) == [] {
      var share := Proj(s.workers[v], rid);
    }
    QueuedAtHome(s.workers, req.home, rid);
    AttachAddsQueued(s.workers, w, batch, rid);
  }

  // The pool attaches the new tasks to the worker it selects but keeps the context's worker. A cancel
  // reaches all tasks of the request if and only if the selected worker is the one already bound.
  lemma ResubmissionReachable(states: seq<State>, steps: seq<Step>, n: nat, rid: Word, w: nat, batch: seq<Task>,
                              callback: Callback)
    requires Reached(states, steps, n, rid) && rid in states[n].table && w < |states[n].workers|
    requires batch != [] && forall t | t in batch :: t.rid == rid
    ensures var s := states[n];
            var bound := Published(Some(s.table[rid]), w, |batch|, callback).worker;
            var attached := s.workers[w := s.workers[w].(queue := s.workers[w].queue + batch)];
            && bound < |attached|
            && var after := attached[bound := attached[bound].(queue := Drop(attached[bound].queue, TaskOf(rid)))];
               (forall v | 0 <= v < |after| :: Select(after[v].queue, TaskOf(rid)) == []) <==> w == s.table[rid].worker
  {
    var req, c := Facts(states, steps, n, rid);
    var s := states[n];
    SelectConcat(s.workers[w].queue, batch, TaskOf(rid));
    SelectAll(batch, TaskOf(rid));
    DropThenSelect(s.workers[req.home].queue, TaskOf(rid), TaskOf(rid));
    DropThenSelect(s.workers[req.home].queue + batch, TaskOf(rid), TaskOf(rid));
    forall v | 0 <= v < |s.workers| && v != req.home ensures Select(s.workers[v].queue, TaskOf(rid)) == [] {
      var share := Proj(s.workers[v], rid);
    }
    var attached := s.workers[w := s.workers[w].(queue := s.workers[w].queue + batch)];
    var after := attached[req.home := attached[req.home].(queue := Drop(attached[req.home].queue, TaskOf(rid)))];
    assert w != req.home ==> Select(after[w].queue, TaskOf(rid)) != [];
  }
}
