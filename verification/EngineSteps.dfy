/** Every act keeps the invariant of its request. */
module EngineSteps {
  import opened Codec
  import opened Lists
  import opened PoolSpec
  import opened Completion
  import opened Engine
  import opened Delivery
  import opened EngineInvariant

  // ----- Pool side.

  lemma PublishKeepsPool(c: Cell, rid: Word)
    requires PoolInv(c, rid) && !c.req.published
    ensures PoolInv(DoPublish(c), rid)
  {}

  lemma WakeKeepsPool(c: Cell, rid: Word, data: Word)
    requires PoolInv(c, rid)
    ensures PoolInv(DoWakeLookup(c, data), rid)
  {}

  lemma PushKeepsPool(c: Cell, rid: Word, i: nat)
    requires PoolInv(c, rid) && i < |c.req.wakers|
    ensures PoolInv(DoWakePush(c, rid, i), rid)
  {}

  lemma PopKeepsPool(c: Cell, rid: Word)
    requires PoolInv(c, rid) && c.worker.run.None? && c.worker.pending != []
    ensures PoolInv(DoPop(c, rid), rid)
  {
    var i := TakeSplits(c.worker.queue, Matching(rid, c.worker.pending[0].data));
  }

  lemma SettleKeepsPool(c: Cell, rid: Word)
    requires PoolInv(c, rid) && c.worker.run.Some?
    ensures PoolInv(DoSettle(c), rid)
  {}

  lemma LookupKeepsPool(c: Cell, rid: Word)
    requires PoolInv(c, rid)
    ensures PoolInv(DoCancelLookup(c), rid)
    ensures c.req.stage.MustCancel? ==> PoolInv(DoOwnLookup(c), rid)
  {}

  lemma RemoveKeepsPool(c: Cell, rid: Word, j: nat)
    requires PoolInv(c, rid) && j < |c.req.cancels| && c.req.cancels[j].phase.Looked?
    requires Select(c.worker.queue, TaskOf(rid)) == c.worker.queue && Drop(c.worker.queue, TaskOf(rid)) == []
    ensures PoolInv(DoRemove(c, rid, j), rid)
  {}

  lemma DeductKeepsPool(c: Cell, rid: Word, j: nat)
    requires PoolInv(c, rid) && j < |c.req.cancels| && c.req.cancels[j].phase.Removed?
    ensures PoolInv(DoDeduct(c, j), rid)
  {}

  // Acts on the record leave everything the pool side speaks of alone.
  ghost predicate SamePool(c: Cell, d: Cell) {
    && d.ctx == c.ctx && d.worker.queue == c.worker.queue && d.worker.pending == c.worker.pending
    && (d.worker.run.Some? <==> c.worker.run.Some?)
    && d.req.home == c.req.home && d.req.batch == c.req.batch && d.req.published == c.req.published
    && d.req.callback == c.req.callback
    && d.req.wakers == c.req.wakers && d.req.cancels == c.req.cancels && d.req.flow == c.req.flow
    && d.req.tally.fired == c.req.tally.fired
    && (d.req.stage.Registering? || d.req.published)
  }

  lemma SamePoolKeeps(c: Cell, d: Cell, rid: Word)
    requires PoolInv(c, rid) && SamePool(c, d)
    ensures PoolInv(d, rid)
  {}

  lemma RecordActsKeepPool(c: Cell, rid: Word, w: nat, act: Act)
    requires PoolInv(c, rid) && Can(c, rid, w, act)
    requires act.Return? || act.RunBody? || act.NoteStatus? || act.MarkSync? || act.Block? || act.WaitEnds?
             || act.CallCancel? || act.AccountCancel? || act.Release?
    ensures PoolInv(Local(c, rid, w, act), rid)
  {
    SamePoolKeeps(c, Local(c, rid, w, act), rid);
  }

  // ----- Completion record.

  lemma PopKeepsSync(c: Cell, rid: Word)
    requires PoolInv(c, rid) && SyncInv(c) && c.worker.run.None? && c.worker.pending != []
    ensures SyncInv(DoPop(c, rid))
  {}

  lemma MarkKeepsSync(c: Cell, rid: Word)
    requires PoolInv(c, rid) && SyncInv(c) && c.worker.run.Some? && c.worker.run.value.phase.Noted?
    ensures SyncInv(DoMark(c))
  {}

  lemma RemoveKeepsSync(c: Cell, rid: Word, j: nat)
    requires PoolInv(c, rid) && SyncInv(c) && j < |c.req.cancels| && c.req.cancels[j].phase.Looked?
    ensures SyncInv(DoRemove(c, rid, j))
  {}

  lemma AccountKeepsSync(c: Cell, rid: Word)
    requires PoolInv(c, rid) && SyncInv(c) && c.req.stage.Cancelling? && OwnCancelReturned(c.req)
    ensures SyncInv(DoAccount(c))
  {}

  lemma ReleaseKeepsSync(c: Cell, rid: Word)
    requires PoolInv(c, rid) && SyncInv(c) && c.req.stage.Releasing?
    ensures SyncInv(DoRelease(c))
  {}

  predicate RecordUntouched(act: Act) {
    act.Publish? || act.WakeLookup? || act.WakePush? || act.RunBody? || act.SettleContext? || act.CancelLookup?
    || act.CancelDeduct?
  }

  lemma PoolActsKeepSync(c: Cell, rid: Word, w: nat, act: Act)
    requires PoolInv(c, rid) && SyncInv(c) && Can(c, rid, w, act) && RecordUntouched(act)
    ensures SyncInv(Local(c, rid, w, act))
  {}

  lemma ReturnKeepsSync(c: Cell, firstPostFailed: bool)
    requires SyncInv(c) && c.req.stage.Registering?
    ensures SyncInv(DoReturn(c, firstPostFailed))
  {}

  lemma WaitEndsKeepsSync(c: Cell, rid: Word, outcome: Verdict)
    requires PoolInv(c, rid) && SyncInv(c) && MayEnd(c.req, outcome)
    ensures SyncInv(DoWaitEnds(c, outcome))
  {}

  lemma OwnLookupKeepsSync(c: Cell, rid: Word)
    requires PoolInv(c, rid) && SyncInv(c) && c.req.stage.MustCancel?
    ensures SyncInv(DoOwnLookup(c))
  {}

  lemma StageActsKeepSync(c: Cell, rid: Word, w: nat, act: Act)
    requires PoolInv(c, rid) && SyncInv(c) && Can(c, rid, w, act)
    requires act.Return? || act.Block? || act.WaitEnds? || act.CallCancel? || act.OwnLookup?
    ensures SyncInv(Local(c, rid, w, act))
  {
    match act
    case Return(firstPostFailed) => ReturnKeepsSync(c, firstPostFailed);
    case WaitEnds(outcome) => WaitEndsKeepsSync(c, rid, outcome);
    case OwnLookup => OwnLookupKeepsSync(c, rid);
    case Block =>
    case CallCancel =>
  }

  lemma NoteKeepsSync(c: Cell)
    requires SyncInv(c) && c.worker.run.Some? && c.worker.run.value.phase.Ran?
    ensures SyncInv(DoNote(c))
  {}

  // ----- Statuses and verdicts.

  lemma NoteKeepsVerdict(c: Cell)
    requires VerdictInv(c) && c.worker.run.Some? && c.worker.run.value.phase.Ran?
    ensures VerdictInv(DoNote(c))
  {
    var statuses, status := c.req.tally.statuses, c.worker.run.value.phase.status;
    NotedKeepsFirstFailure(statuses, status, c.req.sync);
    if c.req.stage.Released? {
      assert (statuses + [status])[..c.req.stage.heard] == statuses[..c.req.stage.heard];
    }
  }

  lemma MarkKeepsVerdict(c: Cell, rid: Word)
    requires PoolInv(c, rid) && SyncInv(c) && VerdictInv(c)
    requires c.worker.run.Some? && c.worker.run.value.phase.Noted?
    ensures VerdictInv(DoMark(c))
  {}

  lemma AccountKeepsVerdict(c: Cell)
    requires VerdictInv(c) && c.req.stage.Cancelling? && OwnCancelReturned(c.req)
    ensures VerdictInv(DoAccount(c))
  {}

  lemma ReleaseKeepsVerdict(c: Cell)
    requires VerdictInv(c) && c.req.stage.Releasing?
    ensures VerdictInv(DoRelease(c))
  {
    assert c.req.tally.statuses[..|c.req.tally.statuses|] == c.req.tally.statuses;
  }

  lemma TableActsKeepVerdict(c: Cell, rid: Word, w: nat, act: Act)
    requires VerdictInv(c) && Can(c, rid, w, act)
    requires act.Publish? || act.WakeLookup? || act.CancelLookup? || act.CancelDeduct?
    ensures VerdictInv(Local(c, rid, w, act))
  {}

  lemma WorkerActsKeepVerdict(c: Cell, rid: Word, w: nat, act: Act)
    requires VerdictInv(c) && Can(c, rid, w, act)
    requires act.WakePush? || act.Pop? || act.RunBody? || act.SettleContext? || act.CancelRemove?
    ensures VerdictInv(Local(c, rid, w, act))
  {}

  lemma StageActsKeepVerdict(c: Cell, rid: Word, w: nat, act: Act)
    requires VerdictInv(c) && Can(c, rid, w, act)
    requires act.Return? || act.Block? || act.WaitEnds? || act.CallCancel? || act.OwnLookup?
    ensures VerdictInv(Local(c, rid, w, act))
  {}

  // ----- Results.

  lemma FailuresMore(results: seq<int>, result: int)
    ensures Failures(results + [result]) == Failures(results) + if result == 0 then 0 else 1
  {
    assert (results + [result])[..|results|] == results;
  }

  lemma PopKeepsResults(c: Cell, rid: Word)
    requires ResultsInv(c) && c.worker.run.None? && c.worker.pending != []
    ensures ResultsInv(DoPop(c, rid))
  {}

  lemma RunKeepsResults(c: Cell, result: int)
    requires ResultsInv(c) && c.worker.run.Some? && c.worker.run.value.phase.Popped?
    ensures ResultsInv(DoRunBody(c, result))
  {
    assert AllButLast(c.req.tally.results + [result]) == c.req.tally.results;
  }

  lemma NoteKeepsResults(c: Cell)
    requires ResultsInv(c) && c.worker.run.Some? && c.worker.run.value.phase.Ran?
    ensures ResultsInv(DoNote(c))
  {
    var results := c.req.tally.results;
    assert AllButLast(results) + [results[|results| - 1]] == results;
  }

  lemma MarkKeepsResults(c: Cell)
    requires ResultsInv(c) && c.worker.run.Some? && c.worker.run.value.phase.Noted?
    ensures ResultsInv(DoMark(c))
  {
    var results := c.req.tally.results;
    LastOf(results);
    FailuresMore(AllButLast(results), results[|results| - 1]);
  }

  lemma LastOf(s: seq<int>)
    requires s != []
    ensures AllButLast(s) + [s[|s| - 1]] == s && |AllButLast(s)| == |s| - 1
  {}

  lemma SettleKeepsResults(c: Cell)
    requires ResultsInv(c) && c.worker.run.Some? && c.worker.run.value.phase.Marked?
    ensures ResultsInv(DoSettle(c))
  {}

  // What no other act touches.
  predicate SameResults(c: Cell, d: Cell) {
    && d.req.tally.results == c.req.tally.results && d.req.tally.statuses == c.req.tally.statuses
    && d.req.tally.failed == c.req.tally.failed && d.req.sync.completed == c.req.sync.completed
    && d.req.flow.popped == c.req.flow.popped && d.req.send == c.req.send && d.worker.run == c.worker.run
  }

  lemma SameResultsKeep(c: Cell, d: Cell)
    requires ResultsInv(c) && SameResults(c, d)
    ensures ResultsInv(d)
  {}

  lemma TableActsLeaveResults(c: Cell, rid: Word, w: nat, act: Act)
    requires Can(c, rid, w, act)
    requires act.Publish? || act.WakeLookup? || act.WakePush? || act.CancelLookup? || act.CancelRemove?
             || act.CancelDeduct?
    ensures SameResults(c, Local(c, rid, w, act))
  {}

  lemma CallerActsLeaveResults(c: Cell, rid: Word, w: nat, act: Act)
    requires Can(c, rid, w, act)
    requires act.Return? || act.Block? || act.WaitEnds? || act.CallCancel? || act.OwnLookup? || act.AccountCancel?
             || act.Release?
    ensures SameResults(c, Local(c, rid, w, act))
  {}

  // ----- Flow.

  lemma PopKeepsFlow(c: Cell, rid: Word)
    requires PoolInv(c, rid) && FlowInv(c, rid) && c.worker.run.None? && c.worker.pending != []
    ensures FlowInv(DoPop(c, rid), rid)
  {
    ReplayMore(c.req.batch, rid, c.req.flow.log, c.worker.pending[0].data);
  }

  lemma PopMoves(c: Cell, rid: Word)
    requires c.worker.pending != []
    ensures var d, data := DoPop(c, rid), c.worker.pending[0].data;
            && d.worker.pending == c.worker.pending[1..]
            && d.req.flow.pushed == c.req.flow.pushed && d.req.flow.cut == c.req.flow.cut
            && d.req.flow.log == if c.req.flow.cut.None? then c.req.flow.log + [data] else c.req.flow.log
  {}

  lemma FirstOf(log: seq<Word>, pending: seq<Wake>)
    requires pending != []
    ensures log + DataOf(pending) == (log + [pending[0].data]) + DataOf(pending[1..])
  {}

  lemma PopKeepsFifo(c: Cell, rid: Word)
    requires Fifo(c) && c.worker.run.None? && c.worker.pending != []
    ensures Fifo(DoPop(c, rid))
  {
    PopMoves(c, rid);
    FirstOf(c.req.flow.log, c.worker.pending);
  }

  lemma PushKeepsFlow(c: Cell, rid: Word, i: nat)
    requires FlowInv(c, rid) && i < |c.req.wakers|
    ensures FlowInv(DoWakePush(c, rid, i), rid)
  {}

  lemma PushKeepsFifo(c: Cell, rid: Word, i: nat)
    requires Fifo(c) && i < |c.req.wakers|
    ensures Fifo(DoWakePush(c, rid, i))
  {
    var data := c.req.wakers[i].data;
    assert DataOf(c.worker.pending + [Wake(rid, data)]) == DataOf(c.worker.pending) + [data];
  }

  lemma RemoveKeepsFlow(c: Cell, rid: Word, j: nat)
    requires PoolInv(c, rid) && FlowInv(c, rid) && j < |c.req.cancels|
    requires Select(c.worker.queue, TaskOf(rid)) == c.worker.queue && Drop(c.worker.queue, TaskOf(rid)) == []
    ensures FlowInv(DoRemove(c, rid, j), rid)
  {}

  predicate SameFlow(c: Cell, d: Cell) {
    && d.req.batch == c.req.batch && d.req.flow == c.req.flow
    && d.worker.queue == c.worker.queue && d.worker.pending == c.worker.pending
    && (d.worker.run.Some? ==> c.worker.run.Some? && d.worker.run.value.hit == c.worker.run.value.hit)
  }

  lemma TableActsKeepFlow(c: Cell, rid: Word, w: nat, act: Act)
    requires Can(c, rid, w, act)
    requires act.Publish? || act.WakeLookup? || act.CancelLookup? || act.CancelDeduct?
    ensures SameFlow(c, Local(c, rid, w, act))
  {}

  lemma WorkerActsKeepFlow(c: Cell, rid: Word, w: nat, act: Act)
    requires Can(c, rid, w, act)
    requires act.RunBody? || act.NoteStatus? || act.MarkSync? || act.SettleContext?
    ensures SameFlow(c, Local(c, rid, w, act))
  {}

  lemma CallerActsKeepFlow(c: Cell, rid: Word, w: nat, act: Act)
    requires Can(c, rid, w, act)
    requires act.Return? || act.Block? || act.WaitEnds? || act.CallCancel? || act.OwnLookup? || act.AccountCancel?
             || act.Release?
    ensures SameFlow(c, Local(c, rid, w, act))
  {}

  lemma SameFlowKeeps(c: Cell, d: Cell, rid: Word)
    requires SameFlow(c, d)
    ensures FlowInv(c, rid) ==> FlowInv(d, rid)
    ensures Fifo(c) ==> Fifo(d)
  {}

  lemma OthersLeaveFlow(c: Cell, rid: Word, w: nat, act: Act)
    requires Can(c, rid, w, act) && !act.WakePush? && !act.Pop? && !act.CancelRemove?
    ensures SameFlow(c, Local(c, rid, w, act))
  {
    if act.Publish? || act.WakeLookup? || act.CancelLookup? || act.CancelDeduct? {
      TableActsKeepFlow(c, rid, w, act);
    } else if act.RunBody? || act.NoteStatus? || act.MarkSync? || act.SettleContext? {
      WorkerActsKeepFlow(c, rid, w, act);
    } else {
      CallerActsKeepFlow(c, rid, w, act);
    }
  }

  // ----- All of it.

  lemma WorkerActsKeepPool(c: Cell, rid: Word, w: nat, act: Act)
    requires PoolInv(c, rid) && Can(c, rid, w, act)
    requires act.WakePush? || act.Pop? || act.SettleContext?
    ensures PoolInv(Local(c, rid, w, act), rid)
  {
    match act
    case WakePush(i) => PushKeepsPool(c, rid, i);
    case Pop => PopKeepsPool(c, rid);
    case SettleContext => SettleKeepsPool(c, rid);
  }

  lemma CancelActsKeepPool(c: Cell, rid: Word, w: nat, act: Act)
    requires PoolInv(c, rid) && Can(c, rid, w, act) && c.worker == Proj(c.worker, rid)
    requires act.CancelLookup? || act.OwnLookup? || act.CancelRemove? || act.CancelDeduct?
    ensures PoolInv(Local(c, rid, w, act), rid)
  {
    match act
    case CancelLookup => LookupKeepsPool(c, rid);
    case OwnLookup => LookupKeepsPool(c, rid);
    case CancelRemove(j) => ProjectedQueue(c.worker, rid); RemoveKeepsPool(c, rid, j);
    case CancelDeduct(j) => DeductKeepsPool(c, rid, j);
  }

  lemma ActKeepsPool(c: Cell, rid: Word, w: nat, act: Act)
    requires PoolInv(c, rid) && Can(c, rid, w, act) && c.worker == Proj(c.worker, rid)
    ensures PoolInv(Local(c, rid, w, act), rid)
  {
    if act.WakePush? || act.Pop? || act.SettleContext? {
      WorkerActsKeepPool(c, rid, w, act);
    } else if act.CancelLookup? || act.OwnLookup? || act.CancelRemove? || act.CancelDeduct? {
      CancelActsKeepPool(c, rid, w, act);
    } else if act.Publish? {
      PublishKeepsPool(c, rid);
    } else if act.WakeLookup? {
      WakeKeepsPool(c, rid, act.data);
    } else {
      RecordActsKeepPool(c, rid, w, act);
    }
  }

  lemma WorkerActsKeepSync(c: Cell, rid: Word, w: nat, act: Act)
    requires PoolInv(c, rid) && SyncInv(c) && Can(c, rid, w, act)
    requires act.Pop? || act.NoteStatus? || act.MarkSync?
    ensures SyncInv(Local(c, rid, w, act))
  {
    match act
    case Pop => PopKeepsSync(c, rid);
    case NoteStatus => NoteKeepsSync(c);
    case MarkSync => MarkKeepsSync(c, rid);
  }

  lemma CancelActsKeepSync(c: Cell, rid: Word, w: nat, act: Act)
    requires PoolInv(c, rid) && SyncInv(c) && Can(c, rid, w, act)
    requires act.CancelRemove? || act.AccountCancel? || act.Release?
    ensures SyncInv(Local(c, rid, w, act))
  {
    match act
    case CancelRemove(j) => RemoveKeepsSync(c, rid, j);
    case AccountCancel => AccountKeepsSync(c, rid);
    case Release => ReleaseKeepsSync(c, rid);
  }

  lemma ActKeepsSync(c: Cell, rid: Word, w: nat, act: Act)
    requires PoolInv(c, rid) && SyncInv(c) && Can(c, rid, w, act)
    ensures SyncInv(Local(c, rid, w, act))
  {
    if RecordUntouched(act) {
      PoolActsKeepSync(c, rid, w, act);
    } else if act.Pop? || act.NoteStatus? || act.MarkSync? {
      WorkerActsKeepSync(c, rid, w, act);
    } else if act.CancelRemove? || act.AccountCancel? || act.Release? {
      CancelActsKeepSync(c, rid, w, act);
    } else {
      StageActsKeepSync(c, rid, w, act);
    }
  }

  lemma MarkingActsKeepVerdict(c: Cell, rid: Word, w: nat, act: Act)
    requires PoolInv(c, rid) && SyncInv(c) && VerdictInv(c) && Can(c, rid, w, act)
    requires act.NoteStatus? || act.MarkSync? || act.AccountCancel? || act.Release?
    ensures VerdictInv(Local(c, rid, w, act))
  {
    match act
    case NoteStatus => NoteKeepsVerdict(c);
    case MarkSync => MarkKeepsVerdict(c, rid);
    case AccountCancel => AccountKeepsVerdict(c);
    case Release => ReleaseKeepsVerdict(c);
  }

  lemma ActKeepsVerdict(c: Cell, rid: Word, w: nat, act: Act)
    requires PoolInv(c, rid) && SyncInv(c) && VerdictInv(c) && Can(c, rid, w, act)
    ensures VerdictInv(Local(c, rid, w, act))
  {
    if act.NoteStatus? || act.MarkSync? || act.AccountCancel? || act.Release? {
      MarkingActsKeepVerdict(c, rid, w, act);
    } else if act.Return? || act.Block? || act.WaitEnds? || act.CallCancel? || act.OwnLookup? {
      StageActsKeepVerdict(c, rid, w, act);
    } else if act.Publish? || act.WakeLookup? || act.CancelLookup? || act.CancelDeduct? {
      TableActsKeepVerdict(c, rid, w, act);
    } else {
      WorkerActsKeepVerdict(c, rid, w, act);
    }
  }

  lemma RemoveKeepsFifo(c: Cell, rid: Word, j: nat)
    requires Fifo(c) && j < |c.req.cancels|
    ensures Fifo(DoRemove(c, rid, j))
  {}

  lemma ActKeepsFlow(c: Cell, rid: Word, w: nat, act: Act)
    requires PoolInv(c, rid) && FlowInv(c, rid) && Can(c, rid, w, act) && c.worker == Proj(c.worker, rid)
    ensures FlowInv(Local(c, rid, w, act), rid)
  {
    if act.WakePush? {
      PushKeepsFlow(c, rid, act.i);
    } else if act.Pop? {
      PopKeepsFlow(c, rid);
    } else if act.CancelRemove? {
      ProjectedQueue(c.worker, rid);
      RemoveKeepsFlow(c, rid, act.j);
    } else {
      OthersLeaveFlow(c, rid, w, act);
      SameFlowKeeps(c, Local(c, rid, w, act), rid);
    }
  }

  lemma ActKeepsFifo(c: Cell, rid: Word, w: nat, act: Act)
    requires Fifo(c) && Can(c, rid, w, act)
    ensures Fifo(Local(c, rid, w, act))
  {
    if act.WakePush? {
      PushKeepsFifo(c, rid, act.i);
    } else if act.Pop? {
      PopKeepsFifo(c, rid);
    } else if act.CancelRemove? {
      RemoveKeepsFifo(c, rid, act.j);
    } else {
      OthersLeaveFlow(c, rid, w, act);
      SameFlowKeeps(c, Local(c, rid, w, act), rid);
    }
  }

  lemma RunActsKeepResults(c: Cell, rid: Word, w: nat, act: Act)
    requires ResultsInv(c) && Can(c, rid, w, act)
    requires act.Pop? || act.RunBody? || act.NoteStatus? || act.MarkSync? || act.SettleContext?
    ensures ResultsInv(Local(c, rid, w, act))
  {
    match act
    case Pop => PopKeepsResults(c, rid);
    case RunBody(result) => RunKeepsResults(c, result);
    case NoteStatus => NoteKeepsResults(c);
    case MarkSync => MarkKeepsResults(c);
    case SettleContext => SettleKeepsResults(c);
  }

  lemma ActKeepsResults(c: Cell, rid: Word, w: nat, act: Act)
    requires ResultsInv(c) && Can(c, rid, w, act)
    ensures ResultsInv(Local(c, rid, w, act))
  {
    if act.Pop? || act.RunBody? || act.NoteStatus? || act.MarkSync? || act.SettleContext? {
      RunActsKeepResults(c, rid, w, act);
    } else if act.Publish? || act.WakeLookup? || act.WakePush? || act.CancelLookup? || act.CancelRemove?
              || act.CancelDeduct? {
      TableActsLeaveResults(c, rid, w, act);
      SameResultsKeep(c, Local(c, rid, w, act));
    } else {
      CallerActsLeaveResults(c, rid, w, act);
      SameResultsKeep(c, Local(c, rid, w, act));
    }
  }

  lemma ActKeepsInvariant(c: Cell, rid: Word, w: nat, act: Act)
    requires CellInv(c, rid) && Can(c, rid, w, act) && c.worker == Proj(c.worker, rid)
    ensures CellInv(Local(c, rid, w, act), rid)
  {
    ActKeepsPool(c, rid, w, act);
    ActKeepsSync(c, rid, w, act);
    ActKeepsVerdict(c, rid, w, act);
    ActKeepsResults(c, rid, w, act);
    ActKeepsFlow(c, rid, w, act);
    ActKeepsFifo(c, rid, w, act);
  }

  // A projected queue holds tasks of the request only, so removing them all empties it.
  lemma ProjectedQueue(w: Worker, rid: Word)
    requires w == Proj(w, rid)
    ensures Select(w.queue, TaskOf(rid)) == w.queue && Drop(w.queue, TaskOf(rid)) == []
  {
    forall t | t in w.queue ensures t.rid == rid {
      SelectMembers(w.queue, TaskOf(rid), t);
    }
    DropAll(w.queue, TaskOf(rid));
  }

  lemma {:induction false} DropAll<T>(s: seq<T>, p: T -> bool)
    requires forall x | x in s :: p(x)
    ensures Drop(s, p) == []
  {
    if s != [] {
      DropAll(s[1..], p);
    }
  }
}
