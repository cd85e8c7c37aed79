/** Runs that show what the engine does not promise: each ends in a state that a reader of the
    documentation would not expect. One worker and one send task under the id rid are enough. */
module EngineExamples {
  import opened Codec
  import opened Lists
  import opened PoolSpec
  import opened Engine
  import opened EngineRounds
  import opened EngineTheorems

  ghost predicate Reachable(s: State) {
    exists states, steps :: IsRun(states, steps) && states[|steps|] == s
  }

  lemma StartIsReachable(s: State)
    requires s == Start(1)
    ensures Reachable(s)
  {
    var states, steps: seq<Step> := [s], [];
    assert IsRun(states, steps) && states[|steps|] == s;
  }

  lemma OneMoreStep(s: State, step: Step)
    requires Reachable(s) && Enabled(s, step)
    ensures Reachable(Apply(s, step))
  {
    var states, steps :| IsRun(states, steps) && states[|steps|] == s;
    Longer(states, steps, step);
    assert IsRun(states + [Apply(s, step)], steps + [step]);
    assert (states + [Apply(s, step)])[|steps + [step]|] == Apply(s, step);
  }

  lemma Longer(states: seq<State>, steps: seq<Step>, step: Step)
    requires IsRun(states, steps) && Enabled(states[|steps|], step)
    ensures IsRun(states + [Apply(states[|steps|], step)], steps + [step])
  {
    var more, moreSteps := states + [Apply(states[|steps|], step)], steps + [step];
    forall i | 0 <= i < |moreSteps|
      ensures Enabled(more[i], moreSteps[i]) && more[i + 1] == Apply(more[i], moreSteps[i])
    {
      if i < |steps| {
        assert Enabled(states[i], steps[i]);
      }
    }
  }

  lemma Go(rid: Word, c: Cell, act: Act, d: Cell)
    requires Reachable(Only(rid, c)) && Can(c, rid, 0, act) && Local(c, rid, 0, act) == d
    ensures Reachable(Only(rid, d))
  {
    ActOnOnly(rid, c, act);
    OneMoreStep(Only(rid, c), Do(rid, 0, act));
  }

  // ----- The request up to the point where the runs part.

  function TheTask(rid: Word): Task {
    Task(rid, 0, None)
  }

  // Submitted and not yet published.
  function FreshCell(rid: Word): Cell {
    Cell(NewReq(0, [TheTask(rid)], true, None), None, Worker([TheTask(rid)], [], None))
  }

  // The caller holds the handle, nothing else has happened.
  function HeldCell(rid: Word): Cell {
    FreshCell(rid).(req := FreshCell(rid).req.(published := true, stage := Holding), ctx := Some(Context(0, 1, None)))
  }

  // A worker has taken the task and got this far with it; log, record and history are those of req.
  function AtWork(rid: Word, req: Req, phase: Phase): Cell {
    Cell(req, Some(Context(0, 1, None)), Worker([], [], Some(Running(Hit(TheTask(rid), rid), phase))))
  }

  function TakenReq(rid: Word, stage: Stage): Req {
    HeldCell(rid).req.(stage := stage, flow := Flow([rid], [rid], [Hit(TheTask(rid), rid)], None, []))
  }

  // The pool is through with the request.
  function Through(req: Req): Cell {
    Cell(req, None, Worker([], [], None))
  }

  lemma Attached(rid: Word)
    ensures Reachable(Only(rid, FreshCell(rid)))
  {
    var start, step := Start(1), Attach(rid, 0, [TheTask(rid)], true, None);
    StartIsReachable(start);
    assert Enabled(start, step);
    OneMoreStep(start, step);
    assert [] + [TheTask(rid)] == [TheTask(rid)];
    assert Apply(start, step).workers == [Worker([TheTask(rid)], [], None)];
    assert Apply(start, step) == Only(rid, FreshCell(rid));
  }

  lemma Held(rid: Word)
    ensures Reachable(Only(rid, HeldCell(rid)))
  {
    var c := FreshCell(rid);
    var d := c.(req := c.req.(published := true), ctx := Some(Context(0, 1, None)));
    Attached(rid);
    Go(rid, c, Publish, d);
    Go(rid, d, Return(false), HeldCell(rid));
  }

  function WokenCell(rid: Word): Cell {
    var c := HeldCell(rid);
    c.(req := c.req.(flow := c.req.flow.(pushed := [rid])), worker := c.worker.(pending := [Wake(rid, rid)]))
  }

  lemma Woken(rid: Word)
    ensures Reachable(Only(rid, WokenCell(rid)))
  {
    var c := HeldCell(rid);
    var found := c.(req := c.req.(wakers := [Waker(0, rid)]));
    Held(rid);
    Go(rid, c, WakeLookup(rid), found);
    Go(rid, found, WakePush(0), WokenCell(rid));
  }

  lemma TaskTaken(rid: Word)
    ensures Reachable(Only(rid, AtWork(rid, TakenReq(rid, Holding), Popped)))
  {
    var woken := WokenCell(rid);
    Woken(rid);
    assert TakeFirst([TheTask(rid)], Matching(rid, rid)) == Taken(Some(TheTask(rid)), []);
    Go(rid, woken, Pop, AtWork(rid, TakenReq(rid, Holding), Popped));
  }

  // A body that ends with this status, up to the settlement, in a stage in which the caller has not
  // asked for the release.
  function NotedReq(rid: Word, stage: Stage, status: int): Req {
    var req := TakenReq(rid, stage);
    req.(sync := req.sync.Noted(status), tally := req.tally.(results := [status], statuses := [status]))
  }

  function MarkedReq(rid: Word, stage: Stage, status: int): Req {
    var req := NotedReq(rid, stage, status);
    req.(sync := req.sync.Marked(status == 0), tally := req.tally.(failed := if status == 0 then 0 else 1))
  }

  function DoneReq(rid: Word, stage: Stage, status: int): Req {
    MarkedReq(rid, stage, status).(tally := MarkedReq(rid, stage, status).tally.(fired := [None]))
  }

  function BodyCell(rid: Word, stage: Stage, status: int): Cell {
    DoRunBody(AtWork(rid, TakenReq(rid, stage), Popped), status)
  }

  lemma BodyRuns(rid: Word, stage: Stage, status: int)
    requires Reachable(Only(rid, AtWork(rid, TakenReq(rid, stage), Popped)))
    ensures Reachable(Only(rid, AtWork(rid, NotedReq(rid, stage, status), Noted(status))))
  {
    Go(rid, AtWork(rid, TakenReq(rid, stage), Popped), RunBody(status), BodyCell(rid, stage, status));
    Go(rid, BodyCell(rid, stage, status), NoteStatus,
       AtWork(rid, NotedReq(rid, stage, status), Noted(status)));
  }

  lemma BodyIsThrough(rid: Word, stage: Stage, status: int)
    requires Reachable(Only(rid, AtWork(rid, TakenReq(rid, stage), Popped))) && (stage.Holding? || stage.Waiting?)
    ensures Reachable(Only(rid, Through(DoneReq(rid, stage, status))))
  {
    BodyRuns(rid, stage, status);
    Go(rid, AtWork(rid, NotedReq(rid, stage, status), Noted(status)), MarkSync,
       AtWork(rid, MarkedReq(rid, stage, status), Marked));
    Go(rid, AtWork(rid, MarkedReq(rid, stage, status), Marked), SettleContext, Through(DoneReq(rid, stage, status)));
  }

  function EndedCell(req: Req, why: Verdict): Cell {
    DoWaitEnds(Through(req), why)
  }

  function AccountedCell(req: Req, why: Verdict): Cell
    requires !why.Success?
  {
    DoAccount(DoOwnLookup(EndedCell(req, why)))
  }

  // The releaser's way from the end of its wait to the release, when the pool is through.
  lemma Accounted(rid: Word, req: Req, why: Verdict)
    requires Reachable(Only(rid, Through(req))) && MayEnd(req, why) && !why.Success?
    ensures Reachable(Only(rid, AccountedCell(req, why)))
  {
    var ended := EndedCell(req, why);
    Go(rid, Through(req), WaitEnds(why), ended);
    Go(rid, ended, OwnLookup, DoOwnLookup(ended));
    Go(rid, DoOwnLookup(ended), AccountCancel, AccountedCell(req, why));
  }

  lemma Released(rid: Word, req: Req, why: Verdict)
    requires Reachable(Only(rid, Through(req))) && MayEnd(req, why) && !why.Success?
    ensures Reachable(Only(rid, DoRelease(AccountedCell(req, why))))
  {
    Accounted(rid, req, why);
    Go(rid, AccountedCell(req, why), Release, DoRelease(AccountedCell(req, why)));
  }

  lemma NothingLeft(rid: Word, c: Cell)
    requires c.worker == Worker([], [], None)
    ensures NothingQueued(Only(rid, c), rid) && NothingUnmarked(Only(rid, c), rid)
  {}

  // ----- The three runs.

  // The only task fails, the caller waits and releases, nothing of the request is left in the pool:
  // and its record is never freed.
  lemma FailedTaskLeaks(rid: Word, status: int) returns (s: State)
    requires status != 0
    ensures Reachable(s) && rid in s.reqs && rid !in s.table && NothingQueued(s, rid) && NothingUnmarked(s, rid)
    ensures var req := s.reqs[rid];
            && req.stage.Released? && req.stage.returned.Failed? && req.stage.status == status
            && req.flow.removed == [] && req.tally.failed == 1 && req.tally.frees == 0
  {
    var req := DoneReq(rid, Holding, status);
    TaskTaken(rid);
    BodyIsThrough(rid, Holding, status);
    Released(rid, req, Failed);
    NothingLeft(rid, DoRelease(AccountedCell(req, Failed)));
    s := Only(rid, DoRelease(AccountedCell(req, Failed)));
  }

  // The caller waits without a timeout and another cancel by request id removes the task. Nothing has
  // failed and nothing will ever complete the request.
  lemma ForeignCancelStrands(rid: Word) returns (s: State)
    ensures Reachable(s) && rid in s.reqs && NothingQueued(s, rid) && NothingUnmarked(s, rid)
    ensures var req := s.reqs[rid];
            && req.stage.Waiting? && req.flow.removed != [] && req.tally.failed == 0 && !req.tally.early
            && !req.sync.requestCompleted
  {
    var c := HeldCell(rid);
    var waiting := c.(req := c.req.(stage := Waiting));
    var looking := waiting.(req := waiting.req.(cancels := [Canceller(0, Looked)]));
    Held(rid);
    Go(rid, c, Block, waiting);
    Go(rid, waiting, CancelLookup, looking);
    Go(rid, looking, CancelRemove(0), DoRemove(looking, rid, 0));
    TaskRemoved(rid);
    NothingLeft(rid, DoRemove(looking, rid, 0));
    s := Only(rid, DoRemove(looking, rid, 0));
  }

  lemma TaskRemoved(rid: Word)
    ensures Select([TheTask(rid)], TaskOf(rid)) == [TheTask(rid)] && Drop([TheTask(rid)], TaskOf(rid)) == []
    ensures Drop([], WakeOf(rid)) == []
  {
    assert [TheTask(rid)][1..] == [];
  }

  // The only task completes while the caller is blocked, and the wait reports a timeout all the same.
  lemma CompletedButTimedOut(rid: Word) returns (s: State)
    ensures Reachable(s) && rid in s.reqs
    ensures var req := s.reqs[rid];
            && req.stage.Released? && req.stage.returned.TimedOut? && req.tally.failed == 0
            && req.sync.completed == req.sync.total && req.tally.frees == 1
  {
    var req := DoneReq(rid, Waiting, 0);
    TaskTaken(rid);
    Go(rid, AtWork(rid, TakenReq(rid, Holding), Popped), Block, AtWork(rid, TakenReq(rid, Waiting), Popped));
    BodyIsThrough(rid, Waiting, 0);
    Released(rid, req, TimedOut);
    s := Only(rid, DoRelease(AccountedCell(req, TimedOut)));
  }
}
