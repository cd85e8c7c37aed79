/** The completion record shared by all tasks of one request. */
module Completion {
  import opened Numbers

  // Everything the record's mutex protects. Status 0 is URMA_SUCCESS.
  datatype Sync = Sync(
    total: nat, completed: nat, canceled: nat,
    requestCompleted: bool, requestCanceled: bool, requestTimedOut: bool,
    releaseRequested: bool, freeing: bool, urma: int)
  {
    predicate AllAccounted() {
      total == 0 || completed + canceled >= total
    }

    predicate ShouldFree() {
      releaseRequested && requestCompleted && AllAccounted() && !freeing
    }

    // What every critical section ends with: claim the free if it is due.
    function Claim(): Sync {
      if ShouldFree() then this.(freeing := true) else this
    }

    function CompleteIfAccounted(): Sync {
      if AllAccounted() then this.(requestCompleted := true) else this
    }

    function Marked(success: bool): Sync {
      (if success then this.(completed := completed + 1).CompleteIfAccounted()
       else this.(requestCanceled := true, requestCompleted := true)).Claim()
    }

    function Noted(status: int): Sync {
      if status != 0 && urma == 0 then this.(urma := status) else this
    }

    // Counts tasks removed by a cancel, but never more than are still open.
    function CanceledMore(n: nat, timedOut: bool): Sync {
      var open := if completed + canceled < total then total - (completed + canceled) else 0;
      this.(requestCanceled := true, requestTimedOut := requestTimedOut || timedOut,
            canceled := canceled + if n > open then open else n).CompleteIfAccounted().Claim()
    }

    function ReleaseAsked(): Sync {
      this.(releaseRequested := true).Claim()
    }

    // What a waiter finds when the request is complete.
    predicate Succeeded() {
      completed == total && !requestCanceled && !requestTimedOut
    }
  }

  function Fresh(total: nat): Sync {
    Sync(total, 0, 0, false, false, false, false, false, 0)
  }

  function FirstFailure(statuses: seq<int>): int {
    if statuses == [] then 0 else if statuses[0] != 0 then statuses[0] else FirstFailure(statuses[1..])
  }

  // Noting statuses one after the other keeps exactly the first failure.
  lemma {:induction false} NotedKeepsFirstFailure(statuses: seq<int>, status: int, s: Sync)
    requires s.urma == FirstFailure(statuses)
    ensures s.Noted(status).urma == FirstFailure(statuses + [status])
  {
    if statuses == [] {
    } else {
      assert (statuses + [status])[1..] == statuses[1..] + [status];
      if statuses[0] == 0 {
        NotedKeepsFirstFailure(statuses[1..], status, s);
      }
    }
  }

  // However many tasks a cancel reports: it raises what is accounted for up to the total and no further.
  lemma CancelFillsUp(s: Sync, n: nat, timedOut: bool)
    ensures var accounted, after := s.completed + s.canceled, s.CanceledMore(n, timedOut);
            && after.completed == s.completed
            && after.completed + after.canceled == Max(accounted, Min(s.total, accounted + n))
  {}

  // ----- A record and everything that was done to it, in the order its mutex was taken.

  datatype Op = Mark(success: bool) | Note(status: int) | Cancel(n: nat, timedOut: bool) | AskRelease | TimeOut | Early

  function After(s: Sync, op: Op): Sync {
    match op
    case Mark(success) => s.Marked(success)
    case Note(status) => s.Noted(status)
    case Cancel(n, timedOut) => s.CanceledMore(n, timedOut)
    case AskRelease => s.ReleaseAsked()
    case TimeOut => s.(requestTimedOut := true)
    case Early => s.(requestCompleted := true)
  }

  function AfterAll(total: nat, ops: seq<Op>): Sync {
    if ops == [] then Fresh(total) else After(AfterAll(total, ops[..|ops| - 1]), ops[|ops| - 1])
  }

  function Successes(ops: seq<Op>): nat {
    if ops == [] then 0 else Successes(ops[..|ops| - 1]) + if ops[|ops| - 1] == Mark(true) then 1 else 0
  }

  function NotedIn(ops: seq<Op>): seq<int> {
    if ops == [] then []
    else NotedIn(ops[..|ops| - 1]) + if ops[|ops| - 1].Note? then [ops[|ops| - 1].status] else []
  }

  predicate Canceled(ops: seq<Op>) {
    exists op :: op in ops && op.Cancel?
  }

  predicate CanceledInTime(ops: seq<Op>) {
    forall op | op in ops && op.Cancel? :: !op.timedOut
  }

  // Counts and status are those of the marks and notes.
  predicate Counted(s: Sync, total: nat, ops: seq<Op>) {
    && s.total == total && s.completed == Successes(ops) && s.urma == FirstFailure(NotedIn(ops))
    && s.canceled <= total && (s.canceled > 0 ==> Canceled(ops))
  }

  // Each flag tells whether one of the operations that stand for it was done.
  predicate Flagged(s: Sync, ops: seq<Op>) {
    && (s.requestCanceled <==> Mark(false) in ops || Canceled(ops))
    && (s.requestTimedOut <==> TimeOut in ops || !CanceledInTime(ops))
    && (s.releaseRequested <==> AskRelease in ops)
  }

  lemma MoreOps(ops: seq<Op>, op: Op)
    ensures forall o :: o in ops + [op] <==> o in ops || o == op
    ensures Canceled(ops + [op]) <==> Canceled(ops) || op.Cancel?
    ensures CanceledInTime(ops + [op]) <==> CanceledInTime(ops) && (op.Cancel? ==> !op.timedOut)
  {
    assert op in ops + [op];
    if Canceled(ops) {
      var o :| o in ops && o.Cancel?;
      assert o in ops + [op];
    }
  }

  lemma OneMoreOp(ops: seq<Op>, op: Op)
    ensures Successes(ops + [op]) == Successes(ops) + if op == Mark(true) then 1 else 0
    ensures NotedIn(ops + [op]) == if op.Note? then NotedIn(ops) + [op.status] else NotedIn(ops)
  {
    assert (ops + [op])[..|ops|] == ops;
    assert NotedIn(ops) + [] == NotedIn(ops);
  }

  lemma CountedOn(s: Sync, total: nat, ops: seq<Op>, op: Op)
    requires Counted(s, total, ops)
    ensures Counted(After(s, op), total, ops + [op])
  {
    MoreOps(ops, op);
    OneMoreOp(ops, op);
    if op.Note? {
      NotedKeepsFirstFailure(NotedIn(ops), op.status, s);
    }
  }

  lemma FlaggedOn(s: Sync, ops: seq<Op>, op: Op)
    requires Flagged(s, ops)
    ensures Flagged(After(s, op), ops + [op])
  {
    MoreOps(ops, op);
  }

  lemma NothingDone(s: Sync, total: nat, ops: seq<Op>)
    requires Counted(s, total, ops) && total > 0 && s.completed + s.canceled >= total
    ensures Mark(true) in ops || Canceled(ops)
  {
    if s.canceled == 0 {
      SomeSuccess(ops);
    }
  }

  lemma {:induction false} SomeSuccess(ops: seq<Op>)
    ensures Successes(ops) > 0 ==> Mark(true) in ops
  {
    if ops != [] {
      SomeSuccess(ops[..|ops| - 1]);
    }
  }

  // What the operations so far come to.
  datatype Summary = Summary(failed: bool, early: bool, counted: bool, asked: bool)

  function Summed(ops: seq<Op>): Summary {
    Summary(Mark(false) in ops, Early in ops, Mark(true) in ops || Canceled(ops), AskRelease in ops)
  }

  lemma OneMoreSummed(ops: seq<Op>, op: Op)
    ensures var before := Summed(ops);
            Summed(ops + [op]) == Summary(before.failed || op == Mark(false), before.early || op == Early,
                                          before.counted || op == Mark(true) || op.Cancel?,
                                          before.asked || op == AskRelease)
  {
    MoreOps(ops, op);
  }

  // Complete are a request that failed, also early, and one whose tasks are all accounted for. The record
  // is claimed only when it is complete and released, and one with tasks once those are accounted for and
  // it is released, in whatever order.
  predicate Closed(s: Sync, total: nat, sum: Summary) {
    && (s.requestCompleted <==> sum.failed || sum.early || (sum.counted && s.completed + s.canceled >= total))
    && (s.freeing ==> s.requestCompleted && sum.asked)
    && (total > 0 ==> (s.freeing <==> sum.asked && s.completed + s.canceled >= total))
  }

  lemma MarkCloses(s: Sync, success: bool)
    ensures var after := s.Marked(success);
            && after.total == s.total && after.canceled == s.canceled
            && after.completed == s.completed + (if success then 1 else 0)
            && (after.requestCompleted <==>
                  s.requestCompleted || !success || after.completed + after.canceled >= s.total)
            && (after.freeing <==>
                  s.freeing || (s.releaseRequested && after.requestCompleted && after.AllAccounted()))
  {}

  lemma CancelCloses(s: Sync, n: nat, timedOut: bool)
    ensures var after := s.CanceledMore(n, timedOut);
            && after.total == s.total && after.completed + after.canceled >= s.completed + s.canceled
            && (after.requestCompleted <==> s.requestCompleted || after.completed + after.canceled >= s.total)
            && (after.freeing <==>
                  s.freeing || (s.releaseRequested && after.requestCompleted && after.AllAccounted()))
  {}

  lemma ClosedStep(s: Sync, total: nat, sum: Summary, op: Op, after: Summary)
    requires s.total == total && (s.releaseRequested <==> sum.asked) && Closed(s, total, sum)
    requires total > 0 && s.completed + s.canceled >= total ==> sum.counted
    requires after == Summary(sum.failed || op == Mark(false), sum.early || op == Early,
                              sum.counted || op == Mark(true) || op.Cancel?, sum.asked || op == AskRelease)
    ensures Closed(After(s, op), total, after)
  {
    match op
    case Mark(success) => MarkCloses(s, success);
    case Cancel(n, timedOut) => CancelCloses(s, n, timedOut);
    case _ =>
  }

  lemma ClosedOn(s: Sync, total: nat, ops: seq<Op>, op: Op)
    requires Counted(s, total, ops) && Flagged(s, ops) && Closed(s, total, Summed(ops))
    ensures Closed(After(s, op), total, Summed(ops + [op]))
  {
    OneMoreSummed(ops, op);
    if total > 0 && s.completed + s.canceled >= total {
      NothingDone(s, total, ops);
    }
    ClosedStep(s, total, Summed(ops), op, Summed(ops + [op]));
  }

  lemma {:induction false} RecordIsItsHistory(total: nat, ops: seq<Op>)
    ensures var s := AfterAll(total, ops); Counted(s, total, ops) && Flagged(s, ops) && Closed(s, total, Summed(ops))
  {
    if ops != [] {
      var before, op := ops[..|ops| - 1], ops[|ops| - 1];
      RecordIsItsHistory(total, before);
      assert ops == before + [op];
      CountedOn(AfterAll(total, before), total, before, op);
      FlaggedOn(AfterAll(total, before), before, op);
      ClosedOn(AfterAll(total, before), total, before, op);
    }
  }

  // A waiter finds success exactly if every task was marked as such and nothing failed, was canceled or
  // timed out.
  lemma SuccessIsHistory(total: nat, ops: seq<Op>)
    ensures AfterAll(total, ops).Succeeded() <==>
              Successes(ops) == total && Mark(false) !in ops && !Canceled(ops) && TimeOut !in ops
  {
    RecordIsItsHistory(total, ops);
  }

  /** The record itself. A method is one critical section; `freed` tells whether it claimed
      the record, which its caller then frees. */
  class TaskSync {
    var totalTasks: nat
    var completedTasks: nat
    var canceledTasks: nat
    var requestCompleted: bool
    var requestCanceled: bool
    var requestTimedOut: bool
    var releaseRequested: bool
    var freeing: bool
    var urmaStatus: int

    function State(): Sync
      reads this
    {
      Sync(totalTasks, completedTasks, canceledTasks, requestCompleted, requestCanceled, requestTimedOut,
           releaseRequested, freeing, urmaStatus)
    }

    constructor (total: nat)
      ensures State() == Fresh(total)
    {
      totalTasks := total;
      completedTasks, canceledTasks, urmaStatus := 0, 0, 0;
      requestCompleted, requestCanceled, requestTimedOut := false, false, false;
      releaseRequested, freeing := false, false;
    }

    method ClaimIfDue() returns (freed: bool)
      modifies this`freeing
      ensures State() == old(State()).Claim()
      ensures freed <==> freeing && !old(freeing)
    {
      freed := State().ShouldFree();
      if freed {
        freeing := true;
      }
    }

    // mark_task_group_completed
    method Mark(taskSuccess: bool) returns (freed: bool)
      modifies this
      ensures State() == old(State()).Marked(taskSuccess)
      ensures freed <==> freeing && !old(freeing)
    {
      if !taskSuccess {
        requestCanceled := true;
        requestCompleted := true;
      } else {
        completedTasks := completedTasks + 1;
        if State().AllAccounted() {
          requestCompleted := true;
        }
      }
      freed := ClaimIfDue();
    }

    // update_urma_status
    method UpdateUrmaStatus(status: int)
      modifies this
      ensures State() == old(State()).Noted(status)
    {
      if status != 0 {
        if urmaStatus == 0 {
          urmaStatus := status;
        }
      }
    }

    // What a wait does under the mutex: nothing yet while the request is incomplete, otherwise the verdict.
    method Check() returns (done: bool, success: bool)
      ensures done == State().requestCompleted && (done ==> success == State().Succeeded())
    {
      done := requestCompleted;
      success := completedTasks == totalTasks && !requestCanceled && !requestTimedOut;
    }

    method TimeOut()
      modifies this`requestTimedOut
      ensures State() == old(State()).(requestTimedOut := true)
    {
      requestTimedOut := true;
    }

    // A first chunk that could not be posted ends the request at once.
    method CompleteEarly()
      modifies this`requestCompleted
      ensures State() == old(State()).(requestCompleted := true)
    {
      requestCompleted := true;
    }

    // task_sync_add_canceled_tasks
    method AddCanceledTasks(canceled: nat, timedOut: bool) returns (freed: bool)
      modifies this
      ensures State() == old(State()).CanceledMore(canceled, timedOut)
      ensures freed <==> freeing && !old(freeing)
    {
      requestCanceled := true;
      if timedOut {
        requestTimedOut := true;
      }
      var accounted := completedTasks + canceledTasks;
      if accounted < totalTasks {
        var remain := totalTasks - accounted;
        canceledTasks := canceledTasks + if canceled > remain then remain else canceled;
      }
      if State().AllAccounted() {
        requestCompleted := true;
      }
      freed := ClaimIfDue();
    }

    // The closing section of wait_and_free_sync_common and os_transport_cancel_tasks.
    method RequestRelease() returns (freed: bool, savedStatus: int)
      modifies this
      ensures State() == old(State()).ReleaseAsked()
      ensures freed <==> freeing && !old(freeing)
      ensures savedStatus == old(urmaStatus)
    {
      releaseRequested := true;
      freed := ClaimIfDue();
      savedStatus := urmaStatus;
    }
  }
}
