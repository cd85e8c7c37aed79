/** The critical sections of a worker's mutex, on the real linked lists, do what the steps of
    the engine do to the worker's value. */
module WorkerThread {
  import opened Codec
  import opened Lists
  import opened LinkedLists
  import opened PoolSpec
  import opened Engine

  class WorkerThread {
    const queue: LinkedList<Task>
    const pending: LinkedList<Wake>

    ghost predicate Valid()
      reads this, queue, queue.nodes, pending, pending.nodes
    {
      && queue.Valid() && pending.Valid() && queue as object != pending
      && (forall i, j | 0 <= i < |queue.nodes| && 0 <= j < |pending.nodes| ::
            queue.nodes[i] as object != pending.nodes[j])
      && (forall i | 0 <= i < |queue.nodes| :: queue.nodes[i] as object != queue && queue.nodes[i] as object != pending)
      && (forall j | 0 <= j < |pending.nodes| ::
            pending.nodes[j] as object != queue && pending.nodes[j] as object != pending)
    }

    // The worker as the engine sees it while it runs `run`.
    ghost function View(run: Option<Running>): Worker
      reads queue, pending
    {
      Worker(queue.contents, pending.contents, run)
    }

    constructor ()
      ensures Valid() && View(None) == Worker([], [], None)
    {
      queue := new LinkedList();
      pending := new LinkedList();
    }

    // build_batch_nodes and attach_nodes_to_worker
    method AttachBatch(batch: seq<Task>)
      requires Valid() && batch != []
      modifies queue, queue.nodes
      ensures Valid() && queue.contents == old(queue.contents) + batch
    {
      var first, last, chain := BuildChain(batch);
      queue.Attach(first, last, |batch|, chain, batch);
    }

    method PushWakeup(rid: Word, data: Word)
      requires Valid()
      modifies pending, pending.nodes
      ensures Valid() && pending.contents == old(pending.contents) + [Wake(rid, data)]
      ensures forall c: Cell, i: nat
                | i < |c.req.wakers| && c.worker == old(View(None)) && c.req.wakers[i].data == data ::
                DoWakePush(c, rid, i).worker == View(None)
    {
      pending.Push(Wake(rid, data));
    }

    // One round of worker_routine up to the unlock: consume a wakeup, look for its task.
    method TakeNext() returns (wake: Option<Wake>, task: Option<Task>)
      requires Valid()
      modifies queue, queue.nodes, pending
      ensures Valid()
      ensures old(pending.contents) == [] ==> wake.None? && task.None? && View(None) == old(View(None))
      ensures old(pending.contents) != [] ==>
                && wake == Some(old(pending.contents)[0])
                && forall c: Cell | c.worker == old(View(None)) ::
                     DoPop(c, wake.value.rid).worker
                     == View(if task.None? then None else Some(Running(Hit(task.value, wake.value.data), Popped)))
    {
      wake := pending.PopHead();
      task := None;
      if wake.Some? {
        task := queue.TakeMatch(Matching(wake.value.rid, wake.value.data));
      }
    }

    // cancel_in_worker_queue
    method CancelRequest(rid: Word) returns (removed: nat)
      requires Valid()
      modifies queue, queue.nodes, pending, pending.nodes
      ensures Valid()
      ensures forall c: Cell, j: nat | j < |c.req.cancels| && c.worker == old(View(None)) ::
                DoRemove(c, rid, j).worker == View(None)
                && DoRemove(c, rid, j).req.cancels[j].phase == Removed(removed)
    {
      removed := queue.RemoveAll(TaskOf(rid));
      var wakeups := pending.RemoveAll(WakeOf(rid));
    }
  }
}
