# os_transport: a verified model of the request engine

os_transport moves large buffers in chunks over an RDMA-like network card. A send or a recv is
registered as a batch of tasks in a thread pool; a completion from the card wakes the worker that the
request is bound to; the worker takes the task that the completion selects, runs it and settles two
ledgers, the pool's count of pending tasks and the completion record on which the caller waits. Cancel,
timeout and release run at the same time. This project models that engine, the chunked pipeline on top
of it, and three smaller pieces of the repository, and proves what they promise.

`dafny verify dfyconfig.toml` checks everything.

## How the project is laid out

| file | models |
|---|---|
| `Codec.dfy` | request ids, the 60/1/3-bit user data word, what a completion wakes |
| `Numbers.dfy` | machine word sizes, minimum and maximum |
| `Lists.dfy`, `PoolSpec.dfy` | values of the pool and what each critical section does to them |
| `LinkedLists.dfy`, `WorkerThread.dfy` | the linked queue and pending list of a worker, relinked in place |
| `RequestTable.dfy` | the chained hash table of request contexts |
| `Completion.dfy` | the completion record (`task_sync_t`), as a value and as an object |
| `Engine.dfy` | the machine: one step per critical section, any interleaving of submitters, wakers, workers, cancellers and the releaser, for any number of requests and workers |
| `Delivery.dfy` | what a batch becomes when wakeups are consumed |
| `EngineInvariant.dfy`, `EngineSteps.dfy`, `EngineRuns.dfy` | the inductive invariant, its preservation by each act, and its lifting to runs in which requests share workers |
| `EngineTheorems.dfy` | what follows for every state of every run |
| `EngineProgress.dfy` | a measure that bounds how long a request goes on by itself |
| `EngineRounds.dfy` | how a request that has the engine to itself runs through |
| `EngineExamples.dfy` | runs that end in states the documentation does not suggest |
| `Chunks.dfy`, `Tasks.dfy` | splitting a transfer, registering tasks, building work requests |
| `SendPipeline.dfy`, `SendTheorems.dfy` | a send: the engine with the card it posts to |
| `SendExamples.dfy` | for every transfer, a send that runs through, and one that does so although nothing arrived |
| `EndToEndExamples.dfy` | the same for sender and receiver together |
| `EndToEnd.dfy` | a sender and a receiver joined by the announcements on the wire |
| `Inject.dfy` | the fault-injection registry |
| `BatchData.dfy` | the cache file writer and reader of the load tool |
| `LoadBarrier.dfy`, `RateLimiting.dfy` | barrier and token bucket of the load tool |

In the machine the local variables of the threads that work for a request (a waker between its lookup
and its push, a canceller between its three sections, the releasing thread) are part of the request's
record, next to history that no step reads: which wakeups were pushed, what was handed out, what the
bodies returned, what was removed, which statuses were noted. A recv task passes the step in which a send
task notes its status without touching the record.

The engine is proved on the values of `PoolSpec.dfy` and `Completion.dfy`. The objects that the source
relinks and updates in place (`LinkedList`, `WorkerThread`, `RequestTable`, `TaskSync`) are classes
whose methods are proved to have exactly the effect of those values' functions, so a step of the machine
is what one critical section does to the objects.

## What is proved, in short

- Who frees what: in every interleaving the record of a request is claimed at most once, exactly when
  its release was requested and every task is counted, and no step touches it afterwards. Every task is
  in exactly one place of the ledger: completed, canceled, failed, queued, running before its mark, or
  removed but not yet accounted. Exactly the released records leak that have a failed task or lost tasks
  to a cancel other than the releaser's own.
- The pool's count equals queued plus unsettled plus removed-but-undeducted tasks, whatever races, so
  the batch callback is due at most once and only in the settlement that leaves nothing behind.
- Everything of a request sits on the worker its context names; a cancel reaches every queued task and
  every pending wakeup of the request and nothing of another; a wakeup that raced past it is dropped. Until a
  cancel wakeups are consumed in the order they were pushed.
- A batch submitted under an id that is still active adds its tasks to the pool's count, which then takes
  exactly as many settlements more, and keeps the worker and the callback of the first submission.
- Whatever order completions arrive in, with duplicates and strays, each recv task runs at most once and
  with the very immediate it expects; unkeyed tasks run in submission order.
- A send posts a prefix of W0, N0, W1, N1, ...; a chunk is announced only after its write completed; a
  failure-free send never rests except on the card, and then ends with every task run once. It takes
  at most six steps by itself for each completion.
- The bytes of a write may arrive one by one at any time before it completes with success. In every state,
  also after a cancel or a timeout, memory differs from the original only in the chunks written: those whose
  write completed with success hold the source's bytes, the others hold old and new bytes.
- End to end, a recv task that is taken finds the bytes of its chunk in place, and a receiver whose wait
  returns 0 has the whole transfer, with no other byte changed, as far as the sender's writes completed with
  success. A receiver without failed callback or cancel completes all its tasks exactly when all
  announcements have arrived since its recv was published, in any order.
- The wait verdict: 0 only if every task body ran once and returned 0; a send notes exactly what its bodies
  returned and reports the first failure, a recv notes nothing and reports what its wait found; a wait can end
  with success exactly when every task has completed. Whatever is done to a completion record and in whatever
  order, its counts, flags, status and claim are functions of that history.
- The load tool: the bucket conserves tokens exactly and its cap is the most ever asked for; a loaded file
  is one that was written for a compatible request, and every other file gets the error of the first thing
  that is wrong with it. The injector: a point does what it was last set to, as often as its frequency says.

## Where the code differs from its documentation

The model follows the code.

- The README of the repository allows eight chunks (README.md:271, and the comment at
  include/os_transport.h:47). Chunk id 7 is the sentinel of a notify's own completion, so the limit is 7
  (include/os_transport.h:37-38).
- README.md:269 has transfers of up to 2 MiB sent as a single chunk. `register_send_tasks` refuses fewer
  than two chunks (src/os_transport.c:781), so such a send fails; `RegisterSendTasks` shows it. A recv of
  one chunk is accepted.
- The ceiling at src/os_transport.c:487 is computed in 32 bits. Within 2 MiB of 2^32 it wraps to zero
  chunks and the request is refused later, at src/os_transport.c:905; a send has by then read the length
  of chunk 0 from the empty array (src/os_transport.c:1144). `ChunkCountCases` covers every 32-bit length.
- The status of a completion is not looked at. `os_transport_wake_up_task` (src/os_transport.c:1327-1379) wakes
  the request whatever `status` the completion record carries (mock/urma_abi_compat.h:92-103), and its
  documentation (README_EN.md:401-412) does not ask the caller to filter on it. A write that completed with an
  error is announced like any other, and sender and receiver can both return 0 with nothing transferred:
  `SendReturnsZero` and `TransferReturnsZero` have such runs for every transfer. `AnnouncedMeansThereIffClean`,
  `ZeroMeansTransferredIffClean` and `ReceivedMeansThereIffClean` say that the bytes can be relied on if and
  only if the completions reported success, which a caller can test before it makes the call.
- A record is not always freed. A failed task is counted neither as completed nor as canceled
  (src/os_transport.c:331-335), so a request with a failed task never has its record freed
  (`FailedNeverFreed`; `FailedTaskLeaks` is a run). And a cancel by request id without the record
  (src/os_transport.c:1493-1501) removes tasks that nobody accounts: the record leaks just so, and a caller that
  waits without a timeout does not return (`ForeignCancelStrandsWait`; `ForeignCancelStrands` is a run).
  `FreedIffNothingLost` says that there is no third cause.
- A timed wait that blocks and is woken by the clock reports a timeout even if the request completed in
  the meantime (src/os_transport.c:232-236). `WaitSucceedsIffAllCompleted` says exactly when that is
  possible, `CompletedButTimedOut` is a run.
- An announcement that arrives before the recv is published finds no context and is lost
  (src/os_transport_thread_pool.c:725-735): `ReceivedMeansAllArrived`.
- Injection points are unique only for names below 64 characters: `DistinctIff` gives the exact
  condition, `LongNameAddsTwice` a name that is added twice.
- The tokens of the load tool's bucket can fall below zero, exactly under a negative rate:
  `NegativeRateMakesDebt`.

## Assumptions

- Request ids are unique among active requests and are not reused while a wakeup for them may be pending
  (README.md:715-718). `Engine.Idle` is that condition in full: the id has no context, no worker holds
  anything of it, the former request of that id has been released, and no waker and no cancel of it is
  still between two of its sections. What happens to an id that is submitted while active is
  `ResubmissionLedger` and `ResubmissionReachable`.
- While a send is active no completion names its id but those of its own writes. A recv may be looked up
  by any completion; the end-to-end results assume that none but the sender's announcements carries one
  of its immediates, also no completion with an error.
- One thread submits a request, waits for it or cancels it, and releases it; cancels through the record
  name the record's own request. Any number of other cancels by request id may run beside it.
- Memory allocation succeeds. The card completes each posted write at most once, and
  with success only after its data arrived.
- Each buffer of a transfer lies within its address space; the two may belong to different hosts or
  devices. What is said of memory further assumes that they have no byte in common and that nothing else
  writes to them during the transfer.

## Model

| member | source | states |
|---|---|---|
| Codec.UserData | src/os_transport.c:20-27 | the three fields of a packed word read back as they were packed |
| Codec.WordInNumbers | src/os_transport.c:20-27 | as a number the word is the request id plus 2^60 for the last chunk plus 2^61 times the chunk id |
| Codec.EncodeRequestId | src/os_transport.c:437-443 | the transport field fits 60 bits with bits 39..20 zero, and decodes to the id for every id below 2^40 |
| Codec.EncodedInNumbers | src/os_transport.c:437-443 | the upper 20 bits of an id weigh 2^40 in the transport field, the lower 20 bits 1 |
| Codec.DecodeRequestId | src/os_transport.c:445-451 | every decoded id is a valid one |
| Codec.EncodeIsInjective | src/os_transport.c:432-451 | two valid ids have the same encoding only if they are equal |
| Codec.ReencodeIsIdentityIffGapIsZero | src/os_transport.c:437-451 | re-encoding a decoded field gives it back exactly when its gap is zero |
| Codec.UnpackThenPack | include/os_transport.h:40-48 | the 60/1/3 layout covers all 64 bits of every word |
| Codec.OtherRequestSameChunk | src/os_transport.c:1341-1345 | putting another request id into a word keeps its chunk id and type |
| Codec.OtherChunkSameRequest | src/os_transport_urma.c:55-57 | putting another chunk id into a word keeps its request id and type |
| Codec.ReceiveRoundTrip | src/os_transport.c:1341-1359 | an immediate packed with an encoded id wakes the raw id with the word packed from the raw id |
| Completion.NotedKeepsFirstFailure | src/os_transport.c:309-320 | noting statuses one by one keeps the first non-success one |
| Completion.CancelFillsUp | src/os_transport.c:272-306 | a cancel raises completed + canceled by what it removed, up to the total and no further |
| Completion.RecordIsItsHistory | src/os_transport.c:272-358 | after any operations in any order: completed is the number of successful marks, the status the first failure noted, each flag set exactly if an operation that stands for it was done, complete exactly if failed, ended early or accounted, and claimed exactly once released and accounted |
| Completion.SuccessIsHistory | src/os_transport.c:228-259 | a waiter finds success iff every task was marked successful and nothing failed, was canceled or timed out |
| Completion.TaskSync.constructor | src/os_transport.c:70-125 | a fresh record: nothing counted, no flag set |
| Completion.TaskSync.ClaimIfDue | src/os_transport.c:161-185 | claims the free exactly when released, complete, all accounted and not yet claimed |
| Completion.TaskSync.Mark | src/os_transport.c:322-358 | success counts one and completes when all are accounted; failure counts nothing but ends the request; the claim belongs to the same critical section |
| Completion.TaskSync.UpdateUrmaStatus | src/os_transport.c:309-320 | only the first failure is kept |
| Completion.TaskSync.AddCanceledTasks | src/os_transport.c:272-306 | counts removed tasks up to what is still open, sets the flags, completes and claims when due |
| Completion.TaskSync.RequestRelease | src/os_transport.c:1434-1450 | asks for the release, claims if due, and reads the status under the same lock |
| Completion.TaskSync.Check | src/os_transport.c:228-259 | whether the request is complete, and if so whether every task completed without cancel or timeout |
| Completion.TaskSync.TimeOut | src/os_transport.c:232-236 | marks the request as timed out and nothing else |
| Completion.TaskSync.CompleteEarly | src/os_transport.c:1187-1193 | a first chunk that cannot be posted completes the request without counting a task |
| LinkedLists.BuildChain | src/os_transport_thread_pool.c:950-988 | builds a proper chain of new nodes with these values in order |
| LinkedLists.LinkedList.Push | src/os_transport_thread_pool.c:151-169 | appends one value; head, tail and size stay right |
| LinkedLists.LinkedList.Attach | src/os_transport_thread_pool.c:991-1002 | appends a whole chain; head, tail and size stay right |
| LinkedLists.LinkedList.PopHead | src/os_transport_thread_pool.c:268-285 | removes and returns the first value, or reports that there is none |
| LinkedLists.LinkedList.Unlink | src/os_transport_thread_pool.c:206-213 | takes out exactly one node, at the head, in the middle or at the tail |
| LinkedLists.LinkedList.TakeMatch | src/os_transport_thread_pool.c:190-238 | removes exactly the first match and leaves everything else in order; nothing changes without a match |
| LinkedLists.LinkedList.UnlinkAll | src/os_transport_thread_pool.c:1082-1104 | removes exactly the matching nodes, keeps the order of the rest and counts the removed |
| LinkedLists.LinkedList.RemoveAll | src/os_transport_thread_pool.c:303-331 | the same with the size brought up to date |
| LinkedLists.LinkedList.Clear | src/os_transport_thread_pool.c:288-300 | the list is empty |
| LinkedLists.SelectAndDropPartition | src/os_transport_thread_pool.c:1079-1106 | removed and kept elements together are all elements |
| WorkerThread.WorkerThread.AttachBatch | src/os_transport_thread_pool.c:950-1003 | the queue is followed by the batch in order, under one lock |
| WorkerThread.WorkerThread.PushWakeup | src/os_transport_thread_pool.c:736-745 | the object does what the engine's wake push does to the worker |
| WorkerThread.WorkerThread.TakeNext | src/os_transport_thread_pool.c:493-517 | one round of the worker loop does what the engine's pop does: the oldest wakeup is consumed and the task it selects is taken |
| WorkerThread.WorkerThread.CancelRequest | src/os_transport_thread_pool.c:1079-1112 | the object does what the engine's cancel removal does, and reports the tasks removed |
| RequestTable.Bucket.Scan | src/os_transport_thread_pool.c:375-386 | finds the context of an id and its predecessor, exactly if the chain's map has one |
| RequestTable.Bucket.Insert | src/os_transport_thread_pool.c:388-393 | the chain's map gains the new entry |
| RequestTable.Bucket.Remove | src/os_transport_thread_pool.c:395-409 | the chain's map loses the id; the result tells whether it had it |
| RequestTable.StillConsistent | src/os_transport_thread_pool.c:83-86 | changing an id in its own bucket changes the table's map at that id only |
| RequestTable.RequestTable.constructor | src/os_transport_thread_pool.c:83-86 | 1024 empty buckets are the empty map |
| RequestTable.RequestTable.Find | src/os_transport_thread_pool.c:375-386 | agrees with the finite map |
| RequestTable.RequestTable.Insert | src/os_transport_thread_pool.c:388-393 | the map gains the id, which must be absent; every id stays in its own bucket once |
| RequestTable.RequestTable.Remove | src/os_transport_thread_pool.c:395-409 | the map loses the id and nothing else |
| RequestTable.RequestTable.LookupWorker | src/os_transport_thread_pool.c:725-735 | the worker of the request's context, if there is one |
| RequestTable.RequestTable.Publish | src/os_transport_thread_pool.c:1005-1035 | an existing context keeps its worker and its batch callback and counts the new tasks, otherwise one is inserted with the given ones |
| RequestTable.RequestTable.Settle | src/os_transport_thread_pool.c:428-451 | one task less; the last one removes the context and makes the batch callback due |
| RequestTable.RequestTable.Deduct | src/os_transport_thread_pool.c:1116-1129 | the removed tasks are deducted; the context goes away with the last one and no callback is due |
| PoolSpec.PublishAddsSettlements | src/os_transport_thread_pool.c:1005-1035 | publishing n tasks makes a context take exactly n settlements more than were open, and the last of them makes the callback of the first submission due |
| PoolSpec.DeductSavesSettlements | src/os_transport_thread_pool.c:1116-1129 | deducting k removed tasks leaves the context that k settlements would leave, without a callback |
| Delivery.ReplayConserves | src/os_transport_thread_pool.c:190-237 | whatever wakeups are consumed, every task is either handed out or still there, once |
| Delivery.UnkeyedIsPrefix | src/os_transport_thread_pool.c:190-221 | without keys n wakeups hand out the first n tasks in order |
| Delivery.KeyedRest | src/os_transport_thread_pool.c:186-221 | with distinct keys exactly the tasks whose data arrived are gone, in any arrival order |
| Delivery.KeyedHits | src/os_transport_thread_pool.c:199-217 | a keyed task is handed out with its own data, and only after that data arrived |
| Delivery.KeyedOnce | src/os_transport_thread_pool.c:190-216 | and never twice |
| Delivery.AllArrivedAllRun | src/os_transport_thread_pool.c:482-516 | once all distinct keys arrived every task was handed out exactly once |
| EngineSteps.ActKeepsInvariant | src/os_transport_thread_pool.c:411-517 | every critical section of a request keeps its whole invariant: ledgers, binding, verdict and delivery |
| EngineRuns.ActCommutesWithProj | src/os_transport_thread_pool.c:482-516 | a step on a shared worker does to the request's share what it would do to that share alone |
| EngineRuns.ActLeavesOthers | src/os_transport_thread_pool.c:1079-1106 | no step of one request changes another request's share of any worker |
| EngineRuns.StepKeepsInv | src/os_transport_thread_pool.c:716-746 | every step of the machine keeps the invariant of every request |
| EngineRuns.RunsKeepInv | src/os_transport_thread_pool.c:471-520 | the invariant holds in every state of every run |
| EngineTheorems.AttachGoesBehind | src/os_transport_thread_pool.c:991-1002 | the tasks of a batch go behind everything queued on the worker it is attached to, in order; no other queue changes |
| EngineTheorems.KeptAsSubmitted | src/os_transport_thread_pool.c:950-1035 | in every later state a request has the worker, tasks, kind and callback it was submitted with, until its id is submitted anew |
| EngineTheorems.RecordLedger | src/os_transport.c:156-165 | completed + canceled + failed + queued + running before the mark + removed but unaccounted = total, in every reachable state |
| EngineTheorems.FreedOnceAndUnused | src/os_transport.c:161-185 | the record is claimed at most once, if and only if released and fully counted, and then no task is queued, unmarked or removed unaccounted |
| EngineTheorems.FreedIffNothingLost | src/os_transport.c:322-358 | a released record with no task queued or unmarked is freed iff no task failed and what was removed was removed by the releaser's own cancel |
| EngineTheorems.OwnCancelIsCounted | src/os_transport.c:1420-1427 | of all cancels of a request canceled_tasks counts exactly what the caller's own one removed, nothing if its lookup found no context |
| EngineTheorems.FailedNeverFreed | src/os_transport.c:331-335 | a request with a failed task never has its record freed |
| EngineTheorems.ForeignCancelStrandsWait | src/os_transport.c:1493-1501 | once another cancel has removed tasks, for good: the wait cannot succeed, and without a failure the request never completes |
| EngineTheorems.WaitReturnsIff | src/os_transport.c:228-259 | while the caller waits, the request is complete iff every task completed, one failed, or the first chunk could not be posted |
| EngineTheorems.NeverTouchedAfterFree | src/os_transport.c:272-358 | no enabled act that reads or writes the record finds it already claimed, nor does a pop then hand out a task |
| EngineTheorems.ContextLedger | src/os_transport_thread_pool.c:1005-1035 | pending_count = queued + unsettled + removed but undeducted, and the context exists exactly while that is positive |
| EngineTheorems.BatchCallbackOnce | src/os_transport_thread_pool.c:428-446 | at most one batch callback becomes due, the one submitted with the batch, with nothing of the request left; it has been due when an uncanceled batch is through |
| EngineTheorems.SubmittedCallbackFires | src/os_transport_thread_pool.c:1005-1035 | the only callback that becomes due is the one its caller submitted, until the id is submitted anew |
| EngineTheorems.OnlyLastSettlementFires | src/os_transport_thread_pool.c:428-446 | a step that makes it due is the settlement of an executed task with none queued and none removed but undeducted |
| EngineTheorems.BoundToOneWorker | src/os_transport_thread_pool.c:716-746 | every queued or running task, pending wakeup and waker of a request with a context is at the worker the context names |
| EngineTheorems.CancelReachesAll | src/os_transport_thread_pool.c:1079-1112 | when a cancel has been at its worker no worker queues a task of the request or holds a wakeup for it, and the cancel reports exactly the tasks that were queued |
| EngineTheorems.CancelLeavesOthers | src/os_transport_thread_pool.c:1079-1112 | the tasks and wakeups of every other request stay on every worker, in order, as does the task a worker runs |
| EngineTheorems.CancelIsFinal | src/os_transport_thread_pool.c:1079-1106 | from then on nothing of the request is queued until the id is submitted anew |
| EngineTheorems.LateWakeupIsDropped | src/os_transport_thread_pool.c:500-517 | a wakeup consumed after a cancel leaves its list and changes nothing else in the whole state |
| EngineTheorems.HandedOutByReplay | src/os_transport_thread_pool.c:482-516 | however requests interleave on a worker, each is handed the tasks its own consumed wakeups select |
| EngineTheorems.UnkeyedRunInOrder | src/os_transport_thread_pool.c:190-221 | the unkeyed tasks run are the prefix of the batch of length min(wakeups, batch) |
| EngineTheorems.KeyedRunOnArrival | src/os_transport.c:654-674 | every keyed task runs at most once and sees data equal to its own expected immediate |
| EngineTheorems.StrayWakeupChangesNoTask | src/os_transport_thread_pool.c:500-517 | a wakeup that fits no queued task of its request only leaves its list |
| EngineTheorems.AllArrivedAllCompleted | src/os_transport.c:706-765 | after all distinct immediates were consumed and no body failed, completed_tasks = total_tasks |
| EngineTheorems.ResultsAreExact | src/os_transport.c:677-765 | every task handed out runs its body once; failed and completed count the bodies that returned non-zero and zero; a send's statuses are what its bodies returned, in order; a recv notes none |
| EngineTheorems.WaitResultIsExact | src/os_transport.c:1414-1465 | 0 is returned only if every body ran exactly once and returned 0 with nothing canceled; the status is the first failure noted by then; a noted failure never goes with 0; a recv has status 0 and returns what its wait found |
| EngineTheorems.WaitSucceedsIffAllCompleted | src/os_transport.c:213-260 | a wait can end with success iff every task completed, and one that finds that when it starts can end in no other way; one that did not block fails only for a failed task or an unposted first chunk; only one that blocked can time out |
| EngineTheorems.ReleasedLeavesNothingQueued | src/os_transport.c:1420-1427 | once the caller has accounted for its cancel, or its wait succeeded, no worker queues a task of the request |
| EngineTheorems.FlagsAreExact | src/os_transport.c:228-306 | request_canceled is set iff a task failed or the caller gave up and accounted for it, request_timed_out iff its wait ran out of time |
| EngineTheorems.WakeupsInOrder | src/os_transport_thread_pool.c:493-517 | until a cancel, the wakeups pushed for a request are those consumed and then those pending, in that order |
| EngineTheorems.CancellersNeverStuck | src/os_transport_thread_pool.c:1132-1165 | a canceller can always go on to its next section |
| EngineTheorems.ReleaserNeverStuck | src/os_transport.c:1414-1465 | so can the thread that submits, waits and releases, up to a cancel of its own that has to return |
| EngineTheorems.LookupsFindHome | src/os_transport_thread_pool.c:716-746 | a completion and a cancel may look an id up at any time; with a context they go on to the worker the request is bound to, without one they change nothing |
| EngineTheorems.IdIsFreeIff | src/os_transport_thread_pool.c:1005-1035 | an id that was submitted before is free for another submission iff its request is released, nobody is between two sections for it and no worker holds a task or a wakeup of it |
| EngineTheorems.WorkerNeverStuck | src/os_transport_thread_pool.c:481-517 | in every state that satisfies the invariant, so in every reachable one, a worker that holds a wakeup or a task has an enabled next step |
| EngineTheorems.ResubmissionLedger | src/os_transport_thread_pool.c:1005-1035 | after an active id is submitted again its context counts the tasks queued on every worker, the one running and those removed but undeducted, on the first worker and with the first callback |
| EngineTheorems.ResubmissionReachable | src/os_transport_thread_pool.c:1005-1017 | after an active id is submitted again, a cancel reaches all its tasks iff the newly selected worker is the bound one |
| EngineExamples.FailedTaskLeaks | src/os_transport.c:331-335 | for every id and status, a run in which the only task fails: released, nothing left in the pool, record never freed |
| EngineExamples.ForeignCancelStrands | src/os_transport.c:1493-1501 | for every id, a run in which another cancel removes the task: the caller blocks without a timeout, nothing failed, the request is not complete |
| EngineExamples.CompletedButTimedOut | src/os_transport.c:229-236 | for every id, a run in which every task completed and the wait returns a timeout |
| EngineProgress.InternalActsShrinkWork | src/os_transport_thread_pool.c:471-520 | every step of a waker or of the worker shrinks what the request still has to do |
| EngineProgress.WorkIsBounded | src/os_transport_thread_pool.c:471-520 | in every run a request takes at most as many such steps as it had work and six for each completion that looks it up, and when they are used up it is quiet |
| EngineProgress.NotQuietCanGoOn | src/os_transport_thread_pool.c:481-517 | a request that is not quiet, or what is first at its worker, can take such a step |
| Chunks.ChunkCountCases | src/os_transport.c:478-496 | for every 32-bit length: accepted with 1 to 7 chunks, rejected, or wrapped to zero chunks, with the exact ranges |
| Chunks.CommonSplitChunks | src/os_transport.c:478-517 | fails exactly above seven chunks and otherwise fills the array with the chunks at multiples of 2 MiB |
| Chunks.SplitTiles | src/os_transport.c:510-515 | the chunks cover the transfer without gap or overlap |
| Chunks.SplitPartitions | src/os_transport.c:510-515 | each chunk starts where the one before ends, all but the last have 2 MiB, the last is not empty and reaches the end |
| Chunks.CopiesCovered | mock/urma_mock_backend.c:53-57 | after k chunk copies memory holds exactly the bytes they cover and is otherwise unchanged |
| Chunks.ChunkCopied | mock/urma_mock_backend.c:53-57 | each copied chunk has the source's original bytes |
| Chunks.WholeTransferCopied | mock/urma_mock_backend.c:53-57 | copying all chunks makes dst equal src over len bytes and changes nothing else |
| Tasks.BuildWorkRequest | src/os_transport_urma.c:7-59 | a write carries the user context as given and needs a chunk; a notify carries the immediate |
| Tasks.NotifyRequest | src/os_transport_urma.c:50-59 | the local completion of any notify wakes nobody |
| Tasks.PackReadsBack | src/os_transport.c:720-723 | a callback that takes a packed word apart finds the request id, chunk type and chunk number that were packed |
| Tasks.RegisterSendTasks | src/os_transport.c:767-812 | refuses fewer than two chunks; task i announces chunk i and writes chunk i + 1, the last only announces |
| Tasks.WriteCompletionWakes | src/os_transport.c:1353-1359 | the completion of any chunk's write wakes the sending request |
| Tasks.RegisterRecvTasks | src/os_transport.c:837-872 | task i expects the packed word of chunk i, the last one typed as last chunk |
| Tasks.RecvKeysDiffer | src/os_transport.c:863-870 | different chunks of a recv have different keys |
| Tasks.AnnouncementDecodes | src/os_transport.c:1341-1359 | an announced immediate decodes to the receiver's request and key |
| Tasks.AnnouncementMatchesReceiver | src/os_transport.c:799-812 | what task i of the sender announces decodes, for every 40-bit client key, to the key of task i of the receiver and of no other task |
| Tasks.LastChunkIsTyped | src/os_transport.c:799-863 | exactly the last of n chunks is typed LAST_CHUNK: in the announcement, in what the receiver decodes from it, in what the recv task expects and in the context of its write, each with the chunk's number |
| SendPipeline.BodyStopsAtFailure | src/os_transport.c:630-652 | a body posts in order up to the first post that fails and returns the very status of that one |
| SendPipeline.WriteCtxReadsBack | src/os_transport.c:578-580 | the context of every write names the sending request, its chunk and whether it is the last |
| SendPipeline.BodyOnTheWire | src/os_transport.c:630-652 | task i, with the argument it was registered with, posts the announcement of chunk i and then the write of chunk i + 1, up to the first post that fails |
| SendPipeline.CompletionOnTheWire | src/os_transport.c:1353-1359 | the completion of a write wakes the request, that of an announcement wakes nobody |
| SendPipeline.BodyFindsWriteDone | src/os_transport.c:677-704 | when the body of task i runs, the write of chunk i is the last request posted and has completed |
| SendPipeline.CompletionIsNext | src/os_transport.c:1353-1376 | writes complete one after the other, and before any cancel the completion finds the request's context |
| SendPipeline.LandKeepsNic | mock/urma_mock_backend.c:53-57 | a byte of a posted write may arrive at any time until it completes with success: it is the source's original byte and lands within its chunk |
| SendPipeline.StepHolds | src/os_transport.c:1097-1197 | every step of a send, of other requests and of cancels keeps the pipeline's invariant |
| SendPipeline.RunHolds | src/os_transport.c:1097-1197 | the invariant holds in every state of every run of a send |
| SendTheorems.DataBeforeAnnouncement | src/os_transport.c:630-652 | in every run the requests posted are a prefix of W0, N0, W1, N1, ... and every chunk announced has completed its write |
| SendTheorems.PostedAfterCompletion | src/os_transport.c:630-652 | the write had completed before the step that announces it |
| SendTheorems.AnnouncedBytesAreThere | src/os_transport.c:630-652 | a chunk is announced only after its write completed, and if that completion reported success the destination holds the source's bytes of it |
| SendTheorems.OnlyChunksChange | mock/urma_mock_backend.c:53-57 | in every state memory has the source's bytes in the chunks that completed with success, those or the old ones in other chunks written, and is unchanged elsewhere; with no write under way and all completed with success it is what copying the completed chunks gives |
| SendTheorems.SuccessMeansAllSent | src/os_transport.c:1414-1465 | a wait that returns 0 means all n writes and n notifies were posted and all writes completed; if all completed with success the destination equals the source and nothing else changed |
| SendTheorems.RestsOnlyOnTheCard | src/os_transport.c:1165-1196 | a send without failure or cancel that rests waits for the write it posted last, or has run every task once and completed all of them |
| SendTheorems.UnpostedFails | src/os_transport.c:1187-1193 | a send whose first chunk was not posted does not block in its wait, which can only fail |
| SendTheorems.AnythingMayFail | src/os_transport.c:630-652 | in every state the first post, any post of a body and any write may fail |
| SendTheorems.SendSettles | src/os_transport.c:630-652 | over a whole run a send is carried on at most six times per completed write, so at most 6n times, and when these are used up it is quiet |
| SendTheorems.SendCanGoOn | src/os_transport_thread_pool.c:481-517 | as long as a send is not quiet, it or what is first at its worker has an enabled step |
| SendExamples.SendReturnsZero | src/os_transport.c:1327-1379 | for every transfer and memory, a send that returns 0 after all writes completed with success, and one that returns 0 after all completed with an error, with everything announced and memory untouched |
| SendExamples.AnnouncedMeansThereIffClean | src/os_transport.c:1353-1376 | a byte that was different before is there whenever its chunk is announced, iff the completion of the chunk's write reported success |
| SendExamples.ZeroMeansTransferredIffClean | src/os_transport.c:1353-1376 | a send that returned 0 has transferred it, iff all completions reported success |
| EndToEnd.AnnouncementIsBacked | src/os_transport.c:1341-1359 | an announcement that arrives carries the key of its chunk and of no other |
| EndToEnd.StepHolds | src/os_transport.c:1327-1379 | every step of either side, arrivals in any order, repeated or stray, keeps: a key is on its way in the receiver only if it was announced and arrived after the recv was published, and until a cancel every one that did is |
| EndToEnd.RunHolds | src/os_transport.c:1327-1379 | so in every state of every joint run |
| EndToEnd.TakenTaskHasItsData | src/os_transport.c:654-674 | a recv task that is taken is taken with its own expected immediate, which carries the request id, the chunk number and LAST_CHUNK exactly for the last chunk, after its chunk's write completed; its bytes are already at the destination if that completion reported success |
| EndToEnd.ReceivedMeansTransferred | src/os_transport.c:1414-1465 | when the receiver's wait returns 0 every write of the sender has completed; if all did with success the destination equals the source over len bytes and nothing else changed |
| EndToEnd.AllArrivedMeansReceived | src/os_transport.c:1327-1379 | once every announcement arrived after the recv was published, in any order and with duplicates and strays, a receiver at rest without failed callback or cancel has completed_tasks = total_tasks |
| EndToEnd.ReceivedMeansAllArrived | src/os_transport_thread_pool.c:725-735 | a receiver that completed all tasks had every announcement arrive after its recv was published |
| EndToEnd.AnnouncementCanArrive | src/os_transport.c:1327-1379 | every announcement on the wire can arrive, and if the recv has a context it leaves a waker with the key of its chunk for the worker the recv is bound to |
| EndToEnd.StrayCanArrive | src/os_transport.c:1327-1379 | a completion that names the recv and carries none of its immediates can arrive at any time |
| EndToEnd.ReceiverCanGoOn | src/os_transport_thread_pool.c:481-517 | as long as a recv is not quiet, it or what is first at its worker has an enabled step |
| EndToEndExamples.TransferReturnsZero | src/os_transport.c:1327-1379 | for every transfer and memory, a joint run in which sender and receiver return 0 after all writes completed with success, and one in which both return 0 after all completed with an error, with memory untouched |
| EndToEndExamples.ReceivedMeansThereIffClean | src/os_transport.c:1353-1376 | a byte that was different before is there once the receiver's wait returned 0, iff all completions of the sender reported success |
| Inject.DistinctIff | src/os_transport_inject.c:170-183 | an operation keeps point names distinct, except exactly when a name of 64 or more characters is configured whose truncation is taken |
| Inject.NamesStayDistinct | src/os_transport_inject.c:170-183 | over any operations on names below 64 characters, point names stay distinct |
| Inject.LongNameAddsTwice | src/os_transport_inject.c:170-183 | a name of 64 characters configured twice makes two equal points, and executing it does nothing |
| Inject.OneOpOnPoint | src/os_transport_inject.c:388-398 | an operation that does not reset a limited point takes at most one trigger off it, exactly when it is executed, enabled and not exhausted |
| Inject.BudgetIsExact | src/os_transport_inject.c:378-428 | with c triggers left exactly the first c attempts fire, whatever else happens to this or other points |
| Inject.FiresUpToLimit | src/os_transport_inject.c:306-319 | since its last reset a point has fired exactly min(L, executes while enabled) times, where L is n - 100 after a frequency of n above 100 and the limit it had after all points were cleared |
| Inject.ActsAsLastSet | src/os_transport_inject.c:159-286 | until it is set again or cleared, a point is enabled and does what it was last set to: that error code, that sleep, that message cut after 127 characters |
| Inject.NewPointFires | src/os_transport_inject.c:177-196 | a point added by being set fires on every execution until a frequency is set or it is cleared |
| Inject.FiresByPercentage | src/os_transport_inject.c:399-406 | at a percentage an enabled point fires exactly on a die below it, but at 0 on every die |
| Inject.ClearedIsSilent | src/os_transport_inject.c:325-363 | a cleared point leaves no record until it is set again |
| Inject.FiringIsRecorded | src/os_transport_inject.c:414-424 | an execution that fires adds one record with the time, the point's name and what it did, an error with its code |
| Inject.ReportedAfterFiring | tools/datasystem_test/mlcd_inject_cli.c:217-229 | an execution that fired is reported within the threshold as long as fewer than 64 others fired since |
| Inject.ReportedOnlyIfFired | tools/datasystem_test/mlcd_inject_cli.c:217-229 | what is reported is a record of that point no older than the threshold |
| Inject.InjectRegistry.FindPoint | src/os_transport_inject.c:170-175 | the first point of that name, if any |
| Inject.InjectRegistry.FindOrAdd | src/os_transport_inject.c:167-183 | finds the point or adds a blank one with the truncated name; fails exactly when there are 32 others |
| Inject.InjectRegistry.SetSleep | src/os_transport_inject.c:159-201 | does to the table what the operation does to its value; succeeds exactly if the point exists or fits |
| Inject.InjectRegistry.SetReturnError | src/os_transport_inject.c:203-245 | the same for an error |
| Inject.InjectRegistry.SetPrint | src/os_transport_inject.c:247-286 | the same for a message |
| Inject.InjectRegistry.SetFrequency | src/os_transport_inject.c:288-323 | up to 100 a percentage, above it a limit with a full count; fails exactly for an unknown point |
| Inject.InjectRegistry.Clear | src/os_transport_inject.c:325-343 | disables the point and keeps its count |
| Inject.InjectRegistry.ClearAll | src/os_transport_inject.c:345-363 | disables every point and refills its count |
| Inject.InjectRegistry.Decide | src/os_transport_inject.c:389-406 | the 32-bit subtraction and restore spend one trigger if there is one and otherwise change nothing |
| Inject.InjectRegistry.Append | src/os_transport_inject.c:414-424 | the ring with its tail goes on holding the last up to 64 records of the log |
| Inject.InjectRegistry.Execute | src/os_transport_inject.c:365-453 | a point that fires adds one record and spends one trigger, and the caller sleeps, returns the error or prints as the point says; otherwise nothing happens |
| Inject.InjectRegistry.Verify | tools/datasystem_test/mlcd_inject_cli.c:217-229 | reports a trigger exactly if one of the last 64 records of the point is recent enough (an unused slot reads as a record without a name) |
| BatchData.NumberOfEncoded | tools/datasystem_test/pipeline_rh2d_batch_data.h:78-90 | a number read back is the number written |
| BatchData.EncodedOfNumber | tools/datasystem_test/pipeline_rh2d_batch_data.h:78-90 | the bytes a number was read from are its encoding |
| BatchData.Output.WriteHeader | tools/datasystem_test/pipeline_rh2d_batch_data.h:92-102 | appends magic, version, byte order, count and signature |
| BatchData.Save | tools/datasystem_test/pipeline_rh2d_batch_data.h:133-164 | the file is the header followed by every record in order |
| BatchData.CompatibleWhateverTheCount | tools/datasystem_test/pipeline_rh2d_batch_data.h:66-76 | signatures are compatible iff the same non-empty configuration follows their first semicolon, whatever precedes it |
| BatchData.Input.ReadHeader | tools/datasystem_test/pipeline_rh2d_batch_data.h:104-132 | parses the header, with each of its three errors |
| BatchData.Input.LoadRecord | tools/datasystem_test/pipeline_rh2d_batch_data.h:166-179 | parses one record, or fails on a short file or a broken limit |
| BatchData.Load | tools/datasystem_test/pipeline_rh2d_batch_data.h:181-203 | the parsed records, or the first error |
| BatchData.RecordsIff | tools/datasystem_test/pipeline_rh2d_batch_data.h:166-203 | reading n records gives d exactly on the bytes of d, each within the limits, followed by anything |
| BatchData.LoadIff | tools/datasystem_test/pipeline_rh2d_batch_data.h:104-203 | a load succeeds with d exactly on a header for at least n records under a compatible signature followed by the records of d |
| BatchData.LoadInvertsSave | tools/datasystem_test/pipeline_rh2d_batch_data.h:133-203 | loading k records from what was saved gives the first k, or exactly the error due: too many asked for, long or incompatible signature, first record beyond a limit |
| BatchData.HeaderErrors | tools/datasystem_test/pipeline_rh2d_batch_data.h:104-132 | for every file: fewer than 32 bytes or another magic is a bad header; then another version or byte order, too few records or a signature above 4096 bytes is bad metadata; then a short or incompatible one is a bad signature; nothing else is refused |
| BatchData.RecordAt | tools/datasystem_test/pipeline_rh2d_batch_data.h:166-179 | for every bytes: the lengths of key and value, eight bytes each, then key and value; refused exactly if short, or with a key above 1024 bytes or a value above the limit |
| BatchData.RecordErrors | tools/datasystem_test/pipeline_rh2d_batch_data.h:166-203 | index i is reported iff exactly i records within the limits stand first, i below the number asked for |
| LoadBarrier.Barrier.constructor | tools/datasystem_test/pipeline_h2d.cpp:870-871 | all arrivals open, generation 0, not stopped |
| LoadBarrier.Barrier.Arrive | tools/datasystem_test/pipeline_h2d.cpp:873-883 | the last arrival opens the next generation and returns, others block unless stopped |
| LoadBarrier.Barrier.Resume | tools/datasystem_test/pipeline_h2d.cpp:882-884 | a blocked Wait that may go on returns whether the barrier was stopped |
| LoadBarrier.Barrier.Stop | tools/datasystem_test/pipeline_h2d.cpp:886-894 | the barrier is stopped and otherwise unchanged |
| LoadBarrier.StepKeepsInv | tools/datasystem_test/pipeline_h2d.cpp:873-894 | every interleaved step keeps: blocked threads are counted exactly and no thread is out of step |
| LoadBarrier.BarrierHolds | tools/datasystem_test/pipeline_h2d.cpp:873-894 | nobody gets its k-th false before everybody called Wait k times, and counts of false never differ by more than one, in every interleaving with Stop |
| LoadBarrier.NeverAllStuck | tools/datasystem_test/pipeline_h2d.cpp:873-894 | some thread can always go on, and after a stop every blocked one can |
| LoadBarrier.StopIsFinal | tools/datasystem_test/pipeline_h2d.cpp:886-894 | after a stop no Wait returns false, and none that begins then blocks |
| RateLimiting.RateLimiter.constructor | tools/datasystem_test/pipeline_h2d.cpp:907-909 | starts full |
| RateLimiting.RateLimiter.RefillTokens | tools/datasystem_test/pipeline_h2d.cpp:941-947 | adds what the rate yields in the whole microseconds elapsed, up to the cap |
| RateLimiting.RateLimiter.SetRate | tools/datasystem_test/pipeline_h2d.cpp:934-938 | refills at the old rate before the new one counts |
| RateLimiting.RateLimiter.Round | tools/datasystem_test/pipeline_h2d.cpp:917-930 | one round under the mutex, whatever other threads did before it, is the operation Try of the machine: the tokens are taken or the nap is what the deficit takes |
| RateLimiting.RateLimiter.Acquire | tools/datasystem_test/pipeline_h2d.cpp:911-932 | a thread that nobody disturbs gets its tokens at once or after exactly one nap, also when it asks for more than the cap |
| RateLimiting.NapSuffices | tools/datasystem_test/pipeline_h2d.cpp:926-930 | after the nap the missing tokens are there |
| RateLimiting.NapIsLeast | tools/datasystem_test/pipeline_h2d.cpp:926-930 | a microsecond less would not have been enough, unless the nap is one microsecond |
| RateLimiting.PassesIff | tools/datasystem_test/pipeline_h2d.cpp:916-925 | a round gets its tokens iff the rate is not positive or what is there and what was earned since suffices, however small the burst was |
| RateLimiting.TokensConserved | tools/datasystem_test/pipeline_h2d.cpp:911-947 | over any interleaved rounds and rate changes: granted + left over + lost at the cap = had + earned, exactly |
| RateLimiting.CapIsExact | tools/datasystem_test/pipeline_h2d.cpp:916-916 | after any operations the cap is the larger of what it was and the most any round asked for |
| RateLimiting.StaysFull | tools/datasystem_test/pipeline_h2d.cpp:916-947 | tokens stay within 0 and the cap, which never shrinks, as long as no rate is negative |
| RateLimiting.NegativeRateMakesDebt | tools/datasystem_test/pipeline_h2d.cpp:934-947 | a rate change keeps tokens within 0 and the cap at every later time iff the old rate is not negative |
| RateLimiting.RunWithinBudget | tools/datasystem_test/pipeline_h2d.cpp:905-947 | over a whole run at a constant positive rate no more than burst + rate * time is granted |
| RateLimiting.IntervalWithinBudget | tools/datasystem_test/pipeline_h2d.cpp:905-947 | in any interval no more is granted than the larger of the cap and the most one round asks for, plus rate * length, whatever happened before |

## Left out

- The URMA library, posting and polling calls, registration of completion queues, and the mock's resource constructors: a post succeeds or fails, a posted write completes at most once.
- Threads, mutexes and condition variables: a critical section is one atomic step; a signal is left out because a step is enabled by the condition it signals.
- Clocks: a timeout is a choice that a blocked wait may take; the load tool's clock readings are parameters.
- Logging, parameter validation, initialisation, shutdown and thread naming.
- `select_best_worker`: the worker a batch is attached to is arbitrary.
- `thread_pool_submit_task` for single tasks: to the engine it is a batch of one.
- `thread_pool_destroy`, which drops queued tasks (src/os_transport_thread_pool.c:617-632), and the exit of the worker loop.
- Failures of memory allocation, including the ignored one of a request context (src/os_transport_thread_pool.c:1069-1072), and the recv that returns no handle (src/os_transport.c:1309-1320).
- The receive-queue prefill and repost (src/os_transport.c:1199-1242).
- Fault injection as it is executed inside the send and recv paths: an injected failure is a post or callback that fails; an injected success that skips the post is not modelled.
- Shared-memory set-up, spin lock, version and sequence numbers of the injector, and the sleeping and printing themselves; the die of a percentage is a parameter.
- File-system errors, the temporary file and rename of `Save`, the directory scan of `LoadCompatible`, `HashSignature` and `Generate`.
- 32-bit overflow of list sizes, task counts and barrier generations; the wrap-around that matters (chunk count, trigger count) is modelled.
- BatchData.Encoded: numbers are stored least significant byte first; the source writes the byte order of its host.
- Floating point in the token bucket: tokens and rates are reals.
- LinkedLists.LinkedList.Unlink: the source unlinks in three places; the model has one method for it, and one list class for both kinds of list. The scan counts on one predicate instead of two comparisons.
- RequestTable.Bucket.Scan: a slot of the table is an object instead of a bare head pointer, so that a pointer to a pointer becomes a predecessor.
- RequestTable.RequestTable.Settle: the callback itself is called after the unlock; the model returns which one is due.
- LoadBarrier.Barrier.Arrive: `Wait` is cut in two at its condition variable, with `Resume` as the rest.
- RateLimiting.RateLimiter.Acquire: the method is the case without contention; with contention a thread's rounds are `Round`, interleaved with others' as the operations of `Run`, and how many of them it needs is not bounded.
- EndToEnd.RunHolds: the recv is registered before the send starts.
