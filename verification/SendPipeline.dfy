/** A send: the engine together with the network card it posts to.

    Write completions drive the request through its tasks, and a task posts the announcement of
    one chunk before the write of the next, so data always goes before its announcement. */
module SendPipeline {
  import opened Codec
  import opened Lists
  import opened Numbers
  import opened PoolSpec
  import opened Completion
  import opened Chunks
  import opened Tasks
  import Engine
  import opened Delivery
  import opened EngineInvariant
  import opened EngineRuns

  // What is sent: the chunks of one transfer, under the two request ids.
  datatype Plan = Plan(serverKey: u64, clientKey: u64, route: Route, src: nat, dst: nat, len: nat) {
    predicate Valid() {
      ValidRequestId(serverKey) && ValidRequestId(clientKey) && GoodBuffers(src, dst, len) && CHUNK_SIZE < len
    }

    function Rid(): Word {
      Word(serverKey)
    }

    function Chunks(): (chunks: seq<Chunk>)
      requires Valid()
      ensures 2 <= |chunks| <= MAX_CHUNK_NUM
    {
      ChunkCountCases(len);
      Split(src, dst, len)
    }

    function N(): nat
      requires Valid()
    {
      |Chunks()|
    }

    // The buffers have no byte in common. Only what is said of memory depends on it.
    predicate Apart() {
      Separate(route, src, dst, len)
    }

    // Where the byte of the transfer that belongs at `at` comes from.
    function Source(at: int): Addr {
      Addr(route.from, src + (at - dst))
    }
  }

  // A work request by what it is for: the data of a chunk, or its announcement to the peer.
  datatype Post = Write(chunk: nat) | Notify(chunk: nat)

  // What was posted, in order; which chunks' write completions were delivered, in order, and which of
  // them reported success; memory, and at which addresses of the destination bytes have landed.
  datatype Nic = Nic(posted: seq<Post>, delivered: seq<nat>, clean: set<nat>, mem: Memory, landed: set<int>)

  datatype State = State(engine: Engine.State, nic: Nic)

  datatype Step =
    | Other(step: Engine.Step)                                // anything else the engine does
    | First(w: nat, posted: bool)                             // the caller writes chunk 0 and returns
    | Land(k: nat, at: int)                                   // a byte of a posted write arrives
    | Completed(w: nat, k: nat, clean: bool)                  // a local completion is delivered
    | Body(w: nat, notifyResult: int, writeResult: int)       // a worker runs the body of a send task

  // W0, N0, W1, N1, ..., W(n-1), N(n-1)
  function Script(k: nat): Post {
    if k % 2 == 0 then Write(k / 2) else Notify(k / 2)
  }

  // What the body of task i posts, given how its posts would end: announce chunk i, write the next.
  function BodyPosts(n: nat, i: nat, notifyResult: int, writeResult: int): (seq<Post>, int) {
    if notifyResult != 0 then ([], notifyResult)
    else if i + 1 >= n then ([Notify(i)], 0)
    else if writeResult != 0 then ([Notify(i)], writeResult)
    else ([Notify(i), Write(i + 1)], 0)
  }

  // A body makes its posts in order up to the first that fails, and the status of that one is its own:
  // the first failure among the results it got to see.
  lemma BodyStopsAtFailure(n: nat, i: nat, notifyResult: int, writeResult: int)
    requires i < n
    ensures var (posts, status) := BodyPosts(n, i, notifyResult, writeResult);
            var results := if i + 1 < n then [notifyResult, writeResult] else [notifyResult];
            && status == FirstFailure(results) && |posts| <= |results|
            && (forall k | 0 <= k < |posts| :: results[k] == 0)
            && (|posts| < |results| <==> status != 0) && (|posts| < |results| ==> results[|posts|] == status)
  {
    assert FirstFailure([]) == 0 && [writeResult][1..] == [] && [notifyResult][1..] == [];
    assert FirstFailure([writeResult]) == writeResult;
    assert [notifyResult, writeResult][1..] == [writeResult];
  }

  // ----- The same on the wire.

  function WriteCtx(p: Plan, i: nat): u64
    requires p.Valid() && i < p.N()
  {
    Pack(Fields(p.serverKey, i, TypeOf(i, p.N())))
  }

  // The context of every write tells the request, the chunk, and whether it is the last one.
  lemma WriteCtxReadsBack(p: Plan, i: nat)
    requires p.Valid() && i < p.N()
    ensures RequestIdOf(WriteCtx(p, i)) == p.serverKey && ChunkIdOf(WriteCtx(p, i)) as int == i
    ensures ChunkTypeOf(WriteCtx(p, i)) == 1 <==> i == p.N() - 1
  {
    ChunkReadsBack(p.N(), p.serverKey, i);
  }

  function Wire(p: Plan, post: Post): WorkRequest
    requires p.Valid() && post.chunk < p.N()
  {
    match post
    case Write(i) => WriteChunk(WriteCtx(p, i), i)
    case Notify(i) =>
      NotifyRequest(Pack(Fields(p.serverKey, i + 1, TypeOf(i + 1, p.N()))),
                    Pack(Fields(EncodeRequestId(p.clientKey), i, TypeOf(i, p.N()))))
  }

  // What task i was registered with is what goes on the wire.
  lemma ArgumentOnTheWire(p: Plan, i: nat)
    requires p.Valid() && i < p.N()
    ensures var arg := SendArgAt(p.N(), p.serverKey, EncodeRequestId(p.clientKey), i);
            && Wire(p, Notify(i)) == NotifyRequest(Pack(arg.server), Pack(arg.client))
            && (i + 1 < p.N() ==>
                  arg.chunk == Some(i + 1) && Wire(p, Write(i + 1)) == WriteChunk(Pack(arg.server), i + 1))
            && (i + 1 == p.N() ==> arg.chunk == None)
  {}

  // Task i, with the argument it was registered with, posts exactly these requests.
  lemma BodyOnTheWire(p: Plan, i: nat, notifyResult: int, writeResult: int)
    requires p.Valid() && i < p.N()
    ensures var (posts, status) := BodyPosts(p.N(), i, notifyResult, writeResult);
            var arg := SendArgAt(p.N(), p.serverKey, EncodeRequestId(p.clientKey), i);
            var out := SendBody(arg, notifyResult, writeResult);
            && out.status == status && |out.requests| == |posts|
            && forall k | 0 <= k < |posts| :: posts[k].chunk < p.N() && out.requests[k] == Wire(p, posts[k])
  {
    ArgumentOnTheWire(p, i);
    if notifyResult != 0 {
    } else if i + 1 >= p.N() {
      assert BodyPosts(p.N(), i, notifyResult, writeResult).0 == [Notify(i)];
    } else if writeResult != 0 {
      assert BodyPosts(p.N(), i, notifyResult, writeResult).0 == [Notify(i)];
    } else {
      assert BodyPosts(p.N(), i, notifyResult, writeResult).0 == [Notify(i), Write(i + 1)];
    }
  }

  // The completion of a write wakes the request; that of an announcement is ignored.
  lemma CompletionOnTheWire(p: Plan, post: Post)
    requires p.Valid() && post.chunk < p.N()
    ensures OnLocal(Wire(p, post).userCtx)
            == if post.Write? then WakeUp(p.Rid(), Word(WriteCtx(p, post.chunk))) else Ignored
  {
    if post.Write? {
      WriteCompletionWakes(p.N(), p.serverKey, post.chunk);
    }
  }

  // ----- Steps.

  // The write with number k among the posts is still under way.
  predicate UnderWay(p: Plan, nic: Nic, k: nat)
    requires p.Valid()
  {
    k < |nic.posted| && nic.posted[k].Write? && nic.posted[k].chunk < p.N() && nic.posted[k].chunk !in nic.delivered
  }

  // Bytes of a write may land until it completes with success, if it ever does.
  predicate MayLand(p: Plan, nic: Nic, k: nat)
    requires p.Valid()
  {
    k < |nic.posted| && nic.posted[k].Write? && nic.posted[k].chunk < p.N() && nic.posted[k].chunk !in nic.clean
  }

  predicate AllLanded(nic: Nic, c: Chunk) {
    forall at | c.dst <= at < c.dst + c.len :: at in nic.landed
  }

  // Nothing but the completions of its own writes looks up a send's id. A write that completes with
  // success has arrived; of one that completes with an error nothing is known.
  predicate Enabled(p: Plan, s: State, step: Step)
    requires p.Valid()
  {
    match step
    case Other(st) =>
      Engine.Enabled(s.engine, st)
      && (st.rid == p.Rid() ==> st.Do? && !st.act.Return? && !st.act.WakeLookup? && !st.act.RunBody?)
    case First(w, posted) => Engine.Enabled(s.engine, Engine.Do(p.Rid(), w, Engine.Return(!posted)))
    case Land(k, at) =>
      MayLand(p, s.nic, k)
      && var c := p.Chunks()[s.nic.posted[k].chunk]; c.dst <= at < c.dst + c.len
    case Completed(w, k, clean) =>
      k < |s.nic.posted| && w < |s.engine.workers| && p.Rid() in s.engine.reqs
      && (s.nic.posted[k].Write? ==>
            UnderWay(p, s.nic, k) && (clean ==> AllLanded(s.nic, p.Chunks()[s.nic.posted[k].chunk])))
    case Body(w, notifyResult, writeResult) =>
      Engine.Enabled(s.engine, Engine.Do(p.Rid(), w, Engine.RunBody(0)))
  }

  function LandedAt(p: Plan, nic: Nic, c: Chunk, at: int): Nic {
    var there, byte := Addr(p.route.to, at), nic.mem(Origin(p.route, c, Addr(p.route.to, at)));
    nic.(mem := (x: Addr) => if x == there then byte else nic.mem(x), landed := nic.landed + {at})
  }

  function CompletedWith(nic: Nic, chunk: nat, clean: bool): Nic {
    nic.(delivered := nic.delivered + [chunk], clean := if clean then nic.clean + {chunk} else nic.clean)
  }

  // The bytes of a posted write arrive one by one and in any order. Its completion wakes the request
  // whatever status it carries.
  function Apply(p: Plan, s: State, step: Step): State
    requires p.Valid() && Enabled(p, s, step)
  {
    match step
    case Other(st) => s.(engine := Engine.Apply(s.engine, st))
    case First(w, posted) =>
      State(Engine.Apply(s.engine, Engine.Do(p.Rid(), w, Engine.Return(!posted))),
            if posted then s.nic.(posted := s.nic.posted + [Write(0)]) else s.nic)
    case Land(k, at) => s.(nic := LandedAt(p, s.nic, p.Chunks()[s.nic.posted[k].chunk], at))
    case Completed(w, k, clean) =>
      var post := s.nic.posted[k];
      if post.Notify? then s
      else
        State(Engine.Apply(s.engine, Engine.Do(p.Rid(), w, Engine.WakeLookup(Word(WriteCtx(p, post.chunk))))),
              CompletedWith(s.nic, post.chunk, clean))
    case Body(w, notifyResult, writeResult) =>
      var (posts, status) := BodyPosts(p.N(), s.engine.workers[w].run.value.hit.task.idx, notifyResult, writeResult);
      State(Engine.Apply(s.engine, Engine.Do(p.Rid(), w, Engine.RunBody(status))),
            s.nic.(posted := s.nic.posted + posts))
  }

  // The send starts when its batch is attached, in any state of the engine.
  predicate Begins(p: Plan, s: State, before: Engine.State, w: nat)
    requires p.Valid()
  {
    var attach := Engine.Attach(p.Rid(), w, SendBatch(p.N(), p.serverKey), true, None);
    Engine.Enabled(before, attach) && s.engine == Engine.Apply(before, attach)
    && s.nic.posted == [] && s.nic.delivered == [] && s.nic.clean == {} && s.nic.landed == {}
  }

  ghost predicate IsRun(p: Plan, states: seq<State>, steps: seq<Step>)
    requires p.Valid()
  {
    && |states| == |steps| + 1
    && (exists before, w :: Inv(before) && Begins(p, states[0], before, w))
    && forall i | 0 <= i < |steps| :: Enabled(p, states[i], steps[i]) && states[i + 1] == Apply(p, states[i], steps[i])
  }

  // ----- Invariant.

  // Bodies that have run so far.
  function Ran(c: Engine.Cell): int {
    |c.req.flow.popped| - if c.worker.run.Some? && c.worker.run.value.phase.Popped? then 1 else 0
  }

  // Wakeups on their way or consumed.
  function Wakeups(c: Engine.Cell): nat {
    |c.req.wakers| + |c.worker.pending| + |c.req.flow.log|
  }

  predicate NoFailure(c: Engine.Cell) {
    c.req.tally.failed == 0
    && (c.worker.run.Some? ==>
          (c.worker.run.value.phase.Ran? || c.worker.run.value.phase.Noted?) ==> c.worker.run.value.phase.status == 0)
  }

  // The posts follow the script, and the writes complete one after the other.
  predicate InScript(p: Plan, nic: Nic)
    requires p.Valid()
  {
    && |nic.posted| <= 2 * p.N() && (forall k | 0 <= k < |nic.posted| :: nic.posted[k] == Script(k))
    && |nic.posted| / 2 <= |nic.delivered| <= (|nic.posted| + 1) / 2 && |nic.delivered| <= p.N()
    && (forall i | 0 <= i < |nic.delivered| :: nic.delivered[i] == i)
  }

  function Writes(nic: Nic): nat {
    (|nic.posted| + 1) / 2
  }

  // All bytes of the writes that completed with success have landed, and none beyond the last write
  // posted.
  ghost predicate LandInv(p: Plan, nic: Nic)
    requires p.Valid() && InScript(p, nic)
  {
    && (forall at | at in nic.landed :: p.dst <= at < p.dst + Covered(p.len, Writes(nic)))
    && (forall i | i in nic.clean :: i < |nic.delivered| && AllLanded(nic, p.Chunks()[i]))
  }

  // The byte at x: the one sent if it has landed, and what was there before otherwise.
  function ByteNow(p: Plan, mem: Memory, landed: set<int>, x: Addr): bv8 {
    if x.space == p.route.to && x.at in landed then mem(p.Source(x.at)) else mem(x)
  }

  ghost predicate MemInv(p: Plan, nic: Nic, mem: Memory) {
    p.Apart() ==> forall x: Addr :: nic.mem(x) == ByteNow(p, mem, nic.landed, x)
  }

  ghost predicate NicInv(p: Plan, nic: Nic, mem: Memory)
    requires p.Valid()
  {
    InScript(p, nic) && LandInv(p, nic) && MemInv(p, nic, mem)
  }

  // Numbers only: posted requests, delivered completions, wakeups, bodies run.
  ghost predicate Pace(c: Engine.Cell, n: nat, posted: nat, delivered: nat) {
    && c.req.send
    && (c.req.stage.Registering? ==> posted == 0 && !c.req.tally.early)
    && (!c.req.stage.Registering? ==> (posted == 0 <==> c.req.tally.early))
    && posted <= 1 + 2 * Ran(c)
    && Wakeups(c) <= delivered && (c.req.flow.cut.None? ==> Wakeups(c) == delivered)
    && (posted == 0 ==> Ran(c) == 0)
    && (NoFailure(c) && posted != 0 ==> posted == if Ran(c) < n then 1 + 2 * Ran(c) else 2 * n)
  }

  ghost predicate SendInv(p: Plan, c: Engine.Cell, nic: Nic, mem: Memory)
    requires p.Valid()
  {
    && CellInv(c, p.Rid()) && c.req.batch == SendBatch(p.N(), p.serverKey)
    && NicInv(p, nic, mem) && Pace(c, p.N(), |nic.posted|, |nic.delivered|)
  }

  lemma PoppedInOrder(p: Plan, c: Engine.Cell)
    requires p.Valid() && FlowInv(c, p.Rid()) && c.req.batch == SendBatch(p.N(), p.serverKey)
    ensures |c.req.flow.popped| == Min(|c.req.flow.log|, p.N())
    ensures forall i | 0 <= i < |c.req.flow.popped| :: c.req.flow.popped[i].task.idx == i
  {
    var batch, popped := c.req.batch, c.req.flow.popped;
    UnkeyedIsPrefix(batch, p.Rid(), c.req.flow.log);
    forall i | 0 <= i < |popped| ensures popped[i].task.idx == i {
      assert TasksOf(popped)[i] == batch[i];
    }
  }

  // ----- The engine's other acts keep the pace.

  lemma PopKeepsPace(c: Engine.Cell, rid: Word, n: nat, posted: nat, delivered: nat)
    requires Pace(c, n, posted, delivered) && c.worker.run.None? && c.worker.pending != []
    ensures Pace(Engine.DoPop(c, rid), n, posted, delivered)
  {}

  lemma RemoveKeepsPace(c: Engine.Cell, rid: Word, j: nat, n: nat, posted: nat, delivered: nat)
    requires Pace(c, n, posted, delivered) && j < |c.req.cancels| && Drop(c.worker.pending, WakeOf(rid)) == []
    ensures Pace(Engine.DoRemove(c, rid, j), n, posted, delivered)
  {}

  lemma WorkerActsKeepPace(c: Engine.Cell, rid: Word, w: nat, act: Engine.Act, n: nat, posted: nat, delivered: nat)
    requires Pace(c, n, posted, delivered) && Engine.Can(c, rid, w, act)
    requires act.WakePush? || act.NoteStatus? || act.MarkSync? || act.SettleContext?
    ensures Pace(Engine.Local(c, rid, w, act), n, posted, delivered)
  {}

  lemma TableActsKeepPace(c: Engine.Cell, rid: Word, w: nat, act: Engine.Act, n: nat, posted: nat, delivered: nat)
    requires Pace(c, n, posted, delivered) && Engine.Can(c, rid, w, act)
    requires act.Publish? || act.CancelLookup? || act.CancelDeduct?
    ensures Pace(Engine.Local(c, rid, w, act), n, posted, delivered)
  {}

  lemma CallerActsKeepPace(c: Engine.Cell, rid: Word, w: nat, act: Engine.Act, n: nat, posted: nat, delivered: nat)
    requires Pace(c, n, posted, delivered) && Engine.Can(c, rid, w, act)
    requires act.Block? || act.WaitEnds? || act.CallCancel? || act.OwnLookup? || act.AccountCancel? || act.Release?
    ensures Pace(Engine.Local(c, rid, w, act), n, posted, delivered)
  {}

  lemma OtherActsKeepPace(c: Engine.Cell, rid: Word, w: nat, act: Engine.Act, n: nat, posted: nat, delivered: nat)
    requires Pace(c, n, posted, delivered) && Engine.Can(c, rid, w, act)
    requires !act.Return? && !act.WakeLookup? && !act.RunBody?
    requires c.worker == Engine.Proj(c.worker, rid)
    ensures Pace(Engine.Local(c, rid, w, act), n, posted, delivered)
  {
    if act.Pop? {
      PopKeepsPace(c, rid, n, posted, delivered);
    } else if act.CancelRemove? {
      ProjectedPending(c.worker, rid);
      RemoveKeepsPace(c, rid, act.j, n, posted, delivered);
    } else if act.WakePush? || act.NoteStatus? || act.MarkSync? || act.SettleContext? {
      WorkerActsKeepPace(c, rid, w, act, n, posted, delivered);
    } else if act.Publish? || act.CancelLookup? || act.CancelDeduct? {
      TableActsKeepPace(c, rid, w, act, n, posted, delivered);
    } else {
      CallerActsKeepPace(c, rid, w, act, n, posted, delivered);
    }
  }

  // ----- The three acts that involve the card.

  lemma FirstKeepsSend(p: Plan, c: Engine.Cell, nic: Nic, mem: Memory, posted: bool)
    requires p.Valid() && SendInv(p, c, nic, mem) && c.req.stage.Registering?
    ensures Pace(Engine.DoReturn(c, !posted), p.N(), if posted then 1 else 0, |nic.delivered|)
    ensures nic.posted == []
  {
    PoppedInOrder(p, c);
  }

  // When a body is about to run, the write before its announcement is the last one posted, and it
  // is complete.
  lemma BodyFindsWriteDone(p: Plan, c: Engine.Cell, nic: Nic, mem: Memory)
    requires p.Valid() && SendInv(p, c, nic, mem) && c.worker.run.Some? && c.worker.run.value.phase.Popped?
    ensures var i := c.worker.run.value.hit.task.idx;
            i == Ran(c) && i < p.N() && |nic.posted| == 2 * i + 1 && |nic.delivered| == i + 1
  {
    PoppedInOrder(p, c);
  }

  lemma BodyKeepsPace(c: Engine.Cell, rid: Word, w: nat, status: int, n: nat, posted: nat, added: nat, delivered: nat)
    requires Pace(c, n, posted, delivered) && c.worker.run.Some? && c.worker.run.value.phase.Popped?
    requires posted == 2 * Ran(c) + 1 && Ran(c) < n && delivered == Ran(c) + 1 && added <= 2
    requires status == 0 ==> added == if Ran(c) + 1 < n then 2 else 1
    ensures Pace(Engine.DoRunBody(c, status), n, posted + added, delivered)
  {}

  // A write that completes is the next one, and while nothing was canceled its completion finds
  // the request.
  lemma CompletionIsNext(p: Plan, c: Engine.Cell, nic: Nic, mem: Memory, k: nat)
    requires p.Valid() && SendInv(p, c, nic, mem) && UnderWay(p, nic, k)
    ensures nic.posted[k].chunk == |nic.delivered| < p.N()
    ensures |nic.delivered| + 1 <= (|nic.posted| + 1) / 2
    ensures c.req.flow.cut.None? ==> c.ctx.Some?
  {
    NextWrite(nic, k);
    PoppedInOrder(p, c);
  }

  lemma NextWrite(nic: Nic, k: nat)
    requires k < |nic.posted| && nic.posted[k] == Script(k) && nic.posted[k].Write?
    requires |nic.posted| / 2 <= |nic.delivered| && forall i | 0 <= i < |nic.delivered| :: nic.delivered[i] == i
    requires nic.posted[k].chunk !in nic.delivered
    ensures nic.posted[k].chunk == |nic.delivered| && |nic.delivered| + 1 <= (|nic.posted| + 1) / 2
  {
    forall i | 0 <= i < |nic.delivered| ensures i in nic.delivered {
      assert nic.delivered[i] == i;
    }
  }

  // ----- Every step keeps the invariant.

  ghost predicate Holds(p: Plan, s: State, mem: Memory)
    requires p.Valid()
  {
    && Inv(s.engine) && p.Rid() in s.engine.reqs && s.engine.reqs[p.Rid()].home < |s.engine.workers|
    && s.engine.reqs[p.Rid()].batch == SendBatch(p.N(), p.serverKey)
    && NicInv(p, s.nic, mem)
    && Pace(ShareOf(s.engine, p.Rid()), p.N(), |s.nic.posted|, |s.nic.delivered|)
  }

  lemma HoldsSendInv(p: Plan, s: State, mem: Memory)
    requires p.Valid() && Holds(p, s, mem)
    ensures SendInv(p, ShareOf(s.engine, p.Rid()), s.nic, mem)
    ensures ShareOf(s.engine, p.Rid()).worker == Engine.Proj(ShareOf(s.engine, p.Rid()).worker, p.Rid())
  {
    ShareInv(s.engine, p.Rid());
  }

  lemma BeginHolds(p: Plan, s: State, before: Engine.State, w: nat)
    requires p.Valid() && Inv(before) && Begins(p, s, before, w)
    ensures Holds(p, s, s.nic.mem)
  {
    var batch := SendBatch(p.N(), p.serverKey);
    StepKeepsInv(before, Engine.Attach(p.Rid(), w, batch, true, None));
    SelectConcat(before.workers[w].queue, batch, TaskOf(p.Rid()));
    assert Engine.Proj(before.workers[w], p.Rid()) == NOTHING;
  }

  // After a step of the request itself.
  lemma OwnHolds(p: Plan, s: State, mem: Memory, w: nat, act: Engine.Act, nic: Nic)
    requires p.Valid() && Holds(p, s, mem) && Engine.Enabled(s.engine, Engine.Do(p.Rid(), w, act))
    requires NicInv(p, nic, mem)
    requires Engine.Can(ShareOf(s.engine, p.Rid()), p.Rid(), w, act) ==>
               Pace(Engine.Local(ShareOf(s.engine, p.Rid()), p.Rid(), w, act), p.N(), |nic.posted|, |nic.delivered|)
    ensures Holds(p, State(Engine.Apply(s.engine, Engine.Do(p.Rid(), w, act)), nic), mem)
  {
    StepKeepsInv(s.engine, Engine.Do(p.Rid(), w, act));
    OwnShareStep(s.engine, p.Rid(), w, act);
  }

  lemma OtherHolds(p: Plan, s: State, mem: Memory, st: Engine.Step)
    requires p.Valid() && Holds(p, s, mem) && Enabled(p, s, Other(st))
    ensures Holds(p, Apply(p, s, Other(st)), mem)
  {
    if st.rid == p.Rid() {
      HoldsSendInv(p, s, mem);
      OwnShareStep(s.engine, p.Rid(), st.w, st.act);
      OtherActsKeepPace(ShareOf(s.engine, p.Rid()), p.Rid(), st.w, st.act, p.N(), |s.nic.posted|, |s.nic.delivered|);
      OwnHolds(p, s, mem, st.w, st.act, s.nic);
    } else {
      StepKeepsInv(s.engine, st);
      OtherShareStep(s.engine, st, p.Rid());
    }
  }

  lemma FirstHolds(p: Plan, s: State, mem: Memory, w: nat, posted: bool)
    requires p.Valid() && Holds(p, s, mem) && Enabled(p, s, First(w, posted))
    ensures Holds(p, Apply(p, s, First(w, posted)), mem)
  {
    HoldsSendInv(p, s, mem);
    FirstKeepsSend(p, ShareOf(s.engine, p.Rid()), s.nic, mem, posted);
    if posted {
      FirstKeepsNic(p, s.nic, mem);
      OwnHolds(p, s, mem, w, Engine.Return(false), s.nic.(posted := s.nic.posted + [Write(0)]));
    } else {
      OwnHolds(p, s, mem, w, Engine.Return(true), s.nic);
    }
  }

  lemma FirstKeepsNic(p: Plan, nic: Nic, mem: Memory)
    requires p.Valid() && NicInv(p, nic, mem) && nic.posted == []
    ensures NicInv(p, nic.(posted := nic.posted + [Write(0)]), mem)
  {
    MorePosts(p, nic, mem, [Write(0)]);
  }

  lemma BodyPostsAreNext(n: nat, i: nat, notifyResult: int, writeResult: int)
    requires i < n
    ensures var (posts, status) := BodyPosts(n, i, notifyResult, writeResult);
            && |posts| <= 2 && (status == 0 ==> |posts| == if i + 1 < n then 2 else 1)
            && 2 * i + 1 + |posts| <= 2 * n
            && forall k | 0 <= k < |posts| :: posts[k] == Script(2 * i + 1 + k)
  {}

  lemma MorePosts(p: Plan, nic: Nic, mem: Memory, posts: seq<Post>)
    requires p.Valid() && NicInv(p, nic, mem)
    requires InScript(p, nic.(posted := nic.posted + posts))
    ensures NicInv(p, nic.(posted := nic.posted + posts), mem)
  {
    var after := nic.(posted := nic.posted + posts);
    CoveredGrows(p.len, Writes(nic), Writes(after));
  }

  lemma BodyKeepsNic(p: Plan, nic: Nic, mem: Memory, i: nat, notifyResult: int, writeResult: int)
    requires p.Valid() && NicInv(p, nic, mem) && i < p.N()
    requires |nic.posted| == 2 * i + 1 && |nic.delivered| == i + 1
    ensures NicInv(p, nic.(posted := nic.posted + BodyPosts(p.N(), i, notifyResult, writeResult).0), mem)
  {
    BodyPostsAreNext(p.N(), i, notifyResult, writeResult);
    MorePosts(p, nic, mem, BodyPosts(p.N(), i, notifyResult, writeResult).0);
  }

  lemma BodyKeepsSend(p: Plan, c: Engine.Cell, nic: Nic, mem: Memory, w: nat, i: nat, notifyResult: int,
                      writeResult: int)
    requires p.Valid() && SendInv(p, c, nic, mem) && c.worker.run.Some? && c.worker.run.value.phase.Popped?
    requires i == c.worker.run.value.hit.task.idx
    ensures var (posts, status) := BodyPosts(p.N(), i, notifyResult, writeResult);
            && NicInv(p, nic.(posted := nic.posted + posts), mem)
            && Pace(Engine.DoRunBody(c, status), p.N(), |nic.posted| + |posts|, |nic.delivered|)
  {
    var (posts, status) := BodyPosts(p.N(), i, notifyResult, writeResult);
    BodyFindsWriteDone(p, c, nic, mem);
    BodyPostsAreNext(p.N(), i, notifyResult, writeResult);
    BodyKeepsNic(p, nic, mem, i, notifyResult, writeResult);
    BodyKeepsPace(c, p.Rid(), w, status, p.N(), |nic.posted|, |posts|, |nic.delivered|);
  }

  // The worker that runs the body is the home of the request.
  lemma BodyAtHome(p: Plan, s: State, mem: Memory, w: nat)
    requires p.Valid() && Holds(p, s, mem) && Engine.Enabled(s.engine, Engine.Do(p.Rid(), w, Engine.RunBody(0)))
    ensures ShareOf(s.engine, p.Rid()).worker.run == s.engine.workers[w].run
    ensures s.engine.workers[w].run.Some? && s.engine.workers[w].run.value.phase.Popped?
  {
    assert ReqInv(s.engine, p.Rid());
    StepsAtHome(s.engine, p.Rid(), w, Engine.RunBody(0));
  }

  lemma BodyHolds(p: Plan, s: State, mem: Memory, w: nat, notifyResult: int, writeResult: int)
    requires p.Valid() && Holds(p, s, mem) && Enabled(p, s, Body(w, notifyResult, writeResult))
    ensures Holds(p, Apply(p, s, Body(w, notifyResult, writeResult)), mem)
  {
    BodyAtHome(p, s, mem, w);
    var c, i := ShareOf(s.engine, p.Rid()), s.engine.workers[w].run.value.hit.task.idx;
    var (posts, status) := BodyPosts(p.N(), i, notifyResult, writeResult);
    HoldsSendInv(p, s, mem);
    BodyKeepsSend(p, c, s.nic, mem, w, i, notifyResult, writeResult);
    OwnHolds(p, s, mem, w, Engine.RunBody(status), s.nic.(posted := s.nic.posted + posts));
  }

  lemma WakeKeepsPace(c: Engine.Cell, data: Word, n: nat, posted: nat, delivered: nat)
    requires Pace(c, n, posted, delivered) && (c.req.flow.cut.None? ==> c.ctx.Some?)
    ensures Pace(Engine.DoWakeLookup(c, data), n, posted, delivered + 1)
  {}

  lemma CompletionKeepsNic(p: Plan, nic: Nic, mem: Memory, k: nat, clean: bool)
    requires p.Valid() && NicInv(p, nic, mem) && UnderWay(p, nic, k)
    requires clean ==> AllLanded(nic, p.Chunks()[nic.posted[k].chunk])
    requires nic.posted[k].chunk == |nic.delivered| < p.N() && |nic.delivered| + 1 <= Writes(nic)
    ensures NicInv(p, CompletedWith(nic, nic.posted[k].chunk, clean), mem)
  {}

  // A byte that lands is the one sent, as no write has touched the source.
  lemma LandKeepsMem(p: Plan, nic: Nic, mem: Memory, i: nat, at: int)
    requires p.Valid() && MemInv(p, nic, mem) && i < p.N()
    requires forall a | a in nic.landed :: p.dst <= a < p.dst + p.len
    requires var c := p.Chunks()[i]; c.dst <= at < c.dst + c.len
    ensures MemInv(p, LandedAt(p, nic, p.Chunks()[i], at), mem)
  {
    ChunkPlace(p.src, p.dst, p.len, i);
    CoveredGrows(p.len, i + 1, i + 1);
    assert Origin(p.route, p.Chunks()[i], Addr(p.route.to, at)) == p.Source(at);
  }

  lemma WriteWasPosted(p: Plan, nic: Nic, k: nat)
    requires p.Valid() && InScript(p, nic) && k < |nic.posted| && nic.posted[k].Write?
    ensures nic.posted[k].chunk + 1 <= Writes(nic)
  {
    assert nic.posted[k] == Script(k);
  }

  lemma LandKeepsNic(p: Plan, nic: Nic, mem: Memory, k: nat, at: int)
    requires p.Valid() && NicInv(p, nic, mem) && MayLand(p, nic, k)
    requires var c := p.Chunks()[nic.posted[k].chunk]; c.dst <= at < c.dst + c.len
    ensures NicInv(p, LandedAt(p, nic, p.Chunks()[nic.posted[k].chunk], at), mem)
  {
    var i := nic.posted[k].chunk;
    WriteWasPosted(p, nic, k);
    CoveredGrows(p.len, i + 1, Writes(nic));
    LandKeepsMem(p, nic, mem, i, at);
    ChunkPlace(p.src, p.dst, p.len, i);
  }

  lemma LandHolds(p: Plan, s: State, mem: Memory, k: nat, at: int)
    requires p.Valid() && Holds(p, s, mem) && Enabled(p, s, Land(k, at))
    ensures Holds(p, Apply(p, s, Land(k, at)), mem)
  {
    LandKeepsNic(p, s.nic, mem, k, at);
  }

  lemma CompletionKeepsSend(p: Plan, c: Engine.Cell, nic: Nic, mem: Memory, k: nat, clean: bool)
    requires p.Valid() && SendInv(p, c, nic, mem) && UnderWay(p, nic, k)
    requires clean ==> AllLanded(nic, p.Chunks()[nic.posted[k].chunk])
    ensures NicInv(p, CompletedWith(nic, nic.posted[k].chunk, clean), mem)
    ensures var data := Word(WriteCtx(p, nic.posted[k].chunk));
            Pace(Engine.DoWakeLookup(c, data), p.N(), |nic.posted|, |nic.delivered| + 1)
  {
    CompletionIsNext(p, c, nic, mem, k);
    WakeKeepsPace(c, Word(WriteCtx(p, nic.posted[k].chunk)), p.N(), |nic.posted|, |nic.delivered|);
    CompletionKeepsNic(p, nic, mem, k, clean);
  }

  lemma CompletedHolds(p: Plan, s: State, mem: Memory, w: nat, k: nat, clean: bool)
    requires p.Valid() && Holds(p, s, mem) && Enabled(p, s, Completed(w, k, clean))
    ensures Holds(p, Apply(p, s, Completed(w, k, clean)), mem)
  {
    var post := s.nic.posted[k];
    if post.Write? {
      HoldsSendInv(p, s, mem);
      CompletionKeepsSend(p, ShareOf(s.engine, p.Rid()), s.nic, mem, k, clean);
      OwnHolds(p, s, mem, w, Engine.WakeLookup(Word(WriteCtx(p, post.chunk))), CompletedWith(s.nic, post.chunk, clean));
    }
  }

  lemma StepHolds(p: Plan, s: State, mem: Memory, step: Step)
    requires p.Valid() && Holds(p, s, mem) && Enabled(p, s, step)
    ensures Holds(p, Apply(p, s, step), mem)
  {
    match step
    case Other(st) => OtherHolds(p, s, mem, st);
    case First(w, posted) => FirstHolds(p, s, mem, w, posted);
    case Land(k, at) => LandHolds(p, s, mem, k, at);
    case Completed(w, k, clean) => CompletedHolds(p, s, mem, w, k, clean);
    case Body(w, notifyResult, writeResult) => BodyHolds(p, s, mem, w, notifyResult, writeResult);
  }

  lemma {:induction false} RunHolds(p: Plan, states: seq<State>, steps: seq<Step>, n: nat)
    requires p.Valid() && IsRun(p, states, steps) && n <= |steps|
    ensures Holds(p, states[n], states[0].nic.mem)
  {
    if n == 0 {
      var before, w :| Inv(before) && Begins(p, states[0], before, w);
      BeginHolds(p, states[0], before, w);
    } else {
      RunHolds(p, states, steps, n - 1);
      StepHolds(p, states[n - 1], states[0].nic.mem, steps[n - 1]);
    }
  }
}
