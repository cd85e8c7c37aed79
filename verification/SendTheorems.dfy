/** What every run of a send guarantees. */
module SendTheorems {
  import opened Codec
  import opened Lists
  import opened Numbers
  import opened Chunks
  import opened Tasks
  import Engine
  import opened EngineProgress
  import opened EngineRuns
  import opened SendPipeline

  lemma SendFacts(p: Plan, states: seq<State>, steps: seq<Step>, n: nat) returns (c: Engine.Cell)
    requires p.Valid() && IsRun(p, states, steps) && n <= |steps|
    ensures p.Rid() in states[n].engine.reqs && states[n].engine.reqs[p.Rid()].home < |states[n].engine.workers|
    ensures c == ShareOf(states[n].engine, p.Rid()) && SendInv(p, c, states[n].nic, states[0].nic.mem)
    ensures |c.req.flow.popped| == Min(|c.req.flow.log|, p.N()) && c.req.sync.total == p.N()
  {
    RunHolds(p, states, steps, n);
    HoldsSendInv(p, states[n], states[0].nic.mem);
    c := ShareOf(states[n].engine, p.Rid());
    PoppedInOrder(p, c);
  }

  // Whatever fails, is canceled or times out: the requests posted are the first ones of
  // W0, N0, W1, N1, ..., and a chunk is announced only once its write has completed.
  lemma DataBeforeAnnouncement(p: Plan, states: seq<State>, steps: seq<Step>, n: nat)
    requires p.Valid() && IsRun(p, states, steps) && n <= |steps|
    ensures var nic := states[n].nic;
            && |nic.posted| <= 2 * p.N()
            && (forall k | 0 <= k < |nic.posted| :: nic.posted[k] == Script(k))
            && (forall i: nat | Notify(i) in nic.posted :: i in nic.delivered)
  {
    var c := SendFacts(p, states, steps, n);
    AnnouncedIsDelivered(p, states[n].nic, states[0].nic.mem);
  }

  // Also at the moment of posting: what a step announces had completed before the step.
  lemma PostedAfterCompletion(p: Plan, states: seq<State>, steps: seq<Step>, n: nat, i: nat)
    requires p.Valid() && IsRun(p, states, steps) && n < |steps|
    requires Notify(i) in states[n + 1].nic.posted && Notify(i) !in states[n].nic.posted
    ensures i in states[n].nic.delivered
  {
    DataBeforeAnnouncement(p, states, steps, n + 1);
    PostsAndCompletionsApart(p, states[n], steps[n]);
  }

  lemma PostsAndCompletionsApart(p: Plan, s: State, step: Step)
    requires p.Valid() && Enabled(p, s, step)
    ensures Apply(p, s, step).nic.posted == s.nic.posted || Apply(p, s, step).nic.delivered == s.nic.delivered
  {}

  lemma AnnouncedIsDelivered(p: Plan, nic: Nic, mem: Memory)
    requires p.Valid() && NicInv(p, nic, mem)
    ensures forall i: nat | Notify(i) in nic.posted :: i < |nic.delivered| && i in nic.delivered
  {
    forall i: nat | Notify(i) in nic.posted ensures i < |nic.delivered| && i in nic.delivered {
      var k :| 0 <= k < |nic.posted| && nic.posted[k] == Notify(i);
      assert nic.delivered[i] == i;
    }
  }

  predicate InChunk(p: Plan, i: nat, at: int)
    requires p.Valid() && i < p.N()
  {
    p.Chunks()[i].dst <= at < p.Chunks()[i].dst + p.Chunks()[i].len
  }

  // Once the write of a chunk has completed with success its bytes are at the destination.
  lemma CleanBytes(p: Plan, nic: Nic, mem: Memory, i: nat, at: int)
    requires p.Valid() && NicInv(p, nic, mem) && i in nic.clean && i < p.N() && p.Apart() && InChunk(p, i, at)
    ensures nic.mem(Addr(p.route.to, at)) == mem(p.Source(at))
  {
    assert AllLanded(nic, p.Chunks()[i]);
  }

  // A chunk is announced after its write completed, whatever status that completion carried. If it
  // reported success the bytes are there.
  lemma AnnouncedBytesAreThere(p: Plan, states: seq<State>, steps: seq<Step>, n: nat, i: nat, at: int)
    requires p.Valid() && IsRun(p, states, steps) && n <= |steps| && p.Apart()
    requires i < p.N() && Notify(i) in states[n].nic.posted && InChunk(p, i, at)
    ensures i in states[n].nic.delivered
    ensures i in states[n].nic.clean ==> states[n].nic.mem(Addr(p.route.to, at)) == states[0].nic.mem(p.Source(at))
  {
    var c := SendFacts(p, states, steps, n);
    AnnouncedIsDelivered(p, states[n].nic, states[0].nic.mem);
    if i in states[n].nic.clean {
      CleanBytes(p, states[n].nic, states[0].nic.mem, i, at);
    }
  }

  // x belongs to the first n bytes of the destination.
  predicate Within(p: Plan, n: nat, x: Addr) {
    x.space == p.route.to && p.dst <= x.at < p.dst + n
  }

  // Every completion so far reported success.
  predicate AllClean(nic: Nic) {
    forall i | i in nic.delivered :: i in nic.clean
  }

  // What memory can be: the source's bytes in the chunks whose writes completed with success; either
  // those or what was there before in the other chunks written; and what was there before anywhere else.
  ghost predicate MemoryIs(p: Plan, nic: Nic, mem: Memory, x: Addr)
    requires p.Valid()
  {
    var posted := Covered(p.len, Writes(nic));
    && posted <= p.len
    && (forall i: nat | i in nic.clean && i < p.N() && x.space == p.route.to && InChunk(p, i, x.at) ::
          nic.mem(x) == mem(p.Source(x.at)))
    && (AllClean(nic) && Within(p, Covered(p.len, |nic.delivered|), x) ==> nic.mem(x) == mem(p.Source(x.at)))
    && (Within(p, posted, x) ==> nic.mem(x) == mem(p.Source(x.at)) || nic.mem(x) == mem(x))
    && (!Within(p, posted, x) ==> nic.mem(x) == mem(x))
  }

  // The chunk that a covered byte belongs to.
  lemma CoveredByChunk(p: Plan, k: nat, at: int) returns (i: nat)
    requires p.Valid() && k <= p.N() && p.dst <= at < p.dst + Covered(p.len, k)
    ensures i < k && InChunk(p, i, at)
  {
    i := (at - p.dst) / CHUNK_SIZE;
    ChunkPlace(p.src, p.dst, p.len, i);
  }

  lemma CleanCovered(p: Plan, nic: Nic, mem: Memory, x: Addr)
    requires p.Valid() && NicInv(p, nic, mem) && p.Apart() && AllClean(nic)
    requires Within(p, Covered(p.len, |nic.delivered|), x)
    ensures nic.mem(x) == mem(p.Source(x.at))
  {
    var i := CoveredByChunk(p, |nic.delivered|, x.at);
    assert nic.delivered[i] == i;
    CleanBytes(p, nic, mem, i, x.at);
  }

  lemma MemoryOf(p: Plan, nic: Nic, mem: Memory, x: Addr)
    requires p.Valid() && NicInv(p, nic, mem) && p.Apart()
    ensures MemoryIs(p, nic, mem, x)
  {
    CoveredGrows(p.len, |nic.delivered|, Writes(nic));
    forall i: nat | i in nic.clean && i < p.N() && x.space == p.route.to && InChunk(p, i, x.at)
      ensures nic.mem(x) == mem(p.Source(x.at))
    {
      CleanBytes(p, nic, mem, i, x.at);
    }
    if AllClean(nic) && Within(p, Covered(p.len, |nic.delivered|), x) {
      CleanCovered(p, nic, mem, x);
    }
  }

  lemma MemoryOfCopies(p: Plan, nic: Nic, mem: Memory, x: Addr)
    requires p.Valid() && NicInv(p, nic, mem) && p.Apart() && AllClean(nic) && |nic.delivered| == Writes(nic)
    ensures nic.mem(x) == CopyAll(mem, p.route, p.Chunks()[..|nic.delivered|])(x)
  {
    MemoryOf(p, nic, mem, x);
    CopiesCovered(mem, p.route, p.src, p.dst, p.len, |nic.delivered|, x);
  }

  // In every state of every run, also when the send fails, is canceled or times out with a write
  // under way; at most one write ever is. With none under way and all completed with success memory
  // is what copying the completed chunks makes of it.
  lemma OnlyChunksChange(p: Plan, states: seq<State>, steps: seq<Step>, n: nat, x: Addr)
    requires p.Valid() && IsRun(p, states, steps) && n <= |steps| && p.Apart()
    ensures MemoryIs(p, states[n].nic, states[0].nic.mem, x)
    ensures |states[n].nic.delivered| <= Writes(states[n].nic) <= |states[n].nic.delivered| + 1
    ensures |states[n].nic.delivered| <= p.N()
    ensures AllClean(states[n].nic) && |states[n].nic.delivered| == Writes(states[n].nic)
            ==> states[n].nic.mem(x)
                == CopyAll(states[0].nic.mem, p.route, p.Chunks()[..|states[n].nic.delivered|])(x)
  {
    var c := SendFacts(p, states, steps, n);
    MemoryOf(p, states[n].nic, states[0].nic.mem, x);
    if AllClean(states[n].nic) && |states[n].nic.delivered| == Writes(states[n].nic) {
      MemoryOfCopies(p, states[n].nic, states[0].nic.mem, x);
    }
  }

  // A wait that returns 0 means that all data was posted and announced and every write completed; if
  // all completed with success the data is there and only that changed.
  lemma SuccessMeansAllSent(p: Plan, states: seq<State>, steps: seq<Step>, n: nat, x: Addr)
    requires p.Valid() && IsRun(p, states, steps) && n <= |steps|
    requires p.Rid() in states[n].engine.reqs && states[n].engine.reqs[p.Rid()].stage.Released?
    requires states[n].engine.reqs[p.Rid()].stage.returned.Success?
    ensures |states[n].nic.posted| == 2 * p.N() && |states[n].nic.delivered| == p.N()
    ensures p.Apart() && AllClean(states[n].nic)
            ==> states[n].nic.mem(x) == ByteAfter(states[0].nic.mem, p.route, p.src, p.dst, p.len, x)
  {
    var c := SendFacts(p, states, steps, n);
    AllDeliveredAllThere(p, states[n].nic, states[0].nic.mem, x);
  }

  lemma AllDeliveredAllThere(p: Plan, nic: Nic, mem: Memory, x: Addr)
    requires p.Valid() && NicInv(p, nic, mem)
    ensures |nic.delivered| == p.N() && p.Apart() && AllClean(nic)
            ==> nic.mem(x) == ByteAfter(mem, p.route, p.src, p.dst, p.len, x)
  {
    if p.Apart() {
      MemoryOf(p, nic, mem, x);
      SplitTiles(p.src, p.dst, p.len);
    }
  }

  // A send whose first chunk could not be posted does not block in its wait, which can only fail.
  lemma UnpostedFails(p: Plan, states: seq<State>, steps: seq<Step>, n: nat, w: nat, outcome: Engine.Verdict)
    requires p.Valid() && IsRun(p, states, steps) && n <= |steps| && states[n].nic.posted == []
    requires p.Rid() in states[n].engine.reqs && states[n].engine.reqs[p.Rid()].stage.Holding?
    requires w < |states[n].engine.workers|
    ensures !Engine.Enabled(states[n].engine, Engine.Do(p.Rid(), w, Engine.Block))
    ensures Engine.Enabled(states[n].engine, Engine.Do(p.Rid(), w, Engine.WaitEnds(outcome))) <==> outcome.Failed?
  {
    RunHolds(p, states, steps, n);
    UnpostedNow(p, states[n], states[0].nic.mem, w, outcome);
  }

  lemma UnpostedNow(p: Plan, s: State, mem: Memory, w: nat, outcome: Engine.Verdict)
    requires p.Valid() && Holds(p, s, mem) && s.nic.posted == [] && s.engine.reqs[p.Rid()].stage.Holding?
    requires w < |s.engine.workers|
    ensures !Engine.Enabled(s.engine, Engine.Do(p.Rid(), w, Engine.Block))
    ensures Engine.Enabled(s.engine, Engine.Do(p.Rid(), w, Engine.WaitEnds(outcome))) <==> outcome.Failed?
  {
    HoldsSendInv(p, s, mem);
    UnpostedIsComplete(p, ShareOf(s.engine, p.Rid()), s.nic, mem);
    CanOnlyFail(s.engine, p.Rid(), w, outcome);
  }

  lemma CanOnlyFail(s: Engine.State, rid: Word, w: nat, outcome: Engine.Verdict)
    requires rid in s.reqs && w < |s.workers| && s.reqs[rid].stage.Holding?
    requires s.reqs[rid].sync.requestCompleted && !s.reqs[rid].sync.Succeeded()
    ensures !Engine.Enabled(s, Engine.Do(rid, w, Engine.Block))
    ensures Engine.Enabled(s, Engine.Do(rid, w, Engine.WaitEnds(outcome))) <==> outcome.Failed?
  {}

  lemma UnpostedIsComplete(p: Plan, c: Engine.Cell, nic: Nic, mem: Memory)
    requires p.Valid() && SendInv(p, c, nic, mem) && nic.posted == [] && c.req.stage.Holding?
    ensures c.req.sync.requestCompleted && !c.req.sync.Succeeded()
  {}

  // What fails is up to the network: the first post may fail, any write may complete with an error and
  // any post of a body may fail.
  lemma AnythingMayFail(p: Plan, s: State, mem: Memory, w: nat, k: nat, notifyResult: int, writeResult: int)
    requires p.Valid() && Holds(p, s, mem) && w < |s.engine.workers|
    ensures var req, worker := s.engine.reqs[p.Rid()], s.engine.workers[w];
            && (req.published && req.stage.Registering? ==>
                  Enabled(p, s, First(w, true)) && Enabled(p, s, First(w, false)))
            && (k < |s.nic.posted| && s.nic.posted[k].Write? && s.nic.posted[k].chunk !in s.nic.delivered ==>
                  Enabled(p, s, Completed(w, k, false)))
            && (Engine.Runs(worker, p.Rid()) && worker.run.value.phase.Popped? ==>
                  Enabled(p, s, Body(w, notifyResult, writeResult)))
  {
    if k < |s.nic.posted| {
      assert s.nic.posted[k] == Script(k);
    }
  }

  lemma RestingSend(p: Plan, c: Engine.Cell, nic: Nic, mem: Memory)
    requires p.Valid() && SendInv(p, c, nic, mem) && nic.posted != []
    requires Quiet(c) && c.req.flow.cut.None? && c.req.tally.failed == 0
    ensures |c.req.flow.popped| == |nic.delivered| == c.req.sync.completed <= p.N() == c.req.sync.total
    ensures if |nic.delivered| < p.N()
            then |nic.posted| == 2 * |nic.delivered| + 1 && nic.posted[|nic.posted| - 1] == Write(|nic.delivered|)
            else |nic.posted| == 2 * p.N()
  {
    PoppedInOrder(p, c);
    assert |nic.delivered| < p.N() ==> nic.posted[2 * |nic.delivered|] == Script(2 * |nic.delivered|);
  }

  // As long as nothing fails or is canceled, a send that rests waits for the write it posted
  // last; when all writes have completed it has run each task once and everything is completed.
  lemma RestsOnlyOnTheCard(p: Plan, states: seq<State>, steps: seq<Step>, n: nat)
    requires p.Valid() && IsRun(p, states, steps) && n <= |steps| && states[n].nic.posted != []
    requires p.Rid() in states[n].engine.reqs && states[n].engine.reqs[p.Rid()].home < |states[n].engine.workers|
    requires Quiet(ShareOf(states[n].engine, p.Rid()))
    requires var req := states[n].engine.reqs[p.Rid()]; req.flow.cut.None? && req.tally.failed == 0
    ensures var nic, req := states[n].nic, states[n].engine.reqs[p.Rid()];
            && |req.flow.popped| == |nic.delivered| == req.sync.completed <= p.N()
            && (if |nic.delivered| < p.N()
                then |nic.posted| == 2 * |nic.delivered| + 1 && nic.posted[|nic.posted| - 1] == Write(|nic.delivered|)
                else |nic.posted| == 2 * p.N() && req.sync.completed == req.sync.total)
  {
    var c := SendFacts(p, states, steps, n);
    RestingSend(p, c, states[n].nic, states[0].nic.mem);
  }

  // ----- A send settles.

  // A step in which a waker or the worker carries the send on.
  predicate CarriesOn(p: Plan, step: Step) {
    step.Body? || (step.Other? && step.step.Do? && step.step.rid == p.Rid() && Internal(step.step.act))
  }

  function StepsCarriedOn(p: Plan, steps: seq<Step>, n: nat): nat
    requires n <= |steps|
  {
    if n == 0 then 0 else StepsCarriedOn(p, steps, n - 1) + if CarriesOn(p, steps[n - 1]) then 1 else 0
  }

  // What a step of the send does to the engine, if anything.
  function EngineStep(p: Plan, s: State, step: Step): Option<Engine.Step>
    requires p.Valid() && Enabled(p, s, step)
  {
    match step
    case Other(st) => Some(st)
    case First(w, posted) => Some(Engine.Do(p.Rid(), w, Engine.Return(!posted)))
    case Land(k, at) => None
    case Completed(w, k, clean) =>
      var post := s.nic.posted[k];
      if post.Notify? then None else Some(Engine.Do(p.Rid(), w, Engine.WakeLookup(Word(WriteCtx(p, post.chunk)))))
    case Body(w, notifyResult, writeResult) =>
      var i := s.engine.workers[w].run.value.hit.task.idx;
      Some(Engine.Do(p.Rid(), w, Engine.RunBody(BodyPosts(p.N(), i, notifyResult, writeResult).1)))
  }

  lemma EngineStepIs(p: Plan, s: State, step: Step)
    requires p.Valid() && Enabled(p, s, step)
    ensures match EngineStep(p, s, step)
            case None => Apply(p, s, step).engine == s.engine
            case Some(st) => Engine.Enabled(s.engine, st) && Apply(p, s, step).engine == Engine.Apply(s.engine, st)
    ensures CarriesOn(p, step) <==>
              EngineStep(p, s, step).Some? && var st := EngineStep(p, s, step).value;
              st.Do? && st.rid == p.Rid() && Internal(st.act)
  {}

  lemma SendStepWork(p: Plan, s: State, step: Step)
    requires p.Valid() && Inv(s.engine) && Enabled(p, s, step) && HasShare(s.engine, p.Rid())
    ensures var t := Apply(p, s, step);
            && HasShare(t.engine, p.Rid())
            && WorkAt(t.engine, p.Rid()) + (if CarriesOn(p, step) then 1 else 0)
               <= WorkAt(s.engine, p.Rid()) + 6 * (|t.nic.delivered| - |s.nic.delivered|)
  {
    EngineStepIs(p, s, step);
    if EngineStep(p, s, step).Some? {
      StepWork(s.engine, EngineStep(p, s, step).value, p.Rid());
    }
  }

  lemma BeginsQuiet(p: Plan, s: State, before: Engine.State, w: nat)
    requires p.Valid() && Inv(before) && Begins(p, s, before, w) && HasShare(s.engine, p.Rid())
    ensures WorkAt(s.engine, p.Rid()) == 0
  {
    AttachedShare(before.workers[w], SendBatch(p.N(), p.serverKey), p.Rid(), p.Rid());
    assert Engine.Proj(before.workers[w], p.Rid()) == NOTHING;
  }

  lemma RunBeginsQuiet(p: Plan, states: seq<State>, steps: seq<Step>)
    requires p.Valid() && IsRun(p, states, steps)
    ensures HasShare(states[0].engine, p.Rid()) && WorkAt(states[0].engine, p.Rid()) == 0
  {
    RunHolds(p, states, steps, 0);
    var before, w :| Inv(before) && Begins(p, states[0], before, w);
    BeginsQuiet(p, states[0], before, w);
  }

  lemma RunStepWork(p: Plan, states: seq<State>, steps: seq<Step>, k: nat)
    requires p.Valid() && IsRun(p, states, steps) && k < |steps|
    ensures WorkAt(states[k + 1].engine, p.Rid()) + (if CarriesOn(p, steps[k]) then 1 else 0)
            <= WorkAt(states[k].engine, p.Rid()) + 6 * (|states[k + 1].nic.delivered| - |states[k].nic.delivered|)
  {
    RunHolds(p, states, steps, k);
    SendStepWork(p, states[k], steps[k]);
  }

  lemma {:induction false} SendWork(p: Plan, states: seq<State>, steps: seq<Step>, n: nat)
    requires p.Valid() && IsRun(p, states, steps) && n <= |steps|
    ensures StepsCarriedOn(p, steps, n) + WorkAt(states[n].engine, p.Rid()) <= 6 * |states[n].nic.delivered|
  {
    if n > 0 {
      SendWork(p, states, steps, n - 1);
      RunStepWork(p, states, steps, n - 1);
    } else {
      RunBeginsQuiet(p, states, steps);
    }
  }

  // Over a whole run a send is carried on at most six times for each write that completed, so at
  // most 6n times, and when that is used up it rests.
  lemma SendSettles(p: Plan, states: seq<State>, steps: seq<Step>, n: nat)
    requires p.Valid() && IsRun(p, states, steps) && n <= |steps|
    ensures HasShare(states[n].engine, p.Rid()) && |states[n].nic.delivered| <= p.N()
    ensures StepsCarriedOn(p, steps, n) + WorkAt(states[n].engine, p.Rid()) <= 6 * |states[n].nic.delivered|
    ensures StepsCarriedOn(p, steps, n) == 6 * |states[n].nic.delivered| ==> Quiet(ShareOf(states[n].engine, p.Rid()))
  {
    SendWork(p, states, steps, n);
    RunHolds(p, states, steps, n);
    QuietIffNoWork(ShareOf(states[n].engine, p.Rid()));
  }

  // A step that carries on another request at the worker of the send.
  predicate CarriesOnOther(p: Plan, home: nat, step: Step) {
    step.Other? && step.step.Do? && step.step.rid != p.Rid() && step.step.w == home && Internal(step.step.act)
  }

  // As long as it does not rest the send, or what is first at its worker, can be carried on.
  lemma SendCanGoOn(p: Plan, states: seq<State>, steps: seq<Step>, n: nat)
    requires p.Valid() && IsRun(p, states, steps) && n <= |steps|
    requires HasShare(states[n].engine, p.Rid()) && !Quiet(ShareOf(states[n].engine, p.Rid()))
    ensures var home := states[n].engine.reqs[p.Rid()].home;
            exists step :: Enabled(p, states[n], step) && (CarriesOn(p, step) || CarriesOnOther(p, home, step))
  {
    RunHolds(p, states, steps, n);
    EngineStepCarriesOn(p, states[n]);
  }

  lemma EngineStepCarriesOn(p: Plan, s: State)
    requires p.Valid() && Inv(s.engine) && HasShare(s.engine, p.Rid()) && !Quiet(ShareOf(s.engine, p.Rid()))
    ensures var home := s.engine.reqs[p.Rid()].home;
            exists step :: Enabled(p, s, step) && (CarriesOn(p, step) || CarriesOnOther(p, home, step))
  {
    var home := s.engine.reqs[p.Rid()].home;
    NotQuietCanGoOn(s.engine, p.Rid());
    var r: Word, act: Engine.Act :| Internal(act) && Engine.Enabled(s.engine, Engine.Do(r, home, act));
    var step := if r == p.Rid() && act.RunBody? then Body(home, 0, 0) else Other(Engine.Do(r, home, act));
    assert Enabled(p, s, step) && (CarriesOn(p, step) || CarriesOnOther(p, home, step));
  }
}
