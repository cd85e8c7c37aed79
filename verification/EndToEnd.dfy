/** A sender and a receiver together: the announcements the sender's card puts on the wire are
    the completions that wake the receiver. */
module EndToEnd {
  import opened Codec
  import opened Lists
  import opened PoolSpec
  import opened Chunks
  import opened Tasks
  import Engine
  import opened Delivery
  import opened EngineInvariant
  import opened EngineProgress
  import opened EngineRuns
  import Send = SendPipeline
  import opened SendTheorems

  // The receiver runs an engine of its own, with the recv of the same transfer registered.
  // `arrived` is history: the chunks whose announcement arrived after the recv was published.
  datatype State = State(send: Send.State, recv: Engine.State, arrived: set<nat>)

  datatype Step =
    | Sender(sent: Send.Step)
    | Receiver(step: Engine.Step)         // anything the receiver does by itself
    | Arrival(w: nat, k: nat)             // announcement k arrives, perhaps again, perhaps out of order
    | Stray(w: nat, data: Word)           // a completion arrives that no recv task waits for

  function Rid(p: Send.Plan): Word {
    Word(p.clientKey)
  }

  function Key(p: Send.Plan, i: nat): Word
    requires p.Valid() && i < p.N()
  {
    RecvKey(p.N(), p.clientKey, i)
  }

  ghost predicate IsKey(p: Send.Plan, data: Word)
    requires p.Valid()
  {
    exists i: nat | i < p.N() :: data == Key(p, i)
  }

  function Lookup(p: Send.Plan, w: nat, data: Word): Engine.Step {
    Engine.Do(Rid(p), w, Engine.WakeLookup(data))
  }

  // What the receiver makes of an announcement that arrives.
  function Decoded(p: Send.Plan, post: Send.Post): Wakeup
    requires p.Valid() && post.Notify? && post.chunk < p.N()
  {
    OnReceive(Send.Wire(p, post).imm)
  }

  ghost predicate Enabled(p: Send.Plan, s: State, step: Step)
    requires p.Valid()
  {
    match step
    case Sender(st) => Send.Enabled(p, s.send, st)
    case Receiver(st) => Engine.Enabled(s.recv, st) && (st.rid == Rid(p) ==> st.Do? && !st.act.WakeLookup?)
    case Arrival(w, k) =>
      k < |s.send.nic.posted| && s.send.nic.posted[k].Notify? && s.send.nic.posted[k].chunk < p.N()
      && w < |s.recv.workers| && Decoded(p, s.send.nic.posted[k]).WakeUp?
      && Decoded(p, s.send.nic.posted[k]).rid in s.recv.reqs
    case Stray(w, data) => !IsKey(p, data) && Engine.Enabled(s.recv, Lookup(p, w, data))
  }

  ghost function Apply(p: Send.Plan, s: State, step: Step): State
    requires p.Valid() && Enabled(p, s, step)
  {
    match step
    case Sender(st) => s.(send := Send.Apply(p, s.send, st))
    case Receiver(st) => s.(recv := Engine.Apply(s.recv, st))
    case Arrival(w, k) =>
      var wakeup := Decoded(p, s.send.nic.posted[k]);
      var published := s.recv.reqs[wakeup.rid].published;
      s.(recv := Engine.Apply(s.recv, Engine.Do(wakeup.rid, w, Engine.WakeLookup(wakeup.data))),
         arrived := if published then s.arrived + {s.send.nic.posted[k].chunk} else s.arrived)
    case Stray(w, data) => s.(recv := Engine.Apply(s.recv, Lookup(p, w, data)))
  }

  // The recv is registered, in any state of the receiver, and then the send.
  ghost predicate Begins(p: Send.Plan, s: State)
    requires p.Valid()
  {
    && (exists before, w :: Inv(before) && Send.Begins(p, s.send, before, w))
    && s.arrived == {}
    && exists before, w: nat :: Inv(before) && RecvBegins(p, s.recv, before, w)
  }

  predicate RecvBegins(p: Send.Plan, recv: Engine.State, before: Engine.State, w: nat)
    requires p.Valid()
  {
    var attach := Engine.Attach(Rid(p), w, RecvBatch(p.N(), p.clientKey), false, None);
    Engine.Enabled(before, attach) && recv == Engine.Apply(before, attach)
  }

  ghost predicate IsRun(p: Send.Plan, states: seq<State>, steps: seq<Step>)
    requires p.Valid()
  {
    && |states| == |steps| + 1 && Begins(p, states[0])
    && forall i | 0 <= i < |steps| :: Enabled(p, states[i], steps[i]) && states[i + 1] == Apply(p, states[i], steps[i])
  }

  // ----- Invariant: the key of a recv task reaches the receiver's engine only by an announcement that
  // arrived after the recv was published; one that comes earlier finds no context and is lost.

  ghost predicate Backed(p: Send.Plan, known: set<nat>, data: Word)
    requires p.Valid()
  {
    forall i: nat | i < p.N() && data == Key(p, i) :: i in known
  }

  ghost predicate Heard(p: Send.Plan, known: set<nat>, c: Engine.Cell)
    requires p.Valid()
  {
    && (forall i | 0 <= i < |c.req.wakers| :: Backed(p, known, c.req.wakers[i].data))
    && (forall k | k in c.worker.pending :: Backed(p, known, k.data))
    && (forall d | d in c.req.flow.log :: Backed(p, known, d))
  }

  // Only what was announced can arrive.
  ghost predicate Announced(posted: seq<Send.Post>, arrived: set<nat>) {
    forall i | i in arrived :: Send.Notify(i) in posted
  }

  ghost predicate Holds(p: Send.Plan, s: State, mem: Memory)
    requires p.Valid()
  {
    && Send.Holds(p, s.send, mem)
    && Inv(s.recv) && Rid(p) in s.recv.reqs && s.recv.reqs[Rid(p)].home < |s.recv.workers|
    && s.recv.reqs[Rid(p)].batch == RecvBatch(p.N(), p.clientKey)
    && Announced(s.send.nic.posted, s.arrived)
    && Heard(p, s.arrived, ShareOf(s.recv, Rid(p)))
    && Kept(p, s.arrived, ShareOf(s.recv, Rid(p)))
  }

  // ----- And until a cancel, what arrived is on its way or consumed.

  predicate Carried(c: Engine.Cell, rid: Word, data: Word) {
    data in c.req.flow.log || Wake(rid, data) in c.worker.pending || Engine.Waker(c.req.home, data) in c.req.wakers
  }

  ghost predicate Kept(p: Send.Plan, arrived: set<nat>, c: Engine.Cell)
    requires p.Valid()
  {
    forall i | i in arrived :: i < p.N() && (c.req.flow.cut.None? ==> Carried(c, Rid(p), Key(p, i)))
  }

  lemma WithoutKeeps<T>(s: seq<T>, i: nat, x: T)
    requires i < |s| && x in s && x != s[i]
    ensures x in Engine.Without(s, i)
  {
    var k :| 0 <= k < |s| && s[k] == x;
    assert Engine.Without(s, i)[if k < i then k else k - 1] == x;
  }

  lemma PushKeepsCarried(c: Engine.Cell, rid: Word, i: nat, data: Word)
    requires Carried(c, rid, data) && i < |c.req.wakers|
    ensures Carried(Engine.DoWakePush(c, rid, i), rid, data)
  {
    var waker := Engine.Waker(c.req.home, data);
    if waker in c.req.wakers && waker != c.req.wakers[i] {
      WithoutKeeps(c.req.wakers, i, waker);
    }
  }

  lemma PopKeepsCarried(c: Engine.Cell, rid: Word, data: Word)
    requires Carried(c, rid, data) && c.worker.pending != [] && c.req.flow.cut.None?
    ensures Carried(Engine.DoPop(c, rid), rid, data)
  {
    if Wake(rid, data) in c.worker.pending && Wake(rid, data) != c.worker.pending[0] {
      assert Wake(rid, data) in c.worker.pending[1..];
    }
  }

  lemma LookupKeepsCarried(c: Engine.Cell, rid: Word, more: Word, data: Word)
    requires Carried(c, rid, data)
    ensures Carried(Engine.DoWakeLookup(c, more), rid, data)
  {}

  lemma ActKeepsCarried(c: Engine.Cell, rid: Word, w: nat, act: Engine.Act, data: Word)
    requires Carried(c, rid, data) && c.req.flow.cut.None? && Engine.Can(c, rid, w, act) && !act.CancelRemove?
    ensures Carried(Engine.Local(c, rid, w, act), rid, data)
  {
    if act.WakePush? {
      PushKeepsCarried(c, rid, act.i, data);
    } else if act.Pop? {
      PopKeepsCarried(c, rid, data);
    } else if act.WakeLookup? {
      LookupKeepsCarried(c, rid, act.data, data);
    } else {
      NoWakeupMoves(c, rid, w, act);
    }
  }

  // A cut is never undone, and a removal makes one.
  lemma CutOnlyComes(c: Engine.Cell, rid: Word, w: nat, act: Engine.Act)
    requires Engine.Can(c, rid, w, act) && Engine.Local(c, rid, w, act).req.flow.cut.None?
    ensures c.req.flow.cut.None? && !act.CancelRemove?
  {
    if !MovesWakeups(act) {
      NoWakeupMoves(c, rid, w, act);
    }
  }

  lemma ActKeepsKept(p: Send.Plan, arrived: set<nat>, c: Engine.Cell, w: nat, act: Engine.Act)
    requires p.Valid() && Kept(p, arrived, c) && Engine.Can(c, Rid(p), w, act)
    ensures Kept(p, arrived, Engine.Local(c, Rid(p), w, act))
  {
    if Engine.Local(c, Rid(p), w, act).req.flow.cut.None? {
      CutOnlyComes(c, Rid(p), w, act);
      forall i | i in arrived ensures Carried(Engine.Local(c, Rid(p), w, act), Rid(p), Key(p, i)) {
        ActKeepsCarried(c, Rid(p), w, act, Key(p, i));
      }
    }
  }

  // An announcement that finds no context any more finds its task run.
  lemma ArrivalIsCarried(p: Send.Plan, c: Engine.Cell, i: nat)
    requires p.Valid() && i < p.N() && CellInv(c, Rid(p)) && c.req.batch == RecvBatch(p.N(), p.clientKey)
    requires c.req.published && c.req.flow.cut.None?
    ensures Carried(Engine.DoWakeLookup(c, Key(p, i)), Rid(p), Key(p, i))
  {
    if c.ctx.None? {
      var batch, log := c.req.batch, c.req.flow.log;
      RecvBatchIsKeyed(p);
      KeyedRest(batch, Rid(p), log);
      assert batch[i] in batch;
      DropMembers(batch, KeyIn(log), batch[i]);
    }
  }

  lemma PushKeepsHeard(p: Send.Plan, known: set<nat>, c: Engine.Cell, rid: Word, i: nat)
    requires p.Valid() && Heard(p, known, c) && i < |c.req.wakers|
    ensures Heard(p, known, Engine.DoWakePush(c, rid, i))
  {}

  lemma PopKeepsHeard(p: Send.Plan, known: set<nat>, c: Engine.Cell, rid: Word)
    requires p.Valid() && Heard(p, known, c) && c.worker.pending != []
    ensures Heard(p, known, Engine.DoPop(c, rid))
  {
    assert c.worker.pending[0] in c.worker.pending;
  }

  lemma RemoveKeepsHeard(p: Send.Plan, known: set<nat>, c: Engine.Cell, rid: Word, j: nat)
    requires p.Valid() && Heard(p, known, c) && j < |c.req.cancels|
    ensures Heard(p, known, Engine.DoRemove(c, rid, j))
  {
    forall k | k in Drop(c.worker.pending, WakeOf(rid)) ensures Backed(p, known, k.data) {
      DropMembers(c.worker.pending, WakeOf(rid), k);
    }
  }

  lemma LookupKeepsHeard(p: Send.Plan, known: set<nat>, c: Engine.Cell, data: Word)
    requires p.Valid() && Heard(p, known, c) && (c.ctx.Some? ==> Backed(p, known, data))
    ensures Heard(p, known, Engine.DoWakeLookup(c, data))
  {}

  lemma SameWakeupsKeepHeard(p: Send.Plan, known: set<nat>, c: Engine.Cell, d: Engine.Cell)
    requires p.Valid() && Heard(p, known, c) && SameWakeups(c, d)
    ensures Heard(p, known, d)
  {}

  lemma ActKeepsHeard(p: Send.Plan, known: set<nat>, c: Engine.Cell, rid: Word, w: nat, act: Engine.Act)
    requires p.Valid() && Heard(p, known, c) && Engine.Can(c, rid, w, act)
    requires act.WakeLookup? && c.ctx.Some? ==> Backed(p, known, act.data)
    ensures Heard(p, known, Engine.Local(c, rid, w, act))
  {
    if act.WakePush? {
      PushKeepsHeard(p, known, c, rid, act.i);
    } else if act.Pop? {
      PopKeepsHeard(p, known, c, rid);
    } else if act.CancelRemove? {
      RemoveKeepsHeard(p, known, c, rid, act.j);
    } else if act.WakeLookup? {
      LookupKeepsHeard(p, known, c, act.data);
    } else {
      NoWakeupMoves(c, rid, w, act);
      SameWakeupsKeepHeard(p, known, c, Engine.Local(c, rid, w, act));
    }
  }

  predicate SameWakeups(c: Engine.Cell, d: Engine.Cell) {
    && d.req.wakers == c.req.wakers && d.worker.pending == c.worker.pending
    && d.req.flow == c.req.flow && d.req.home == c.req.home
  }

  predicate MovesWakeups(act: Engine.Act) {
    act.WakeLookup? || act.WakePush? || act.Pop? || act.CancelRemove?
  }

  lemma RunMovesNoWakeup(c: Engine.Cell, rid: Word, w: nat, act: Engine.Act)
    requires Engine.Can(c, rid, w, act)
    requires act.RunBody? || act.NoteStatus? || act.MarkSync? || act.SettleContext? || act.Publish? || act.Return?
    ensures SameWakeups(c, Engine.Local(c, rid, w, act))
  {}

  lemma CallerMovesNoWakeup(c: Engine.Cell, rid: Word, w: nat, act: Engine.Act)
    requires Engine.Can(c, rid, w, act)
    requires act.CancelLookup? || act.CancelDeduct? || act.Block? || act.WaitEnds? || act.CallCancel?
             || act.OwnLookup? || act.AccountCancel? || act.Release?
    ensures SameWakeups(c, Engine.Local(c, rid, w, act))
  {}

  // Only four acts have to do with wakeups.
  lemma NoWakeupMoves(c: Engine.Cell, rid: Word, w: nat, act: Engine.Act)
    requires Engine.Can(c, rid, w, act) && !MovesWakeups(act)
    ensures SameWakeups(c, Engine.Local(c, rid, w, act))
  {
    if act.RunBody? || act.NoteStatus? || act.MarkSync? || act.SettleContext? || act.Publish? || act.Return? {
      RunMovesNoWakeup(c, rid, w, act);
    } else {
      CallerMovesNoWakeup(c, rid, w, act);
    }
  }

  lemma MoreKnownKeepHeard(p: Send.Plan, known: set<nat>, more: set<nat>, c: Engine.Cell)
    requires p.Valid() && Heard(p, known, c) && known <= more
    ensures Heard(p, more, c)
  {}

  lemma MorePostsAnnounce(posted: seq<Send.Post>, more: seq<Send.Post>, arrived: set<nat>)
    requires Announced(posted, arrived) && posted <= more
    ensures Announced(more, arrived)
  {
    forall i | i in arrived ensures Send.Notify(i) in more {
      var k :| 0 <= k < |posted| && posted[k] == Send.Notify(i);
      assert more[k] == posted[k];
    }
  }

  lemma PostsOnlyGrow(p: Send.Plan, s: Send.State, step: Send.Step)
    requires p.Valid() && Send.Enabled(p, s, step)
    ensures s.nic.posted <= Send.Apply(p, s, step).nic.posted
  {}

  // An announcement that arrives carries the key of its chunk and of no other.
  lemma AnnouncementIsBacked(p: Send.Plan, posted: seq<Send.Post>, k: nat)
    requires p.Valid() && k < |posted| && posted[k].Notify? && posted[k].chunk < p.N()
    ensures Decoded(p, posted[k]) == WakeUp(Rid(p), Key(p, posted[k].chunk))
    ensures Backed(p, {posted[k].chunk}, Key(p, posted[k].chunk))
  {
    var i := posted[k].chunk;
    AnnouncementDecodes(p.N(), p.clientKey, i);
    forall j: nat | j < p.N() && Key(p, i) == Key(p, j) ensures i == j {
      RecvKeysDiffer(p.N(), p.clientKey, i, j);
    }
  }

  // A lookup that finds no context may carry anything.
  lemma RecvStepHolds(p: Send.Plan, s: State, mem: Memory, w: nat, act: Engine.Act)
    requires p.Valid() && Holds(p, s, mem) && Engine.Enabled(s.recv, Engine.Do(Rid(p), w, act))
    requires act.WakeLookup? && Rid(p) in s.recv.table ==> Backed(p, s.arrived, act.data)
    ensures Holds(p, s.(recv := Engine.Apply(s.recv, Engine.Do(Rid(p), w, act))), mem)
  {
    StepKeepsInv(s.recv, Engine.Do(Rid(p), w, act));
    OwnShareStep(s.recv, Rid(p), w, act);
    ActKeepsHeard(p, s.arrived, ShareOf(s.recv, Rid(p)), Rid(p), w, act);
    ActKeepsKept(p, s.arrived, ShareOf(s.recv, Rid(p)), w, act);
  }

  lemma UnpublishedIsNotFound(s: Engine.State, rid: Word)
    requires Inv(s) && rid in s.reqs && !s.reqs[rid].published
    ensures rid !in s.table
  {
    ShareInv(s, rid);
  }

  lemma ArrivalIsKept(p: Send.Plan, s: State, mem: Memory, w: nat, i: nat)
    requires p.Valid() && Holds(p, s, mem) && i < p.N()
    requires Engine.Enabled(s.recv, Lookup(p, w, Key(p, i))) && s.recv.reqs[Rid(p)].published
    ensures var t := Engine.Apply(s.recv, Lookup(p, w, Key(p, i)));
            && Rid(p) in t.reqs && t.reqs[Rid(p)].home < |t.workers|
            && (t.reqs[Rid(p)].flow.cut.None? ==> Carried(ShareOf(t, Rid(p)), Rid(p), Key(p, i)))
  {
    var c := ShareOf(s.recv, Rid(p));
    ShareInv(s.recv, Rid(p));
    OwnShareStep(s.recv, Rid(p), w, Engine.WakeLookup(Key(p, i)));
    if c.req.flow.cut.None? {
      ArrivalIsCarried(p, c, i);
    }
  }

  // What an arrival does, with the announcement decoded.
  lemma ArrivalDecoded(p: Send.Plan, s: State, w: nat, k: nat)
    requires p.Valid() && Enabled(p, s, Arrival(w, k))
    ensures var i := s.send.nic.posted[k].chunk;
            && Engine.Enabled(s.recv, Lookup(p, w, Key(p, i))) && Backed(p, {i}, Key(p, i))
            && Apply(p, s, Arrival(w, k))
               == s.(recv := Engine.Apply(s.recv, Lookup(p, w, Key(p, i))),
                     arrived := if s.recv.reqs[Rid(p)].published then s.arrived + {i} else s.arrived)
  {
    AnnouncementIsBacked(p, s.send.nic.posted, k);
  }

  lemma EarlyArrivalHolds(p: Send.Plan, s: State, mem: Memory, w: nat, data: Word)
    requires p.Valid() && Holds(p, s, mem) && Engine.Enabled(s.recv, Lookup(p, w, data))
    requires !s.recv.reqs[Rid(p)].published
    ensures Holds(p, s.(recv := Engine.Apply(s.recv, Lookup(p, w, data))), mem)
  {
    UnpublishedIsNotFound(s.recv, Rid(p));
    RecvStepHolds(p, s, mem, w, Engine.WakeLookup(data));
  }

  lemma LateArrivalHolds(p: Send.Plan, s: State, mem: Memory, w: nat, i: nat)
    requires p.Valid() && Holds(p, s, mem) && i < p.N() && Send.Notify(i) in s.send.nic.posted
    requires Engine.Enabled(s.recv, Lookup(p, w, Key(p, i))) && Backed(p, {i}, Key(p, i))
    requires s.recv.reqs[Rid(p)].published
    ensures Holds(p, State(s.send, Engine.Apply(s.recv, Lookup(p, w, Key(p, i))), s.arrived + {i}), mem)
  {
    var c := ShareOf(s.recv, Rid(p));
    StepKeepsInv(s.recv, Lookup(p, w, Key(p, i)));
    OwnShareStep(s.recv, Rid(p), w, Engine.WakeLookup(Key(p, i)));
    MoreKnownKeepHeard(p, s.arrived, s.arrived + {i}, c);
    ActKeepsHeard(p, s.arrived + {i}, c, Rid(p), w, Engine.WakeLookup(Key(p, i)));
    ActKeepsKept(p, s.arrived, c, w, Engine.WakeLookup(Key(p, i)));
    ArrivalIsKept(p, s, mem, w, i);
  }

  lemma ArrivalHolds(p: Send.Plan, s: State, mem: Memory, w: nat, k: nat)
    requires p.Valid() && Holds(p, s, mem) && Enabled(p, s, Arrival(w, k))
    ensures Holds(p, Apply(p, s, Arrival(w, k)), mem)
  {
    var i := s.send.nic.posted[k].chunk;
    ArrivalDecoded(p, s, w, k);
    if s.recv.reqs[Rid(p)].published {
      LateArrivalHolds(p, s, mem, w, i);
    } else {
      EarlyArrivalHolds(p, s, mem, w, Key(p, i));
    }
  }

  lemma StepHolds(p: Send.Plan, s: State, mem: Memory, step: Step)
    requires p.Valid() && Holds(p, s, mem) && Enabled(p, s, step)
    ensures Holds(p, Apply(p, s, step), mem)
  {
    match step
    case Sender(st) =>
      Send.StepHolds(p, s.send, mem, st);
      PostsOnlyGrow(p, s.send, st);
      MorePostsAnnounce(s.send.nic.posted, Apply(p, s, step).send.nic.posted, s.arrived);
    case Receiver(st) =>
      if st.rid == Rid(p) {
        RecvStepHolds(p, s, mem, st.w, st.act);
      } else {
        StepKeepsInv(s.recv, st);
        OtherShareStep(s.recv, st, Rid(p));
      }
    case Arrival(w, k) => ArrivalHolds(p, s, mem, w, k);
    case Stray(w, data) =>
      RecvStepHolds(p, s, mem, w, Engine.WakeLookup(data));
  }

  lemma RecvBeginHolds(p: Send.Plan, recv: Engine.State, before: Engine.State, w: nat)
    requires p.Valid() && Inv(before) && RecvBegins(p, recv, before, w)
    ensures Inv(recv) && Rid(p) in recv.reqs && recv.reqs[Rid(p)].home < |recv.workers|
    ensures recv.reqs[Rid(p)].batch == RecvBatch(p.N(), p.clientKey) && Heard(p, {}, ShareOf(recv, Rid(p)))
  {
    StepKeepsInv(before, Engine.Attach(Rid(p), w, RecvBatch(p.N(), p.clientKey), false, None));
    assert Engine.Proj(before.workers[w], Rid(p)) == NOTHING;
  }

  lemma BeginHolds(p: Send.Plan, s: State)
    requires p.Valid() && Begins(p, s)
    ensures Holds(p, s, s.send.nic.mem)
  {
    var b, v :| Inv(b) && Send.Begins(p, s.send, b, v);
    Send.BeginHolds(p, s.send, b, v);
    var before, w: nat :| Inv(before) && RecvBegins(p, s.recv, before, w);
    RecvBeginHolds(p, s.recv, before, w);
  }

  lemma {:induction false} RunHolds(p: Send.Plan, states: seq<State>, steps: seq<Step>, n: nat)
    requires p.Valid() && IsRun(p, states, steps) && n <= |steps|
    ensures Holds(p, states[n], states[0].send.nic.mem)
  {
    if n == 0 {
      BeginHolds(p, states[0]);
    } else {
      RunHolds(p, states, steps, n - 1);
      StepHolds(p, states[n - 1], states[0].send.nic.mem, steps[n - 1]);
    }
  }

  // ----- What the receiver's application sees.

  lemma RecvBatchIsKeyed(p: Send.Plan)
    requires p.Valid()
    ensures Keyed(RecvBatch(p.N(), p.clientKey), Rid(p))
  {
    var batch := RecvBatch(p.N(), p.clientKey);
    forall i, j | 0 <= i < j < |batch| ensures batch[i].key != batch[j].key {
      RecvKeysDiffer(p.N(), p.clientKey, i, j);
    }
  }

  lemma HitIsBacked(p: Send.Plan, s: State, mem: Memory, h: Engine.Hit)
    requires p.Valid() && Holds(p, s, mem) && h in s.recv.reqs[Rid(p)].flow.popped
    ensures h.task.idx < p.N() && h.data == Key(p, h.task.idx) && h.task.idx in s.arrived
    ensures Send.Notify(h.task.idx) in s.send.nic.posted
  {
    var req := s.recv.reqs[Rid(p)];
    ShareInv(s.recv, Rid(p));
    RecvBatchIsKeyed(p);
    KeyedHits(req.batch, Rid(p), req.flow.log, h);
    assert Backed(p, s.arrived, h.data);
  }

  // Whatever arrives and in whatever order: a recv task that a worker takes is taken with the very
  // immediate it expects, which names the request and the chunk and tells whether it is the last one;
  // and the bytes of its chunk are already at the destination if the sender's card reported success
  // for their write.
  lemma TakenTaskHasItsData(p: Send.Plan, states: seq<State>, steps: seq<Step>, n: nat, h: Engine.Hit, at: int)
    requires p.Valid() && IsRun(p, states, steps) && n <= |steps|
    requires Rid(p) in states[n].recv.reqs && h in states[n].recv.reqs[Rid(p)].flow.popped
    ensures h.task.idx < p.N() && h.data == Key(p, h.task.idx)
    ensures h.task.idx in states[n].arrived && h.task.idx in states[n].send.nic.delivered
    ensures RequestIdOf(h.data.bits) == p.clientKey && ChunkIdOf(h.data.bits) as int == h.task.idx
    ensures ChunkTypeOf(h.data.bits) == 1 <==> h.task.idx == p.N() - 1
    ensures var c := p.Chunks()[h.task.idx];
            p.Apart() && h.task.idx in states[n].send.nic.clean && c.dst <= at < c.dst + c.len
            ==> states[n].send.nic.mem(Addr(p.route.to, at)) == states[0].send.nic.mem(p.Source(at))
  {
    var mem := states[0].send.nic.mem;
    RunHolds(p, states, steps, n);
    HitIsBacked(p, states[n], mem, h);
    AnnouncedIsDelivered(p, states[n].send.nic, mem);
    ChunkReadsBack(p.N(), p.clientKey, h.task.idx);
    var c := p.Chunks()[h.task.idx];
    if p.Apart() && h.task.idx in states[n].send.nic.clean && c.dst <= at < c.dst + c.len {
      CleanBytes(p, states[n].send.nic, mem, h.task.idx, at);
    }
  }

  // An announcement on the wire can arrive at any worker at any time, and one that finds the recv's
  // context leaves a waker that brings the key of its chunk to the worker the recv is bound to.
  lemma AnnouncementCanArrive(p: Send.Plan, states: seq<State>, steps: seq<Step>, n: nat, w: nat, k: nat)
    requires p.Valid() && IsRun(p, states, steps) && n <= |steps| && w < |states[n].recv.workers|
    requires k < |states[n].send.nic.posted| && states[n].send.nic.posted[k].Notify?
    ensures Enabled(p, states[n], Arrival(w, k)) && Rid(p) in states[n].recv.reqs
    ensures var i, after := states[n].send.nic.posted[k].chunk, Apply(p, states[n], Arrival(w, k));
            Rid(p) in states[n].recv.table ==>
              && i < p.N() && i in after.arrived && Rid(p) in after.recv.reqs
              && after.recv.reqs[Rid(p)].wakers
                 == states[n].recv.reqs[Rid(p)].wakers
                    + [Engine.Waker(states[n].recv.reqs[Rid(p)].home, Key(p, i))]
  {
    RunHolds(p, states, steps, n);
    ArrivalFinds(p, states[n], states[0].send.nic.mem, w, k);
  }

  lemma ArrivalFinds(p: Send.Plan, s: State, mem: Memory, w: nat, k: nat)
    requires p.Valid() && Holds(p, s, mem) && w < |s.recv.workers|
    requires k < |s.send.nic.posted| && s.send.nic.posted[k].Notify?
    ensures Enabled(p, s, Arrival(w, k))
    ensures var i, after := s.send.nic.posted[k].chunk, Apply(p, s, Arrival(w, k));
            Rid(p) in s.recv.table ==>
              && i < p.N() && i in after.arrived && Rid(p) in after.recv.reqs
              && after.recv.reqs[Rid(p)].wakers
                 == s.recv.reqs[Rid(p)].wakers + [Engine.Waker(s.recv.reqs[Rid(p)].home, Key(p, i))]
  {
    ArrivalIsEnabled(p, s, mem, w, k);
    ArrivalDecoded(p, s, w, k);
    if Rid(p) in s.recv.table {
      LookupLeavesWaker(s.recv, Rid(p), w, Key(p, s.send.nic.posted[k].chunk));
    }
  }

  lemma ArrivalIsEnabled(p: Send.Plan, s: State, mem: Memory, w: nat, k: nat)
    requires p.Valid() && Holds(p, s, mem) && w < |s.recv.workers|
    requires k < |s.send.nic.posted| && s.send.nic.posted[k].Notify?
    ensures s.send.nic.posted[k].chunk < p.N() && Enabled(p, s, Arrival(w, k))
  {
    assert s.send.nic.posted[k] == Send.Script(k);
    AnnouncementIsBacked(p, s.send.nic.posted, k);
  }

  lemma LookupLeavesWaker(s: Engine.State, rid: Word, w: nat, data: Word)
    requires Inv(s) && rid in s.reqs && rid in s.table && w < |s.workers|
    ensures Engine.Enabled(s, Engine.Do(rid, w, Engine.WakeLookup(data))) && s.reqs[rid].published
    ensures var after := Engine.Apply(s, Engine.Do(rid, w, Engine.WakeLookup(data)));
            rid in after.reqs
            && after.reqs[rid].wakers == s.reqs[rid].wakers + [Engine.Waker(s.reqs[rid].home, data)]
  {
    ShareInv(s, rid);
  }

  // So can anything else that names the recv.
  lemma StrayCanArrive(p: Send.Plan, states: seq<State>, steps: seq<Step>, n: nat, w: nat, data: Word)
    requires p.Valid() && IsRun(p, states, steps) && n <= |steps| && w < |states[n].recv.workers| && !IsKey(p, data)
    ensures Enabled(p, states[n], Stray(w, data))
  {
    RunHolds(p, states, steps, n);
    LookupCanBeMade(states[n].recv, Rid(p), w, data);
  }

  lemma LookupCanBeMade(s: Engine.State, rid: Word, w: nat, data: Word)
    requires rid in s.reqs && w < |s.workers|
    ensures Engine.Enabled(s, Engine.Do(rid, w, Engine.WakeLookup(data)))
  {}

  // A recv that does not rest, or what is first at its worker, can be carried on in the joint machine.
  lemma ReceiverCanGoOn(p: Send.Plan, states: seq<State>, steps: seq<Step>, n: nat)
    requires p.Valid() && IsRun(p, states, steps) && n <= |steps|
    requires HasShare(states[n].recv, Rid(p)) && !Quiet(ShareOf(states[n].recv, Rid(p)))
    ensures exists r: Word, act: Engine.Act ::
              Internal(act) && Enabled(p, states[n], Receiver(Engine.Do(r, states[n].recv.reqs[Rid(p)].home, act)))
  {
    RunHolds(p, states, steps, n);
    InternalReceiverStep(p, states[n]);
  }

  lemma InternalReceiverStep(p: Send.Plan, s: State)
    requires p.Valid() && Inv(s.recv) && HasShare(s.recv, Rid(p)) && !Quiet(ShareOf(s.recv, Rid(p)))
    ensures exists r: Word, act: Engine.Act ::
              Internal(act) && Enabled(p, s, Receiver(Engine.Do(r, s.recv.reqs[Rid(p)].home, act)))
  {
    var home := s.recv.reqs[Rid(p)].home;
    NotQuietCanGoOn(s.recv, Rid(p));
    var r: Word, act: Engine.Act :| Internal(act) && Engine.Enabled(s.recv, Engine.Do(r, home, act));
    assert Internal(act) && Enabled(p, s, Receiver(Engine.Do(r, home, act)));
  }

  // When the receiver's wait returns 0, every write of the sender has completed; if all reported
  // success the whole transfer is there and nothing else has changed.
  lemma ReceivedMeansTransferred(p: Send.Plan, states: seq<State>, steps: seq<Step>, n: nat, x: Addr)
    requires p.Valid() && IsRun(p, states, steps) && n <= |steps| && Rid(p) in states[n].recv.reqs
    requires var stage := states[n].recv.reqs[Rid(p)].stage; stage.Released? && stage.returned.Success?
    ensures |states[n].send.nic.delivered| == p.N()
    ensures p.Apart() && AllClean(states[n].send.nic)
            ==> states[n].send.nic.mem(x) == ByteAfter(states[0].send.nic.mem, p.route, p.src, p.dst, p.len, x)
  {
    RunHolds(p, states, steps, n);
    AllTakenMeansAllAnnounced(p, states[n], states[0].send.nic.mem);
    AllDeliveredAllThere(p, states[n].send.nic, states[0].send.nic.mem, x);
  }

  lemma AllTakenMeansAllAnnounced(p: Send.Plan, s: State, mem: Memory)
    requires p.Valid() && Holds(p, s, mem)
    requires var stage := s.recv.reqs[Rid(p)].stage; stage.Released? && stage.returned.Success?
    ensures |s.send.nic.delivered| == p.N()
  {
    ShareInv(s.recv, Rid(p));
    CompletedMeansTaken(p, s, mem, p.N() - 1);
    AnnouncedIsDelivered(p, s.send.nic, mem);
  }

  // Once every announcement has arrived, whatever came between and in whatever order, a receiver
  // at rest that saw no failed callback and no cancel has completed all its tasks.
  lemma AllArrivedMeansReceived(p: Send.Plan, states: seq<State>, steps: seq<Step>, n: nat)
    requires p.Valid() && IsRun(p, states, steps) && n <= |steps|
    requires forall i: nat | i < p.N() :: i in states[n].arrived
    requires Rid(p) in states[n].recv.reqs && states[n].recv.reqs[Rid(p)].home < |states[n].recv.workers|
    requires Quiet(ShareOf(states[n].recv, Rid(p)))
    requires var req := states[n].recv.reqs[Rid(p)]; req.flow.cut.None? && req.tally.failed == 0
    ensures var req := states[n].recv.reqs[Rid(p)];
            req.sync.completed == req.sync.total == p.N()
  {
    RunHolds(p, states, steps, n);
    ReceivedNow(p, states[n], states[0].send.nic.mem);
  }

  lemma ReceivedNow(p: Send.Plan, s: State, mem: Memory)
    requires p.Valid() && Holds(p, s, mem) && Quiet(ShareOf(s.recv, Rid(p)))
    requires forall i: nat | i < p.N() :: i in s.arrived
    requires var req := s.recv.reqs[Rid(p)]; req.flow.cut.None? && req.tally.failed == 0
    ensures s.recv.reqs[Rid(p)].sync.completed == s.recv.reqs[Rid(p)].sync.total == p.N()
  {
    ShareInv(s.recv, Rid(p));
    RestingReceiver(p, s.arrived, ShareOf(s.recv, Rid(p)));
  }

  lemma ArrivedIsLogged(p: Send.Plan, arrived: set<nat>, c: Engine.Cell, t: Task)
    requires p.Valid() && t in RecvBatch(p.N(), p.clientKey)
    requires Kept(p, arrived, c) && forall i: nat | i < p.N() :: i in arrived
    requires Quiet(c) && c.req.flow.cut.None?
    ensures t.key.Some? && t.key.value in c.req.flow.log
  {
    var batch := RecvBatch(p.N(), p.clientKey);
    var i :| 0 <= i < |batch| && batch[i] == t;
    assert i in arrived;
    assert Carried(c, Rid(p), Key(p, i));
  }

  lemma AllRunAllCompleted(p: Send.Plan, c: Engine.Cell)
    requires p.Valid() && SyncLedger(c) && |c.req.flow.popped| == |c.req.batch| == p.N()
    requires c.worker.run.None? && c.req.tally.failed == 0
    ensures c.req.sync.completed == c.req.sync.total == p.N()
  {}

  lemma RestingReceiver(p: Send.Plan, arrived: set<nat>, c: Engine.Cell)
    requires p.Valid() && SyncLedger(c) && FlowInv(c, Rid(p)) && c.req.batch == RecvBatch(p.N(), p.clientKey)
    requires Kept(p, arrived, c) && forall i: nat | i < p.N() :: i in arrived
    requires Quiet(c) && c.req.flow.cut.None? && c.req.tally.failed == 0
    ensures c.req.sync.completed == c.req.sync.total == p.N()
  {
    RecvBatchIsKeyed(p);
    forall t | t in c.req.batch ensures t.key.value in c.req.flow.log {
      ArrivedIsLogged(p, arrived, c, t);
    }
    AllArrivedAllRun(c.req.batch, Rid(p), c.req.flow.log);
    AllRunAllCompleted(p, c);
  }

  // Conversely a receiver that has completed all its tasks has had every announcement arrive after
  // its recv was published. One that came earlier, and not again, is lost for good.
  lemma ReceivedMeansAllArrived(p: Send.Plan, states: seq<State>, steps: seq<Step>, n: nat, i: nat)
    requires p.Valid() && IsRun(p, states, steps) && n <= |steps| && i < p.N() && Rid(p) in states[n].recv.reqs
    requires var sync := states[n].recv.reqs[Rid(p)].sync; sync.completed == sync.total
    ensures i in states[n].arrived && Send.Notify(i) in states[n].send.nic.posted
  {
    RunHolds(p, states, steps, n);
    CompletedMeansTaken(p, states[n], states[0].send.nic.mem, i);
  }

  lemma CompletedMeansTaken(p: Send.Plan, s: State, mem: Memory, i: nat)
    requires p.Valid() && Holds(p, s, mem) && i < p.N()
    requires s.recv.reqs[Rid(p)].sync.completed == s.recv.reqs[Rid(p)].sync.total
    ensures i in s.arrived && Send.Notify(i) in s.send.nic.posted
  {
    var req := s.recv.reqs[Rid(p)];
    ShareInv(s.recv, Rid(p));
    ReplayConserves(req.batch, Rid(p), req.flow.log);
    assert req.batch[i] in multiset(req.batch);
    var k :| 0 <= k < |req.flow.popped| && TasksOf(req.flow.popped)[k] == req.batch[i];
    HitIsBacked(p, s, mem, req.flow.popped[k]);
  }
}
