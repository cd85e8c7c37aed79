/** How a request that has the engine to itself runs through: one wakeup after the other is consumed,
    and each task it selects is run, marked and settled. */
module EngineRounds {
  import opened Codec
  import opened Lists
  import opened PoolSpec
  import opened Completion
  import opened Engine

  // The state in which there is only this request.
  function Only(rid: Word, c: Cell): State {
    State([c.worker], Put(map[], rid, c.ctx), map[rid := c.req])
  }

  lemma CellOfOnly(rid: Word, c: Cell)
    ensures CellOf(Only(rid, c), rid, 0) == c
  {}

  lemma PutBack(rid: Word, c: Cell, d: Cell)
    ensures var s := Only(rid, c);
            State(s.workers[0 := d.worker], Put(s.table, rid, d.ctx), s.reqs[rid := d.req]) == Only(rid, d)
  {
    assert Put(Put(map[], rid, c.ctx), rid, d.ctx) == Put(map[], rid, d.ctx);
  }

  lemma ActOnOnly(rid: Word, c: Cell, act: Act)
    requires Can(c, rid, 0, act)
    ensures Enabled(Only(rid, c), Do(rid, 0, act))
    ensures Apply(Only(rid, c), Do(rid, 0, act)) == Only(rid, Local(c, rid, 0, act))
  {
    CellOfOnly(rid, c);
    PutBack(rid, c, Local(c, rid, 0, act));
  }

  // A batch and the data of the wakeups that come for it, task by task.
  datatype Course = Course(rid: Word, send: bool, batch: seq<Task>, data: seq<Word>) {
    predicate Valid() {
      && |data| == |batch| > 0 && (forall t | t in batch :: t.rid == rid)
      && forall i | 0 <= i < |batch| :: Matching(rid, data[i])(batch[i])
    }
  }

  function HitOf(k: Course, i: nat): Hit
    requires k.Valid() && i < |k.batch|
  {
    Hit(k.batch[i], k.data[i])
  }

  function Hits(k: Course, i: nat): seq<Hit>
    requires k.Valid() && i <= |k.batch|
  {
    seq(i, j requires 0 <= j < i => HitOf(k, j))
  }

  function Zeros(n: nat): seq<int> {
    seq(n, _ => 0)
  }

  // ----- The request between two wakeups: i tasks have been run.

  function CtxAfter(k: Course, i: nat): Option<Context> {
    if i < |k.batch| then Some(Context(0, |k.batch| - i, None)) else None
  }

  function SyncAfter(k: Course, i: nat): Sync {
    Fresh(|k.batch|).(completed := i, requestCompleted := i == |k.batch|)
  }

  function TallyAfter(k: Course, i: nat, fired: seq<Callback>): Tally {
    Tally(Zeros(i), if k.send then Zeros(i) else [], 0, fired, false, 0)
  }

  function FlowAfter(k: Course, i: nat): Flow
    requires k.Valid() && i <= |k.batch|
  {
    Flow(k.data[..i], k.data[..i], Hits(k, i), None, [])
  }

  function NewCell(k: Course): Cell {
    Cell(NewReq(0, k.batch, k.send, None), None, Worker(k.batch, [], None))
  }

  function PublishedCell(k: Course): Cell {
    NewCell(k).(req := NewCell(k).req.(published := true), ctx := CtxAfter(k, 0))
  }

  function ReqAfter(k: Course, i: nat): Req
    requires k.Valid() && i <= |k.batch|
  {
    PublishedCell(k).req.(stage := Holding, sync := SyncAfter(k, i), flow := FlowAfter(k, i),
                          tally := TallyAfter(k, i, if i == |k.batch| then [None] else []))
  }

  function CellAfter(k: Course, i: nat): Cell
    requires k.Valid() && i <= |k.batch|
  {
    Cell(ReqAfter(k, i), CtxAfter(k, i), Worker(k.batch[i..], [], None))
  }

  // ----- And within a round.

  function WokenCell(k: Course, i: nat): Cell
    requires k.Valid() && i < |k.batch|
  {
    Cell(ReqAfter(k, i).(flow := FlowAfter(k, i).(pushed := k.data[..i + 1])), CtxAfter(k, i),
         Worker(k.batch[i..], [Wake(k.rid, k.data[i])], None))
  }

  // The worker has the task in hand and got this far with it.
  function AtBody(k: Course, i: nat, phase: Phase): Cell
    requires k.Valid() && i < |k.batch|
  {
    Cell(ReqAfter(k, i).(flow := FlowAfter(k, i + 1)), CtxAfter(k, i),
         Worker(k.batch[i + 1..], [], Some(Running(HitOf(k, i), phase))))
  }

  function RanCell(k: Course, i: nat): Cell
    requires k.Valid() && i < |k.batch|
  {
    DoRunBody(AtBody(k, i, Popped), 0)
  }

  function NotedCell(k: Course, i: nat): Cell
    requires k.Valid() && i < |k.batch|
  {
    var c := AtBody(k, i, Noted(0));
    c.(req := c.req.(tally := TallyAfter(k, i + 1, [])))
  }

  function MarkedCell(k: Course, i: nat): Cell
    requires k.Valid() && i < |k.batch|
  {
    AtBody(k, i, Marked).(req := NotedCell(k, i).req.(sync := SyncAfter(k, i + 1)))
  }

  function ReleasedCell(k: Course): Cell
    requires k.Valid()
  {
    DoRelease(DoWaitEnds(CellAfter(k, |k.batch|), Success))
  }

  lemma Returning(k: Course)
    requires k.Valid()
    ensures DoReturn(PublishedCell(k), false) == CellAfter(k, 0)
  {
    var d := DoReturn(PublishedCell(k), false);
    assert d.req.flow == FlowAfter(k, 0) && d.req.tally == TallyAfter(k, 0, []) && d.req.sync == SyncAfter(k, 0);
  }

  lemma Pushing(k: Course, i: nat)
    requires k.Valid() && i < |k.batch|
    ensures var c := DoWakeLookup(CellAfter(k, i), k.data[i]);
            Can(c, k.rid, 0, WakePush(0)) && DoWakePush(c, k.rid, 0) == WokenCell(k, i)
  {
    assert Without([Waker(0, k.data[i])], 0) == [];
    assert k.data[..i] + [k.data[i]] == k.data[..i + 1];
  }

  lemma Popping(k: Course, i: nat)
    requires k.Valid() && i < |k.batch|
    ensures DoPop(WokenCell(k, i), k.rid) == AtBody(k, i, Popped)
  {
    var rest := k.batch[i..];
    assert rest[0] == k.batch[i] && rest[1..] == k.batch[i + 1..];
    assert TakeFirst(rest, Matching(k.rid, k.data[i])) == Taken(Some(rest[0]), rest[1..]);
    assert k.data[..i] + [k.data[i]] == k.data[..i + 1] && Hits(k, i) + [HitOf(k, i)] == Hits(k, i + 1);
  }

  lemma RunningBody(k: Course, i: nat)
    requires k.Valid() && i < |k.batch|
    ensures Can(AtBody(k, i, Popped), k.rid, 0, RunBody(0))
    ensures AtBody(k, i, Popped).worker.run.value.hit.task == k.batch[i]
  {
    assert k.batch[i] in k.batch;
  }

  lemma Noting(k: Course, i: nat)
    requires k.Valid() && i < |k.batch|
    ensures Runs(RanCell(k, i).worker, k.rid) && DoNote(RanCell(k, i)) == NotedCell(k, i)
  {
    assert Zeros(i) + [0] == Zeros(i + 1);
  }

  lemma Marking(k: Course, i: nat)
    requires k.Valid() && i < |k.batch|
    ensures Runs(NotedCell(k, i).worker, k.rid) && DoMark(NotedCell(k, i)) == MarkedCell(k, i)
  {
    assert SyncAfter(k, i).Marked(true) == SyncAfter(k, i + 1);
  }

  lemma Settling(k: Course, i: nat)
    requires k.Valid() && i < |k.batch|
    ensures Runs(MarkedCell(k, i).worker, k.rid) && DoSettle(MarkedCell(k, i)) == CellAfter(k, i + 1)
  {
    assert Settled(CtxAfter(k, i)) == CtxAfter(k, i + 1);
  }

  // ----- Any property of cells that the engine's own acts keep holds on the way.

  type Property = Cell -> bool

  predicate Own(act: Act) {
    !act.Return? && !act.WakeLookup? && !act.RunBody?
  }

  ghost predicate Stable(rid: Word, holds: Property) {
    forall c, act | holds(c) && Can(c, rid, 0, act) && Own(act) :: holds(Local(c, rid, 0, act))
  }

  lemma Leads(rid: Word, holds: Property, c: Cell, act: Act, d: Cell)
    requires Stable(rid, holds) && holds(c) && Can(c, rid, 0, act) && Own(act) && Local(c, rid, 0, act) == d
    ensures holds(d)
  {}

  lemma TaskIsTaken(k: Course, holds: Property, i: nat)
    requires k.Valid() && i < |k.batch| && Stable(k.rid, holds) && holds(DoWakeLookup(CellAfter(k, i), k.data[i]))
    ensures holds(AtBody(k, i, Popped))
  {
    Pushing(k, i);
    Leads(k.rid, holds, DoWakeLookup(CellAfter(k, i), k.data[i]), WakePush(0), WokenCell(k, i));
    Popping(k, i);
    Leads(k.rid, holds, WokenCell(k, i), Pop, AtBody(k, i, Popped));
  }

  lemma BodyIsSettled(k: Course, holds: Property, i: nat)
    requires k.Valid() && i < |k.batch| && Stable(k.rid, holds) && holds(RanCell(k, i))
    ensures holds(CellAfter(k, i + 1))
  {
    assert k.batch[i] in k.batch;
    Noting(k, i);
    Leads(k.rid, holds, RanCell(k, i), NoteStatus, NotedCell(k, i));
    Marking(k, i);
    Leads(k.rid, holds, NotedCell(k, i), MarkSync, MarkedCell(k, i));
    Settling(k, i);
    Leads(k.rid, holds, MarkedCell(k, i), SettleContext, CellAfter(k, i + 1));
  }

  lemma Publishing(k: Course, holds: Property)
    requires k.Valid() && Stable(k.rid, holds) && holds(NewCell(k))
    ensures holds(PublishedCell(k)) && Can(PublishedCell(k), k.rid, 0, Return(false))
  {
    Leads(k.rid, holds, NewCell(k), Publish, PublishedCell(k));
  }

  lemma WaitReturnsZero(k: Course, holds: Property)
    requires k.Valid() && Stable(k.rid, holds) && holds(CellAfter(k, |k.batch|))
    ensures holds(ReleasedCell(k)) && ReleasedCell(k).req.stage.Released? && ReleasedCell(k).req.stage.returned.Success?
  {
    var c := CellAfter(k, |k.batch|);
    Leads(k.rid, holds, c, WaitEnds(Success), DoWaitEnds(c, Success));
    Leads(k.rid, holds, DoWaitEnds(c, Success), Release, ReleasedCell(k));
  }

  // A request is submitted to an engine in which there is nothing else.
  lemma Submitting(k: Course)
    requires k.Valid()
    ensures var attach := Attach(k.rid, 0, k.batch, k.send, None);
            Enabled(Start(1), attach) && Apply(Start(1), attach) == Only(k.rid, NewCell(k))
  {
    var start, attach := Start(1), Attach(k.rid, 0, k.batch, k.send, None);
    assert Enabled(start, attach);
    assert [] + k.batch == k.batch;
    assert Apply(start, attach).workers == [NewCell(k).worker];
  }
}
