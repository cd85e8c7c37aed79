/** For every transfer there is a joint run in which sender and receiver both return 0 with everything
    transferred, and one in which both do although no byte ever arrived. */
module EndToEndExamples {
  import opened Chunks
  import opened Tasks
  import Engine
  import opened EngineRuns
  import opened EngineRounds
  import Send = SendPipeline
  import opened SendTheorems
  import SendExamples
  import opened EndToEnd

  ghost predicate Reaches(p: Send.Plan, mem: Memory, s: State)
    requires p.Valid()
  {
    exists states: seq<State>, steps ::
      IsRun(p, states, steps) && states[0].send.nic.mem == mem && states[|steps|] == s
  }

  lemma Longer(p: Send.Plan, states: seq<State>, steps: seq<Step>, step: Step)
    requires p.Valid() && IsRun(p, states, steps) && Enabled(p, states[|steps|], step)
    ensures IsRun(p, states + [Apply(p, states[|steps|], step)], steps + [step])
  {
    var more, moreSteps := states + [Apply(p, states[|steps|], step)], steps + [step];
    assert more[0] == states[0];
    forall i | 0 <= i < |moreSteps|
      ensures Enabled(p, more[i], moreSteps[i]) && more[i + 1] == Apply(p, more[i], moreSteps[i])
    {
      if i < |steps| {
        assert Enabled(p, states[i], steps[i]);
      }
    }
  }

  lemma ReachesBy(p: Send.Plan, mem: Memory, states: seq<State>, steps: seq<Step>, s: State)
    requires p.Valid() && IsRun(p, states, steps) && states[0].send.nic.mem == mem && states[|steps|] == s
    ensures Reaches(p, mem, s)
  {}

  lemma OneMoreStep(p: Send.Plan, mem: Memory, s: State, step: Step)
    requires p.Valid() && Reaches(p, mem, s) && Enabled(p, s, step)
    ensures Reaches(p, mem, Apply(p, s, step))
  {
    var states: seq<State>, steps :|
      IsRun(p, states, steps) && states[0].send.nic.mem == mem && states[|steps|] == s;
    Longer(p, states, steps, step);
    ReachesBy(p, mem, states + [Apply(p, s, step)], steps + [step], Apply(p, s, step));
  }

  // ----- The receiver, with an engine in which there is only its recv.

  function Receiving(p: Send.Plan): (k: Course)
    requires p.Valid()
    ensures k.Valid() && k.rid == Rid(p) && |k.batch| == p.N()
    ensures forall i | 0 <= i < p.N() :: k.data[i] == Key(p, i)
  {
    Course(Rid(p), false, RecvBatch(p.N(), p.clientKey), seq(p.N(), i requires 0 <= i < p.N() => Key(p, i)))
  }

  // The chunks whose announcement has arrived.
  function FirstChunks(i: nat): (chunks: set<nat>)
    ensures forall k: nat :: k in chunks <==> k < i
  {
    if i == 0 then {} else FirstChunks(i - 1) + {i - 1}
  }

  function Joint(p: Send.Plan, send: Send.State, c: Engine.Cell, i: nat): State
    requires p.Valid()
  {
    State(send, Only(Rid(p), c), FirstChunks(i))
  }

  function NoPosts(mem: Memory): Send.Nic {
    Send.Nic([], [], {}, mem, {})
  }

  function Beginning(p: Send.Plan, mem: Memory): State
    requires p.Valid()
  {
    Joint(p, SendExamples.Alone(p, NewCell(SendExamples.Sending(p)), NoPosts(mem)), NewCell(Receiving(p)), 0)
  }

  // Both requests have been released.
  function Ending(p: Send.Plan, nic: Send.Nic): State
    requires p.Valid()
  {
    Joint(p, SendExamples.Alone(p, ReleasedCell(SendExamples.Sending(p)), nic), ReleasedCell(Receiving(p)), p.N())
  }

  // Both waits have returned 0.
  predicate BothSucceeded(p: Send.Plan, s: State)
    requires p.Valid()
  {
    && SendExamples.Succeeded(p, s.send) && Rid(p) in s.recv.reqs
    && s.recv.reqs[Rid(p)].stage.Released? && s.recv.reqs[Rid(p)].stage.returned.Success?
  }

  // And all writes completed, either all with success or all with an error and without moving a byte.
  ghost predicate Transferred(p: Send.Plan, mem: Memory, good: bool, s: State)
    requires p.Valid()
  {
    && BothSucceeded(p, s)
    && |s.send.nic.delivered| == p.N() && (forall i: nat | i < p.N() :: i in s.arrived)
    && (if good then AllClean(s.send.nic) else s.send.nic.clean == {} && s.send.nic.mem == mem)
  }

  lemma BeginningIsReached(p: Send.Plan, mem: Memory)
    requires p.Valid()
    ensures Reaches(p, mem, Beginning(p, mem))
  {
    var start, s := Engine.Start(1), Beginning(p, mem);
    SendExamples.Submitted(p, mem);
    assert Inv(start) && Send.Begins(p, s.send, start, 0);
    Submitting(Receiving(p));
    assert RecvBegins(p, s.recv, start, 0);
    ReachesBy(p, mem, [s], [], s);
  }

  // Any property of joint states that every step keeps; in the end the one of being reached.
  type Property = State -> bool

  ghost predicate Lasting(p: Send.Plan, holds: Property)
    requires p.Valid()
  {
    forall s, step | holds(s) && Enabled(p, s, step) :: holds(Apply(p, s, step))
  }

  lemma Leads(p: Send.Plan, holds: Property, s: State, step: Step, t: State)
    requires p.Valid() && Lasting(p, holds) && holds(s) && Enabled(p, s, step) && Apply(p, s, step) == t
    ensures holds(t)
  {}

  lemma ReachingLasts(p: Send.Plan, mem: Memory) returns (holds: Property)
    requires p.Valid()
    ensures Lasting(p, holds) && forall s :: holds(s) <==> Reaches(p, mem, s)
  {
    holds := s => Reaches(p, mem, s);
    forall s, step | holds(s) && Enabled(p, s, step) ensures holds(Apply(p, s, step)) {
      OneMoreStep(p, mem, s, step);
    }
  }

  lemma ReceiverMoves(p: Send.Plan, holds: Property, send: Send.State, c: Engine.Cell, i: nat, act: Engine.Act)
    requires p.Valid() && Lasting(p, holds) && holds(Joint(p, send, c, i))
    requires Engine.Can(c, Rid(p), 0, act) && !act.WakeLookup?
    ensures holds(Joint(p, send, Engine.Local(c, Rid(p), 0, act), i))
  {
    ActOnOnly(Rid(p), c, act);
    Leads(p, holds, Joint(p, send, c, i), Receiver(Engine.Do(Rid(p), 0, act)),
          Joint(p, send, Engine.Local(c, Rid(p), 0, act), i));
  }

  lemma OwnActsKeep(p: Send.Plan, holds: Property, send: Send.State, i: nat) returns (cells: Engine.Cell -> bool)
    requires p.Valid() && Lasting(p, holds)
    ensures Stable(Rid(p), cells) && forall c :: cells(c) <==> holds(Joint(p, send, c, i))
  {
    cells := c => holds(Joint(p, send, c, i));
    forall c, act | cells(c) && Engine.Can(c, Rid(p), 0, act) && Own(act)
      ensures cells(Engine.Local(c, Rid(p), 0, act))
    {
      ReceiverMoves(p, holds, send, c, i, act);
    }
  }

  lemma Ready(p: Send.Plan, holds: Property, send: Send.State)
    requires p.Valid() && Lasting(p, holds) && holds(Joint(p, send, NewCell(Receiving(p)), 0))
    ensures holds(Joint(p, send, CellAfter(Receiving(p), 0), 0))
  {
    var k := Receiving(p);
    var cells := OwnActsKeep(p, holds, send, 0);
    Publishing(k, cells);
    Returning(k);
    ReceiverMoves(p, holds, send, PublishedCell(k), 0, Engine.Return(false));
  }

  // The sender runs through first, with the receiver waiting.
  lemma SenderRuns(p: Send.Plan, holds: Property, mem: Memory, c: Engine.Cell, good: bool) returns (nic: Send.Nic)
    requires p.Valid() && Lasting(p, holds)
    requires holds(Joint(p, SendExamples.Alone(p, NewCell(SendExamples.Sending(p)), NoPosts(mem)), c, 0))
    ensures holds(Joint(p, SendExamples.Alone(p, ReleasedCell(SendExamples.Sending(p)), nic), c, 0))
    ensures SendExamples.Succeeded(p, SendExamples.Alone(p, ReleasedCell(SendExamples.Sending(p)), nic))
    ensures SendExamples.NicAfter(p, mem, p.N(), good, nic)
  {
    var sends := s => holds(Joint(p, s, c, 0));
    forall s, step | sends(s) && Send.Enabled(p, s, step) ensures sends(Send.Apply(p, s, step)) {
      Leads(p, holds, Joint(p, s, c, 0), Sender(step), Joint(p, Send.Apply(p, s, step), c, 0));
    }
    nic := SendExamples.SendRunsThrough(p, sends, mem, good);
  }

  // The announcement of chunk i arrives.
  lemma ArrivalStep(p: Send.Plan, holds: Property, send: Send.State, c: Engine.Cell, i: nat)
    requires p.Valid() && Lasting(p, holds) && i < p.N() && holds(Joint(p, send, c, i)) && c.req.published
    requires 2 * i + 1 < |send.nic.posted| && send.nic.posted[2 * i + 1] == Send.Notify(i)
    ensures holds(Joint(p, send, Engine.DoWakeLookup(c, Key(p, i)), i + 1))
  {
    AnnouncementIsBacked(p, send.nic.posted, 2 * i + 1);
    ActOnOnly(Rid(p), c, Engine.WakeLookup(Key(p, i)));
    Leads(p, holds, Joint(p, send, c, i), Arrival(0, 2 * i + 1),
          Joint(p, send, Engine.DoWakeLookup(c, Key(p, i)), i + 1));
  }

  lemma OneRound(p: Send.Plan, holds: Property, send: Send.State, i: nat)
    requires p.Valid() && Lasting(p, holds) && i < p.N() && send.nic.posted == SendExamples.PostsAfter(p, p.N())
    requires holds(Joint(p, send, CellAfter(Receiving(p), i), i))
    ensures holds(Joint(p, send, CellAfter(Receiving(p), i + 1), i + 1))
  {
    var k := Receiving(p);
    var cells := OwnActsKeep(p, holds, send, i + 1);
    assert send.nic.posted[2 * i + 1] == Send.Script(2 * i + 1);
    ArrivalStep(p, holds, send, CellAfter(k, i), i);
    TaskIsTaken(k, cells, i);
    RunningBody(k, i);
    ReceiverMoves(p, holds, send, AtBody(k, i, Engine.Popped), i + 1, Engine.RunBody(0));
    BodyIsSettled(k, cells, i);
  }

  lemma {:induction false} Rounds(p: Send.Plan, holds: Property, send: Send.State, i: nat)
    requires p.Valid() && Lasting(p, holds) && i <= p.N() && send.nic.posted == SendExamples.PostsAfter(p, p.N())
    requires holds(Joint(p, send, CellAfter(Receiving(p), 0), 0))
    ensures holds(Joint(p, send, CellAfter(Receiving(p), i), i))
  {
    if i > 0 {
      Rounds(p, holds, send, i - 1);
      OneRound(p, holds, send, i - 1);
    }
  }

  lemma BothRun(p: Send.Plan, holds: Property, mem: Memory, good: bool) returns (nic: Send.Nic)
    requires p.Valid() && Lasting(p, holds) && holds(Beginning(p, mem))
    ensures holds(Ending(p, nic)) && Transferred(p, mem, good, Ending(p, nic))
  {
    var k := Receiving(p);
    Ready(p, holds, Beginning(p, mem).send);
    nic := SenderRuns(p, holds, mem, CellAfter(k, 0), good);
    Rounds(p, holds, Ending(p, nic).send, p.N());
    var cells := OwnActsKeep(p, holds, Ending(p, nic).send, p.N());
    WaitReturnsZero(k, cells);
  }

  // ----- Main results.

  // Any transfer, whatever was in memory before: sender and receiver can both return 0 with every write
  // completed with success; and both can return 0 with none completed with success and not one byte moved.
  lemma TransferReturnsZero(p: Send.Plan, mem: Memory, good: bool) returns (s: State)
    requires p.Valid()
    ensures Reaches(p, mem, s) && Transferred(p, mem, good, s)
  {
    var holds := ReachingLasts(p, mem);
    BeginningIsReached(p, mem);
    var nic := BothRun(p, holds, mem, good);
    s := Ending(p, nic);
  }

  lemma ReachedRun(p: Send.Plan, mem: Memory, s: State) returns (states: seq<State>, steps: seq<Step>)
    requires p.Valid() && Reaches(p, mem, s)
    ensures IsRun(p, states, steps) && states[0].send.nic.mem == mem && states[|steps|] == s
  {
    states, steps :| IsRun(p, states, steps) && states[0].send.nic.mem == mem && states[|steps|] == s;
  }

  lemma CleanRunHasByte(p: Send.Plan, states: seq<State>, steps: seq<Step>, n: nat, at: int)
    requires p.Valid() && p.Apart() && p.dst <= at < p.dst + p.len && IsRun(p, states, steps) && n == |steps|
    requires BothSucceeded(p, states[n]) && AllClean(states[n].send.nic)
    ensures SendExamples.HasByte(p, states[n].send, states[0].send.nic.mem, at)
  {
    ReceivedMeansTransferred(p, states, steps, n, Addr(p.route.to, at));
  }

  lemma CleanZeroHasByte(p: Send.Plan, mem: Memory, s: State, at: int)
    requires p.Valid() && p.Apart() && p.dst <= at < p.dst + p.len
    requires Reaches(p, mem, s) && BothSucceeded(p, s) && AllClean(s.send.nic)
    ensures SendExamples.HasByte(p, s.send, mem, at)
  {
    var states, steps := ReachedRun(p, mem, s);
    CleanRunHasByte(p, states, steps, |steps|, at);
  }

  // A byte that differs before the transfer is there once the receiver's wait has returned 0, if and
  // only if all completions of the sender reported success.
  lemma ReceivedMeansThereIffClean(p: Send.Plan, mem: Memory, at: int, clean: bool)
    requires p.Valid() && p.Apart() && p.dst <= at < p.dst + p.len
    requires mem(Addr(p.route.to, at)) != mem(p.Source(at))
    ensures (forall s | Reaches(p, mem, s) && BothSucceeded(p, s) && (AllClean(s.send.nic) <==> clean) ::
               SendExamples.HasByte(p, s.send, mem, at))
            <==> clean
  {
    if clean {
      forall s | Reaches(p, mem, s) && BothSucceeded(p, s) && AllClean(s.send.nic)
        ensures SendExamples.HasByte(p, s.send, mem, at)
      {
        CleanZeroHasByte(p, mem, s, at);
      }
    } else {
      var s := TransferReturnsZero(p, mem, false);
      assert s.send.nic.delivered[0] in s.send.nic.delivered;
    }
  }
}
