/** For every transfer there is a send that runs through and returns 0, and there is one that does so
    although no byte ever arrived: the code does not look at the status of a completion. */
module SendExamples {
  import opened Codec
  import opened Chunks
  import opened Tasks
  import Engine
  import opened EngineRounds
  import opened EngineRuns
  import opened SendPipeline
  import opened SendTheorems

  ghost predicate Reaches(p: Plan, mem: Memory, s: State)
    requires p.Valid()
  {
    exists states: seq<State>, steps :: IsRun(p, states, steps) && states[0].nic.mem == mem && states[|steps|] == s
  }

  lemma Longer(p: Plan, states: seq<State>, steps: seq<Step>, step: Step)
    requires p.Valid() && IsRun(p, states, steps) && Enabled(p, states[|steps|], step)
    ensures IsRun(p, states + [Apply(p, states[|steps|], step)], steps + [step])
  {
    var more, moreSteps := states + [Apply(p, states[|steps|], step)], steps + [step];
    var before, w :| Inv(before) && Begins(p, states[0], before, w);
    assert more[0] == states[0] && Begins(p, more[0], before, w);
    forall i | 0 <= i < |moreSteps|
      ensures Enabled(p, more[i], moreSteps[i]) && more[i + 1] == Apply(p, more[i], moreSteps[i])
    {
      if i < |steps| {
        assert Enabled(p, states[i], steps[i]);
      }
    }
  }

  lemma ReachesBy(p: Plan, mem: Memory, states: seq<State>, steps: seq<Step>, s: State)
    requires p.Valid() && IsRun(p, states, steps) && states[0].nic.mem == mem && states[|steps|] == s
    ensures Reaches(p, mem, s)
  {}

  lemma OneMoreStep(p: Plan, mem: Memory, s: State, step: Step)
    requires p.Valid() && Reaches(p, mem, s) && Enabled(p, s, step)
    ensures Reaches(p, mem, Apply(p, s, step))
  {
    var states: seq<State>, steps :| IsRun(p, states, steps) && states[0].nic.mem == mem && states[|steps|] == s;
    Longer(p, states, steps, step);
    ReachesBy(p, mem, states + [Apply(p, s, step)], steps + [step], Apply(p, s, step));
  }

  // The state in which the engine has only this send.
  function Alone(p: Plan, c: Engine.Cell, nic: Nic): State
    requires p.Valid()
  {
    State(Only(p.Rid(), c), nic)
  }

  // Any property of states that every step keeps; in the end the one of being reached.
  type Property = State -> bool

  ghost predicate Kept(p: Plan, holds: Property)
    requires p.Valid()
  {
    forall s, step | holds(s) && Enabled(p, s, step) :: holds(Apply(p, s, step))
  }

  lemma Leads(p: Plan, holds: Property, s: State, step: Step, t: State)
    requires p.Valid() && Kept(p, holds) && holds(s) && Enabled(p, s, step) && Apply(p, s, step) == t
    ensures holds(t)
  {}

  // With the card as it is, the engine's own acts keep such a property of its cell.
  lemma OwnActsKeep(p: Plan, holds: Property, nic: Nic) returns (cells: Engine.Cell -> bool)
    requires p.Valid() && Kept(p, holds)
    ensures Stable(p.Rid(), cells) && forall c :: cells(c) <==> holds(Alone(p, c, nic))
  {
    cells := c => holds(Alone(p, c, nic));
    forall c, act | cells(c) && Engine.Can(c, p.Rid(), 0, act) && Own(act)
      ensures cells(Engine.Local(c, p.Rid(), 0, act))
    {
      ActOnOnly(p.Rid(), c, act);
      var t := Alone(p, Engine.Local(c, p.Rid(), 0, act), nic);
      Leads(p, holds, Alone(p, c, nic), Other(Engine.Do(p.Rid(), 0, act)), t);
    }
  }

  // ----- The send between two completions: i bodies have run.

  function ChunkData(p: Plan, i: nat): Word
    requires p.Valid() && i < p.N()
  {
    Word(WriteCtx(p, i))
  }

  function Sending(p: Plan): (k: Course)
    requires p.Valid()
    ensures k.Valid() && k.rid == p.Rid() && |k.batch| == p.N()
    ensures forall i | 0 <= i < p.N() :: k.batch[i].idx == i && k.data[i] == ChunkData(p, i)
  {
    Course(p.Rid(), true, SendBatch(p.N(), p.serverKey),
           seq(p.N(), i requires 0 <= i < p.N() => ChunkData(p, i)))
  }

  function PostsAfter(p: Plan, i: nat): (posts: seq<Post>)
    requires p.Valid() && i <= p.N()
  {
    seq(if i < p.N() then 2 * i + 1 else 2 * p.N(), k requires 0 <= k => Script(k))
  }

  // With `good` every write so far arrived and completed with success; without, none did either.
  ghost predicate NicAfter(p: Plan, mem: Memory, i: nat, good: bool, nic: Nic)
    requires p.Valid() && i <= p.N()
  {
    && nic.posted == PostsAfter(p, i) && nic.delivered == seq(i, k => k)
    && (good ==> forall k: nat :: k in nic.clean <==> k < i)
    && (!good ==> nic.clean == {} && nic.landed == {} && nic.mem == mem)
  }

  // ----- The first chunk.

  lemma Submitted(p: Plan, mem: Memory)
    requires p.Valid()
    ensures Inv(Engine.Start(1))
    ensures Begins(p, Alone(p, NewCell(Sending(p)), Nic([], [], {}, mem, {})), Engine.Start(1), 0)
  {
    var start := Engine.Start(1);
    assert Engine.IsRun([start], []);
    RunsKeepInv([start], [], 0);
    Submitting(Sending(p));
  }

  lemma BeginningIsReached(p: Plan, mem: Memory)
    requires p.Valid()
    ensures Reaches(p, mem, Alone(p, NewCell(Sending(p)), Nic([], [], {}, mem, {})))
  {
    var states, steps: seq<Step> := [Alone(p, NewCell(Sending(p)), Nic([], [], {}, mem, {}))], [];
    Submitted(p, mem);
    assert Begins(p, states[0], Engine.Start(1), 0);
    assert IsRun(p, states, steps) && states[|steps|] == states[0];
  }

  lemma FirstPosted(p: Plan, holds: Property, mem: Memory, good: bool) returns (nic: Nic)
    requires p.Valid() && Kept(p, holds) && holds(Alone(p, NewCell(Sending(p)), Nic([], [], {}, mem, {})))
    ensures holds(Alone(p, CellAfter(Sending(p), 0), nic)) && NicAfter(p, mem, 0, good, nic)
  {
    var k, none := Sending(p), Nic([], [], {}, mem, {});
    var cells := OwnActsKeep(p, holds, none);
    Publishing(k, cells);
    nic := none.(posted := none.posted + [Write(0)]);
    ActOnOnly(p.Rid(), PublishedCell(k), Engine.Return(false));
    Returning(k);
    Leads(p, holds, Alone(p, PublishedCell(k), none), First(0, true), Alone(p, CellAfter(k, 0), nic));
    assert nic.posted == PostsAfter(p, 0);
  }

  // ----- One round: the write of chunk i completes and its body runs.

  lemma LandStep(p: Plan, holds: Property, c: Engine.Cell, nic: Nic, i: nat, at: int)
    requires p.Valid() && Kept(p, holds) && holds(Alone(p, c, nic)) && i < p.N() && InChunk(p, i, at)
    requires 2 * i < |nic.posted| && nic.posted[2 * i] == Write(i) && i !in nic.clean
    ensures holds(Alone(p, c, LandedAt(p, nic, p.Chunks()[i], at)))
  {
    Leads(p, holds, Alone(p, c, nic), Land(2 * i, at), Alone(p, c, LandedAt(p, nic, p.Chunks()[i], at)));
  }

  lemma CompletionStep(p: Plan, holds: Property, c: Engine.Cell, nic: Nic, i: nat, clean: bool)
    requires p.Valid() && Kept(p, holds) && holds(Alone(p, c, nic)) && i < p.N()
    requires 2 * i < |nic.posted| && nic.posted[2 * i] == Write(i) && i !in nic.delivered
    requires clean ==> AllLanded(nic, p.Chunks()[i])
    ensures holds(Alone(p, Engine.DoWakeLookup(c, ChunkData(p, i)), CompletedWith(nic, i, clean)))
  {
    ActOnOnly(p.Rid(), c, Engine.WakeLookup(ChunkData(p, i)));
    Leads(p, holds, Alone(p, c, nic), Completed(0, 2 * i, clean),
          Alone(p, Engine.DoWakeLookup(c, ChunkData(p, i)), CompletedWith(nic, i, clean)));
  }

  // The bytes of chunk i land one after the other.
  lemma {:induction false} LandSome(p: Plan, holds: Property, c: Engine.Cell, nic: Nic, i: nat, j: nat)
    returns (after: Nic)
    requires p.Valid() && Kept(p, holds) && holds(Alone(p, c, nic)) && i < p.N() && j <= p.Chunks()[i].len
    requires 2 * i < |nic.posted| && nic.posted[2 * i] == Write(i) && i !in nic.clean
    ensures holds(Alone(p, c, after))
    ensures after.posted == nic.posted && after.delivered == nic.delivered && after.clean == nic.clean
    ensures forall at | p.Chunks()[i].dst <= at < p.Chunks()[i].dst + j :: at in after.landed
  {
    after := nic;
    if j > 0 {
      var at := p.Chunks()[i].dst + (j - 1);
      var before := LandSome(p, holds, c, nic, i, j - 1);
      LandStep(p, holds, c, before, i, at);
      after := LandedAt(p, before, p.Chunks()[i], at);
    }
  }

  // The write of chunk i completes: with success after all its bytes, or with an error before any.
  lemma WriteCompletes(p: Plan, holds: Property, mem: Memory, c: Engine.Cell, i: nat, good: bool, nic: Nic)
    returns (after: Nic)
    requires p.Valid() && Kept(p, holds) && i < p.N() && holds(Alone(p, c, nic)) && NicAfter(p, mem, i, good, nic)
    ensures holds(Alone(p, Engine.DoWakeLookup(c, ChunkData(p, i)), after))
    ensures after.posted == nic.posted && NicAfter(p, mem, i + 1, good, after.(posted := PostsAfter(p, i + 1)))
  {
    var landed := nic;
    assert nic.posted[2 * i] == Script(2 * i) == Write(i);
    if good {
      landed := LandSome(p, holds, c, nic, i, p.Chunks()[i].len);
    }
    CompletionStep(p, holds, c, landed, i, good);
    after := CompletedWith(landed, i, good);
    assert after.delivered == seq(i + 1, k => k);
  }

  lemma NextPosts(p: Plan, i: nat)
    requires p.Valid() && i < p.N()
    ensures BodyPosts(p.N(), i, 0, 0) == (PostsAfter(p, i + 1)[|PostsAfter(p, i)|..], 0)
    ensures PostsAfter(p, i) + BodyPosts(p.N(), i, 0, 0).0 == PostsAfter(p, i + 1)
  {
    var posts := BodyPosts(p.N(), i, 0, 0).0;
    assert PostsAfter(p, i) + posts == PostsAfter(p, i + 1);
    assert PostsAfter(p, i + 1)[|PostsAfter(p, i)|..] == posts;
  }

  lemma BodyStep(p: Plan, holds: Property, nic: Nic, i: nat) returns (after: Nic)
    requires p.Valid() && Kept(p, holds) && i < p.N() && holds(Alone(p, AtBody(Sending(p), i, Engine.Popped), nic))
    requires nic.posted == PostsAfter(p, i)
    ensures holds(Alone(p, RanCell(Sending(p), i), after)) && after == nic.(posted := PostsAfter(p, i + 1))
  {
    var k, c := Sending(p), AtBody(Sending(p), i, Engine.Popped);
    after := nic.(posted := PostsAfter(p, i + 1));
    NextPosts(p, i);
    RunningBody(k, i);
    ActOnOnly(p.Rid(), c, Engine.RunBody(0));
    Leads(p, holds, Alone(p, c, nic), Body(0, 0, 0), Alone(p, RanCell(k, i), after));
  }

  lemma OneRound(p: Plan, holds: Property, mem: Memory, good: bool, i: nat, before: Nic) returns (nic: Nic)
    requires p.Valid() && Kept(p, holds) && i < p.N()
    requires holds(Alone(p, CellAfter(Sending(p), i), before)) && NicAfter(p, mem, i, good, before)
    ensures holds(Alone(p, CellAfter(Sending(p), i + 1), nic)) && NicAfter(p, mem, i + 1, good, nic)
  {
    var k := Sending(p);
    var completed := WriteCompletes(p, holds, mem, CellAfter(k, i), i, good, before);
    var cells := OwnActsKeep(p, holds, completed);
    TaskIsTaken(k, cells, i);
    nic := BodyStep(p, holds, completed, i);
    cells := OwnActsKeep(p, holds, nic);
    BodyIsSettled(k, cells, i);
  }

  lemma {:induction false} Rounds(p: Plan, holds: Property, mem: Memory, good: bool, i: nat) returns (nic: Nic)
    requires p.Valid() && Kept(p, holds) && i <= p.N()
    requires holds(Alone(p, NewCell(Sending(p)), Nic([], [], {}, mem, {})))
    ensures holds(Alone(p, CellAfter(Sending(p), i), nic)) && NicAfter(p, mem, i, good, nic)
  {
    if i == 0 {
      nic := FirstPosted(p, holds, mem, good);
    } else {
      var before := Rounds(p, holds, mem, good, i - 1);
      nic := OneRound(p, holds, mem, good, i - 1, before);
    }
  }

  // ----- Main results.

  lemma SendRunsThrough(p: Plan, holds: Property, mem: Memory, good: bool) returns (nic: Nic)
    requires p.Valid() && Kept(p, holds) && holds(Alone(p, NewCell(Sending(p)), Nic([], [], {}, mem, {})))
    ensures holds(Alone(p, ReleasedCell(Sending(p)), nic)) && NicAfter(p, mem, p.N(), good, nic)
    ensures Succeeded(p, Alone(p, ReleasedCell(Sending(p)), nic))
  {
    nic := Rounds(p, holds, mem, good, p.N());
    var cells := OwnActsKeep(p, holds, nic);
    WaitReturnsZero(Sending(p), cells);
  }

  lemma ReachingIsKept(p: Plan, mem: Memory) returns (holds: Property)
    requires p.Valid()
    ensures Kept(p, holds) && forall s :: holds(s) <==> Reaches(p, mem, s)
  {
    holds := s => Reaches(p, mem, s);
    forall s, step | holds(s) && Enabled(p, s, step) ensures holds(Apply(p, s, step)) {
      OneMoreStep(p, mem, s, step);
    }
  }

  predicate Succeeded(p: Plan, s: State)
    requires p.Valid()
  {
    p.Rid() in s.engine.reqs && s.engine.reqs[p.Rid()].stage.Released? && s.engine.reqs[p.Rid()].stage.returned.Success?
  }

  // Any transfer, whatever was in memory before: a send can run through and return 0 after all its
  // writes completed with success; and it can return 0 after all of them completed with an error,
  // with everything announced and not one byte moved.
  lemma SendReturnsZero(p: Plan, mem: Memory, good: bool) returns (s: State)
    requires p.Valid()
    ensures Reaches(p, mem, s) && Succeeded(p, s) && s.nic.posted == PostsAfter(p, p.N()) && |s.nic.delivered| == p.N()
    ensures good ==> AllClean(s.nic)
    ensures !good ==> s.nic.clean == {} && s.nic.mem == mem
  {
    var holds := ReachingIsKept(p, mem);
    BeginningIsReached(p, mem);
    var nic := SendRunsThrough(p, holds, mem, good);
    s := Alone(p, ReleasedCell(Sending(p)), nic);
  }

  lemma ReachedRun(p: Plan, mem: Memory, s: State) returns (states: seq<State>, steps: seq<Step>)
    requires p.Valid() && Reaches(p, mem, s)
    ensures IsRun(p, states, steps) && states[0].nic.mem == mem && states[|steps|] == s
  {
    states, steps :| IsRun(p, states, steps) && states[0].nic.mem == mem && states[|steps|] == s;
  }

  ghost predicate HasByte(p: Plan, s: State, mem: Memory, at: int) {
    s.nic.mem(Addr(p.route.to, at)) == mem(p.Source(at))
  }

  // For a byte that differs before the transfer: it is there whenever its chunk is announced, if and
  // only if the completion of the chunk's write reported success.
  lemma AnnouncedMeansThereIffClean(p: Plan, mem: Memory, i: nat, at: int, clean: bool)
    requires p.Valid() && p.Apart() && i < p.N() && InChunk(p, i, at)
    requires mem(Addr(p.route.to, at)) != mem(p.Source(at))
    ensures (forall s | Reaches(p, mem, s) && Notify(i) in s.nic.posted && (i in s.nic.clean <==> clean) ::
               HasByte(p, s, mem, at))
            <==> clean
  {
    if clean {
      forall s | Reaches(p, mem, s) && Notify(i) in s.nic.posted && i in s.nic.clean ensures HasByte(p, s, mem, at) {
        var states, steps := ReachedRun(p, mem, s);
        AnnouncedBytesAreThere(p, states, steps, |steps|, i, at);
      }
    } else {
      var s := SendReturnsZero(p, mem, false);
      AllAnnounced(p, i);
      assert !HasByte(p, s, mem, at);
    }
  }

  lemma AllAnnounced(p: Plan, i: nat)
    requires p.Valid() && i < p.N()
    ensures Notify(i) in PostsAfter(p, p.N())
  {
    assert PostsAfter(p, p.N())[2 * i + 1] == Script(2 * i + 1);
  }

  lemma CleanRunHasByte(p: Plan, states: seq<State>, steps: seq<Step>, n: nat, at: int)
    requires p.Valid() && p.Apart() && p.dst <= at < p.dst + p.len && IsRun(p, states, steps) && n == |steps|
    requires Succeeded(p, states[n]) && AllClean(states[n].nic)
    ensures HasByte(p, states[n], states[0].nic.mem, at)
  {
    SuccessMeansAllSent(p, states, steps, n, Addr(p.route.to, at));
  }

  lemma CleanZeroHasByte(p: Plan, mem: Memory, s: State, at: int)
    requires p.Valid() && p.Apart() && p.dst <= at < p.dst + p.len
    requires Reaches(p, mem, s) && Succeeded(p, s) && AllClean(s.nic)
    ensures HasByte(p, s, mem, at)
  {
    var states, steps := ReachedRun(p, mem, s);
    CleanRunHasByte(p, states, steps, |steps|, at);
  }

  lemma UncleanZeroLacksByte(p: Plan, mem: Memory, at: int) returns (s: State)
    requires p.Valid() && mem(Addr(p.route.to, at)) != mem(p.Source(at))
    ensures Reaches(p, mem, s) && Succeeded(p, s) && !AllClean(s.nic) && !HasByte(p, s, mem, at)
  {
    s := SendReturnsZero(p, mem, false);
    assert s.nic.delivered[0] in s.nic.delivered;
  }

  // And a send that returned 0 has transferred it, if and only if all completions reported success.
  lemma ZeroMeansTransferredIffClean(p: Plan, mem: Memory, at: int, clean: bool)
    requires p.Valid() && p.Apart() && p.dst <= at < p.dst + p.len
    requires mem(Addr(p.route.to, at)) != mem(p.Source(at))
    ensures (forall s | Reaches(p, mem, s) && Succeeded(p, s) && (AllClean(s.nic) <==> clean) :: HasByte(p, s, mem, at))
            <==> clean
  {
    if clean {
      forall s | Reaches(p, mem, s) && Succeeded(p, s) && AllClean(s.nic) ensures HasByte(p, s, mem, at) {
        CleanZeroHasByte(p, mem, s, at);
      }
    } else {
      var s := UncleanZeroLacksByte(p, mem, at);
    }
  }
}
