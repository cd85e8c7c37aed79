/** How much a request still has to do by itself: a measure that every step of its wakers and of its
    worker decreases, and that only a new completion increases. */
module EngineProgress {
  import opened Codec
  import opened Lists
  import LinkedLists
  import opened PoolSpec
  import opened Engine
  import opened EngineRuns
  import opened EngineTheorems

  // No wakeup of the request is under way and its worker runs none of its tasks.
  predicate Quiet(c: Cell) {
    c.req.wakers == [] && c.worker.pending == [] && c.worker.run.None?
  }

  function PhaseWork(phase: Phase): nat {
    match phase
    case Popped => 4
    case Ran(_) => 3
    case Noted(_) => 2
    case Marked => 1
  }

  function Work(c: Cell): nat {
    6 * |c.req.wakers| + 5 * |c.worker.pending| + if c.worker.run.Some? then PhaseWork(c.worker.run.value.phase) else 0
  }

  lemma QuietIffNoWork(c: Cell)
    ensures Quiet(c) <==> Work(c) == 0
  {}

  // What wakers and the worker do without being asked.
  predicate Internal(act: Act) {
    act.WakePush? || act.Pop? || act.RunBody? || act.NoteStatus? || act.MarkSync? || act.SettleContext?
  }

  lemma InternalActsShrinkWork(c: Cell, rid: Word, w: nat, act: Act)
    requires Can(c, rid, w, act) && Internal(act)
    ensures Work(Local(c, rid, w, act)) < Work(c)
  {}

  lemma RemovalShrinksWork(c: Cell, rid: Word, j: nat)
    requires j < |c.req.cancels|
    ensures Work(DoRemove(c, rid, j)) <= Work(c)
  {
    LinkedLists.SelectAndDropPartition(c.worker.pending, WakeOf(rid));
  }

  lemma CallerActsAddNoWork(c: Cell, rid: Word, w: nat, act: Act)
    requires Can(c, rid, w, act) && !Internal(act) && !act.CancelRemove? && !act.WakeLookup?
    ensures Work(Local(c, rid, w, act)) == Work(c)
  {}

  // Only a completion that finds the request adds work, a fixed amount.
  lemma OtherActsAddWork(c: Cell, rid: Word, w: nat, act: Act)
    requires Can(c, rid, w, act) && !Internal(act)
    ensures Work(Local(c, rid, w, act)) <= Work(c) + if act.WakeLookup? then 6 else 0
  {
    if act.CancelRemove? {
      RemovalShrinksWork(c, rid, act.j);
    } else if !act.WakeLookup? {
      CallerActsAddNoWork(c, rid, w, act);
    }
  }

  function InternalStep(step: Step, rid: Word): nat {
    if step.Do? && step.rid == rid && Internal(step.act) then 1 else 0
  }

  function LookupStep(step: Step, rid: Word): nat {
    if step.Do? && step.rid == rid && step.act.WakeLookup? then 1 else 0
  }

  predicate HasShare(s: State, rid: Word) {
    rid in s.reqs && s.reqs[rid].home < |s.workers|
  }

  function WorkAt(s: State, rid: Word): nat {
    if HasShare(s, rid) then Work(ShareOf(s, rid)) else 0
  }

  // How often, of the steps from i to n, the request took an internal step, and how often a
  // completion looked it up.
  function InternalSteps(steps: seq<Step>, rid: Word, i: nat, n: nat): nat
    requires i <= n <= |steps|
    decreases n
  {
    if i == n then 0 else InternalSteps(steps, rid, i, n - 1) + InternalStep(steps[n - 1], rid)
  }

  function Lookups(steps: seq<Step>, rid: Word, i: nat, n: nat): nat
    requires i <= n <= |steps|
    decreases n
  {
    if i == n then 0 else Lookups(steps, rid, i, n - 1) + LookupStep(steps[n - 1], rid)
  }

  lemma StepWork(s: State, step: Step, rid: Word)
    requires Inv(s) && Enabled(s, step) && HasShare(s, rid) && !(step.Attach? && step.rid == rid)
    ensures HasShare(Apply(s, step), rid)
    ensures WorkAt(Apply(s, step), rid) + InternalStep(step, rid) <= WorkAt(s, rid) + 6 * LookupStep(step, rid)
  {
    if step.rid == rid {
      var c := ShareOf(s, rid);
      OwnShareStep(s, rid, step.w, step.act);
      if Internal(step.act) {
        InternalActsShrinkWork(c, rid, step.w, step.act);
      } else {
        OtherActsAddWork(c, rid, step.w, step.act);
      }
    } else {
      OtherShareStep(s, step, rid);
    }
  }

  lemma RunStepWork(states: seq<State>, steps: seq<Step>, k: nat, rid: Word)
    requires IsRun(states, steps) && k < |steps| && HasShare(states[k], rid)
    requires !(steps[k].Attach? && steps[k].rid == rid)
    ensures HasShare(states[k + 1], rid)
    ensures WorkAt(states[k + 1], rid) + InternalStep(steps[k], rid)
            <= WorkAt(states[k], rid) + 6 * LookupStep(steps[k], rid)
  {
    RunsKeepInv(states, steps, k);
    StepWork(states[k], steps[k], rid);
  }

  lemma StepForgetsNoRequest(s: State, step: Step, rid: Word)
    requires Enabled(s, step) && rid in s.reqs
    ensures rid in Apply(s, step).reqs
  {}

  lemma {:induction false} RequestStays(states: seq<State>, steps: seq<Step>, i: nat, n: nat, rid: Word)
    requires IsRun(states, steps) && i <= n <= |steps| && rid in states[i].reqs
    ensures rid in states[n].reqs
    decreases n
  {
    if i < n {
      RequestStays(states, steps, i, n - 1, rid);
      StepForgetsNoRequest(states[n - 1], steps[n - 1], rid);
    }
  }

  lemma ShareStays(states: seq<State>, steps: seq<Step>, i: nat, n: nat, rid: Word)
    requires IsRun(states, steps) && i <= n <= |steps| && rid in states[i].reqs
    ensures HasShare(states[n], rid)
  {
    RequestStays(states, steps, i, n, rid);
    RunsKeepInv(states, steps, n);
    assert ReqInv(states[n], rid);
  }

  // Step by step the bounds add up.
  lemma {:induction false} Accumulate(steps: seq<Step>, rid: Word, i: nat, n: nat, work: seq<nat>)
    requires i <= n <= |steps| && |work| == |steps| + 1
    requires forall k | i <= k < n ::
               work[k + 1] + InternalStep(steps[k], rid) <= work[k] + 6 * LookupStep(steps[k], rid)
    ensures InternalSteps(steps, rid, i, n) + work[n] <= work[i] + 6 * Lookups(steps, rid, i, n)
    decreases n
  {
    if i < n {
      Accumulate(steps, rid, i, n - 1, work);
    }
  }

  // However requests interleave: a request takes at most as many internal steps as its work at the
  // start and six for every completion since then. After that it is quiet.
  lemma WorkIsBounded(states: seq<State>, steps: seq<Step>, i: nat, n: nat, rid: Word)
    requires IsRun(states, steps) && i <= n <= |steps| && HasShare(states[i], rid)
    requires forall k | i <= k < n :: !(steps[k].Attach? && steps[k].rid == rid)
    ensures HasShare(states[n], rid)
    ensures InternalSteps(steps, rid, i, n) + WorkAt(states[n], rid)
            <= WorkAt(states[i], rid) + 6 * Lookups(steps, rid, i, n)
    ensures InternalSteps(steps, rid, i, n) == WorkAt(states[i], rid) + 6 * Lookups(steps, rid, i, n)
            ==> Quiet(ShareOf(states[n], rid))
  {
    var work: seq<nat> := seq(|states|, k requires 0 <= k < |states| => WorkAt(states[k], rid));
    forall k | i <= k < n
      ensures work[k + 1] + InternalStep(steps[k], rid) <= work[k] + 6 * LookupStep(steps[k], rid)
    {
      ShareStays(states, steps, i, k, rid);
      RunStepWork(states, steps, k, rid);
    }
    Accumulate(steps, rid, i, n, work);
    ShareStays(states, steps, i, n, rid);
    QuietIffNoWork(ShareOf(states[n], rid));
  }

  // As long as it is not quiet its waker, or whatever is first at its worker, can take such a step.
  lemma NotQuietCanGoOn(s: State, rid: Word)
    requires Inv(s) && HasShare(s, rid) && !Quiet(ShareOf(s, rid))
    ensures exists r: Word, act: Act :: Internal(act) && Enabled(s, Do(r, s.reqs[rid].home, act))
  {
    var req, c, worker := s.reqs[rid], ShareOf(s, rid), s.workers[s.reqs[rid].home];
    ShareInv(s, rid);
    WorkerNeverStuck(s, req.home);
    if req.wakers != [] {
      assert Internal(WakePush(0)) && Enabled(s, Do(rid, req.home, WakePush(0)));
    } else if worker.run.None? {
      SelectMembers(worker.pending, WakeOf(rid), c.worker.pending[0]);
      assert Internal(Pop) && Enabled(s, Do(worker.pending[0].rid, req.home, Pop));
    }
  }
}
