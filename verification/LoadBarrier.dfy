/** The cyclic barrier of the load tool, used over and over by exactly as many threads as it
    counts, while anyone may stop it at any time. */
module LoadBarrier {
  import opened Lists

  // Everything the mutex protects.
  datatype Gate = Gate(count: int, generation: int, stop: bool)

  // A Wait runs up to its wait or to its end: it is left blocked, or it returns.
  datatype Arrival = Blocked(generation: int) | Returns(stopped: bool)

  function Arrived(g: Gate, total: nat): (Gate, Arrival) {
    var count := g.count - 1;
    if count == 0 then (Gate(total, g.generation + 1, g.stop), Returns(g.stop))
    else (g.(count := count), if g.stop then Returns(true) else Blocked(g.generation))
  }

  // When a blocked Wait may go on.
  predicate Awake(g: Gate, generation: int) {
    g.stop || generation != g.generation
  }

  class Barrier {
    const total: nat
    var count: int
    var generation: int
    var stop: bool

    function View(): Gate
      reads this
    {
      Gate(count, generation, stop)
    }

    constructor (count: nat)
      ensures total == count && View() == Gate(count, 0, false)
    {
      total, this.count, generation, stop := count, count, 0, false;
    }

    // Wait, up to the point where it blocks or returns.
    method Arrive() returns (a: Arrival)
      modifies this
      ensures (View(), a) == Arrived(old(View()), total)
    {
      var gen := generation;
      count := count - 1;
      if count == 0 {
        generation := generation + 1;
        count := total;
      } else if !stop {
        return Blocked(gen);
      }
      a := Returns(stop);
    }

    // The rest of a blocked Wait.
    method Resume(gen: int) returns (stopped: bool)
      requires Awake(View(), gen)
      ensures stopped == stop
    {
      stopped := stop;
    }

    method Stop()
      modifies this
      ensures View() == old(View()).(stop := true)
    {
      if stop {
        return;
      }
      stop := true;
    }
  }

  // ----- The threads. `calls` and `falses` count how often a thread called Wait and how often
  // Wait returned false to it.

  datatype Thread = Thread(blocked: Option<int>, calls: nat, falses: nat)

  datatype State = State(gate: Gate, threads: seq<Thread>)

  datatype Step = Call(t: nat) | Resume(t: nat) | Stop

  function Returned(t: Thread, stopped: bool): Thread {
    Thread(None, t.calls, t.falses + if stopped then 0 else 1)
  }

  predicate Enabled(s: State, step: Step) {
    match step
    case Call(t) => t < |s.threads| && s.threads[t].blocked.None?
    case Resume(t) => t < |s.threads| && s.threads[t].blocked.Some? && Awake(s.gate, s.threads[t].blocked.value)
    case Stop => true
  }

  function Apply(s: State, step: Step): State
    requires Enabled(s, step)
  {
    match step
    case Call(t) =>
      var (gate, a) := Arrived(s.gate, |s.threads|);
      var caller := s.threads[t].(calls := s.threads[t].calls + 1);
      State(gate, s.threads[t := if a.Blocked? then caller.(blocked := Some(a.generation))
                                 else Returned(caller, a.stopped)])
    case Resume(t) => s.(threads := s.threads[t := Returned(s.threads[t], s.gate.stop)])
    case Stop => s.(gate := s.gate.(stop := true))
  }

  function Start(total: nat): State {
    State(Gate(total, 0, false), seq(total, _ => Thread(None, 0, 0)))
  }

  predicate IsRun(total: nat, states: seq<State>, steps: seq<Step>) {
    && |states| == |steps| + 1 && states[0] == Start(total)
    && forall i | 0 <= i < |steps| :: Enabled(states[i], steps[i]) && states[i + 1] == Apply(states[i], steps[i])
  }

  // ----- Invariant.

  // Threads blocked in generation g.
  function InGeneration(threads: seq<Thread>, g: int): nat {
    if threads == [] then 0
    else (if threads[0].blocked == Some(g) then 1 else 0) + InGeneration(threads[1..], g)
  }

  lemma {:induction false} OneThreadChanges(threads: seq<Thread>, t: nat, now: Thread, g: int)
    requires t < |threads|
    ensures InGeneration(threads[t := now], g)
            == InGeneration(threads, g) - (if threads[t].blocked == Some(g) then 1 else 0)
               + (if now.blocked == Some(g) then 1 else 0)
  {
    if t > 0 {
      assert threads[t := now][1..] == threads[1..][t - 1 := now];
      OneThreadChanges(threads[1..], t - 1, now, g);
    } else {
      assert threads[t := now][1..] == threads[1..];
    }
  }

  // If all but t are blocked in g, each of them is.
  lemma {:induction false} AllButOne(threads: seq<Thread>, t: nat, g: int, u: nat)
    requires t < |threads| && u < |threads| && InGeneration(threads, g) >= |threads| - 1
    requires threads[t].blocked != Some(g)
    ensures u != t ==> threads[u].blocked == Some(g)
  {
    AtMostAll(threads[1..], g);
    if t > 0 && u > 0 {
      AllButOne(threads[1..], t - 1, g, u - 1);
    } else if t > 0 {
      NotAll(threads[1..], t - 1, g);
    } else if u > 0 {
      IfAll(threads[1..], u - 1, g);
    }
  }

  lemma {:induction false} AtMostAll(threads: seq<Thread>, g: int)
    ensures InGeneration(threads, g) <= |threads|
  {
    if threads != [] {
      AtMostAll(threads[1..], g);
    }
  }

  lemma {:induction false} IfAll(threads: seq<Thread>, u: nat, g: int)
    requires u < |threads| && InGeneration(threads, g) == |threads|
    ensures threads[u].blocked == Some(g)
  {
    AtMostAll(threads[1..], g);
    if u > 0 {
      IfAll(threads[1..], u - 1, g);
    }
  }

  lemma NotAll(threads: seq<Thread>, t: nat, g: int)
    requires t < |threads| && threads[t].blocked != Some(g)
    ensures InGeneration(threads, g) < |threads|
  {
    AtMostAll(threads, g);
    if InGeneration(threads, g) == |threads| {
      IfAll(threads, t, g);
    }
  }

  // Before the stop, a thread is between two Waits, having passed all g generations so far; or it
  // waits in generation g; or it has yet to leave the generation before.
  predicate InStep(t: Thread, g: int) {
    match t.blocked
    case None => t.falses == g && t.calls == t.falses
    case Some(b) => t.falses == b && t.calls == t.falses + 1 && (b == g || b == g - 1)
  }

  ghost predicate Running(s: State) {
    && 1 <= s.gate.count <= |s.threads|
    && InGeneration(s.threads, s.gate.generation) == |s.threads| - s.gate.count
    && forall t | 0 <= t < |s.threads| :: InStep(s.threads[t], s.gate.generation)
  }

  // What survives the stop.
  ghost predicate Together(s: State) {
    forall t, u | 0 <= t < |s.threads| && 0 <= u < |s.threads| ::
      s.threads[t].falses <= s.threads[u].falses + 1 && s.threads[t].falses <= s.threads[u].calls
  }

  ghost predicate Inv(s: State) {
    (!s.gate.stop ==> Running(s)) && Together(s)
  }

  lemma {:induction false} NoneIn(threads: seq<Thread>, g: int)
    requires forall t | 0 <= t < |threads| :: threads[t].blocked != Some(g)
    ensures InGeneration(threads, g) == 0
  {
    if threads != [] {
      NoneIn(threads[1..], g);
    }
  }

  lemma {:induction false} AllIn(threads: seq<Thread>, g: int)
    requires forall t | 0 <= t < |threads| :: threads[t].blocked == Some(g)
    ensures InGeneration(threads, g) == |threads|
  {
    if threads != [] {
      AllIn(threads[1..], g);
    }
  }

  // The last arrival opens the next generation, in which nobody waits yet.
  lemma LastCallKeepsRunning(s: State, t: nat)
    requires Running(s) && !s.gate.stop && Enabled(s, Call(t)) && s.gate.count == 1
    ensures Running(Apply(s, Call(t)))
  {
    var g, after := s.gate.generation, Apply(s, Call(t));
    forall u | 0 <= u < |s.threads| && u != t ensures s.threads[u].blocked == Some(g) {
      AllButOne(s.threads, t, g, u);
    }
    NoneIn(after.threads, g + 1);
  }

  lemma StepKeepsRunning(s: State, step: Step)
    requires Running(s) && !s.gate.stop && Enabled(s, step) && !step.Stop?
    ensures Running(Apply(s, step))
  {
    var g, after := s.gate.generation, Apply(s, step);
    OneThreadChanges(s.threads, step.t, after.threads[step.t], g);
    if step.Call? {
      if s.gate.count == 1 {
        LastCallKeepsRunning(s, step.t);
      } else {
        AtMostAll(after.threads, g);
      }
    }
  }

  lemma StepKeepsInv(s: State, step: Step)
    requires Inv(s) && Enabled(s, step)
    ensures Inv(Apply(s, step))
  {
    if !s.gate.stop && !step.Stop? {
      StepKeepsRunning(s, step);
    }
  }

  lemma {:induction false} RunKeepsInv(total: nat, states: seq<State>, steps: seq<Step>, n: nat)
    requires IsRun(total, states, steps) && n <= |steps| && total > 0
    ensures Inv(states[n]) && |states[n].threads| == total
  {
    if n > 0 {
      RunKeepsInv(total, states, steps, n - 1);
      StepKeepsInv(states[n - 1], steps[n - 1]);
    } else {
      NoneIn(states[0].threads, 0);
    }
  }

  // ----- Main results.

  // Nobody gets its k-th false before everybody has called Wait k times, and no thread is ever
  // more than one false ahead of another, in every interleaving with Stop.
  lemma BarrierHolds(total: nat, states: seq<State>, steps: seq<Step>, n: nat, t: nat, u: nat)
    requires IsRun(total, states, steps) && n <= |steps| && t < total && u < total
    ensures |states[n].threads| == total
    ensures var a, b := states[n].threads[t], states[n].threads[u];
            a.falses <= b.calls && a.falses <= b.falses + 1
  {
    RunKeepsInv(total, states, steps, n);
  }

  // Some thread can always go on, and once stopped every blocked thread can.
  lemma NeverAllStuck(total: nat, states: seq<State>, steps: seq<Step>, n: nat)
    requires IsRun(total, states, steps) && n <= |steps| && total > 0
    ensures var s := states[n];
            && (exists t: nat :: t < total && (Enabled(s, Call(t)) || Enabled(s, Resume(t))))
            && (s.gate.stop ==> forall t: nat | t < |s.threads| && s.threads[t].blocked.Some? :: Enabled(s, Resume(t)))
  {
    RunKeepsInv(total, states, steps, n);
    var s := states[n];
    if forall t: nat | t < total :: !Enabled(s, Call(t)) && !Enabled(s, Resume(t)) {
      forall t: nat | t < total ensures s.threads[t].blocked == Some(s.gate.generation) {
        assert !Enabled(s, Call(t)) && !Enabled(s, Resume(t));
      }
      AllIn(s.threads, s.gate.generation);
      assert !Enabled(s, Call(0)) && !Enabled(s, Resume(0));
    }
  }

  // After a stop every Wait that ends returns true, and one that begins then does not block.
  lemma {:induction false} StopIsFinal(total: nat, states: seq<State>, steps: seq<Step>, i: nat, n: nat, t: nat)
    requires IsRun(total, states, steps) && i <= n <= |steps| && states[i].gate.stop && t < |states[i].threads|
    ensures states[n].gate.stop && |states[n].threads| == |states[i].threads|
    ensures states[n].threads[t].falses == states[i].threads[t].falses
    ensures Enabled(states[n], Call(t)) ==> Apply(states[n], Call(t)).threads[t].blocked.None?
  {
    if i < n {
      StopIsFinal(total, states, steps, i, n - 1, t);
    }
  }
}
