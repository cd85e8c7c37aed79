/** What a batch of tasks becomes when its wakeups are consumed one after the other. */
module Delivery {
  import opened Codec
  import opened Lists
  import opened Numbers
  import opened PoolSpec
  import opened Engine

  datatype Outcome = Outcome(popped: seq<Hit>, rest: seq<Task>)

  // One wakeup with this data.
  function Consume(o: Outcome, rid: Word, data: Word): Outcome {
    var taken := TakeFirst(o.rest, Matching(rid, data));
    Outcome(if taken.hit.Some? then o.popped + [Hit(taken.hit.value, data)] else o.popped, taken.rest)
  }

  function Replay(batch: seq<Task>, rid: Word, log: seq<Word>): Outcome {
    if log == [] then Outcome([], batch)
    else Consume(Replay(batch, rid, log[..|log| - 1]), rid, log[|log| - 1])
  }

  lemma ReplayMore(batch: seq<Task>, rid: Word, log: seq<Word>, data: Word)
    ensures Replay(batch, rid, log + [data]) == Consume(Replay(batch, rid, log), rid, data)
  {
    assert (log + [data])[..|log|] == log;
  }

  function TasksOf(hits: seq<Hit>): (tasks: seq<Task>)
    ensures |tasks| == |hits| && forall i | 0 <= i < |hits| :: tasks[i] == hits[i].task
  {
    seq(|hits|, i requires 0 <= i < |hits| => hits[i].task)
  }

  lemma TasksOfMore(hits: seq<Hit>, h: Hit)
    ensures TasksOf(hits + [h]) == TasksOf(hits) + [h.task]
  {}

  lemma WithoutOne(s: seq<Task>, i: nat)
    requires i < |s|
    ensures multiset(s[..i] + s[i + 1..]) + multiset{s[i]} == multiset(s)
  {
    assert s == s[..i] + [s[i]] + s[i + 1..];
  }

  lemma ConsumeConserves(o: Outcome, rid: Word, data: Word)
    ensures var n := Consume(o, rid, data);
            && multiset(TasksOf(n.popped)) + multiset(n.rest) == multiset(TasksOf(o.popped)) + multiset(o.rest)
            && |n.popped| + |n.rest| == |o.popped| + |o.rest|
  {
    var i := TakeSplits(o.rest, Matching(rid, data));
    if i < |o.rest| {
      WithoutOne(o.rest, i);
      TasksOfMore(o.popped, Hit(o.rest[i], data));
    }
  }

  // Every task of the batch is in exactly one place: handed out or still there.
  lemma {:induction false} ReplayConserves(batch: seq<Task>, rid: Word, log: seq<Word>)
    ensures var o := Replay(batch, rid, log);
            multiset(TasksOf(o.popped)) + multiset(o.rest) == multiset(batch) && |o.popped| + |o.rest| == |batch|
  {
    if log != [] {
      ReplayConserves(batch, rid, log[..|log| - 1]);
      ConsumeConserves(Replay(batch, rid, log[..|log| - 1]), rid, log[|log| - 1]);
    }
  }

  predicate Unkeyed(batch: seq<Task>, rid: Word) {
    forall t | t in batch :: t.rid == rid && t.key.None?
  }

  // Without keys, n wakeups hand out the first n tasks in the order of submission.
  lemma {:induction false} UnkeyedIsPrefix(batch: seq<Task>, rid: Word, log: seq<Word>)
    requires Unkeyed(batch, rid)
    ensures var o := Replay(batch, rid, log); var n := Min(|log|, |batch|);
            TasksOf(o.popped) == batch[..n] && o.rest == batch[n..]
  {
    if log != [] {
      UnkeyedIsPrefix(batch, rid, log[..|log| - 1]);
      var o := Replay(batch, rid, log[..|log| - 1]);
      if o.rest != [] {
        assert o.rest[0] in batch;
        assert TasksOf(o.popped + [Hit(o.rest[0], log[|log| - 1])]) == TasksOf(o.popped) + [o.rest[0]];
      }
    }
  }

  // Every task insists on its own completion data, as the recv tasks of one request do.
  predicate Keyed(batch: seq<Task>, rid: Word) {
    && (forall t | t in batch :: t.rid == rid && t.key.Some?)
    && forall i, j | 0 <= i < j < |batch| :: batch[i].key != batch[j].key
  }

  function KeyIn(log: seq<Word>): Task -> bool {
    (t: Task) => t.key.Some? && t.key.value in log
  }

  // Whatever arrives, in whatever order and however often: exactly the tasks whose data has
  // arrived are gone.
  lemma {:induction false} KeyedRest(batch: seq<Task>, rid: Word, log: seq<Word>)
    requires Keyed(batch, rid)
    ensures Replay(batch, rid, log).rest == Drop(batch, KeyIn(log))
  {
    if log == [] {
      DropNothing(batch, KeyIn(log));
    } else {
      var before, data := log[..|log| - 1], log[|log| - 1];
      KeyedRest(batch, rid, before);
      TakeKey(batch, rid, before, data);
      assert log == before + [data];
    }
  }

  // Each was handed out with its own data, which had arrived ...
  lemma {:induction false} KeyedHits(batch: seq<Task>, rid: Word, log: seq<Word>, h: Hit)
    requires Keyed(batch, rid) && h in Replay(batch, rid, log).popped
    ensures h.task in batch && h.task.key == Some(h.data) && h.data in log
  {
    var before, data := log[..|log| - 1], log[|log| - 1];
    var o := Replay(batch, rid, before);
    if h in o.popped {
      KeyedHits(batch, rid, before, h);
    } else {
      KeyedRest(batch, rid, before);
      var i := TakeSplits(o.rest, Matching(rid, data));
      DropMembers(batch, KeyIn(before), o.rest[i]);
    }
  }

  // ... and never twice.
  lemma {:induction false} KeyedOnce(batch: seq<Task>, rid: Word, log: seq<Word>, i: nat, j: nat)
    requires Keyed(batch, rid) && i < j < |Replay(batch, rid, log).popped|
    ensures Replay(batch, rid, log).popped[i].task != Replay(batch, rid, log).popped[j].task
  {
    var before, data := log[..|log| - 1], log[|log| - 1];
    var o := Replay(batch, rid, before);
    if j < |o.popped| {
      KeyedOnce(batch, rid, before, i, j);
    } else {
      KeyedHits(batch, rid, before, o.popped[i]);
      KeyedRest(batch, rid, before);
      var k := TakeSplits(o.rest, Matching(rid, data));
      DropMembers(batch, KeyIn(before), o.rest[k]);
    }
  }

  // Once all the distinct keys have arrived nothing is left.
  lemma AllArrivedAllRun(batch: seq<Task>, rid: Word, log: seq<Word>)
    requires Keyed(batch, rid) && forall t | t in batch :: t.key.value in log
    ensures var o := Replay(batch, rid, log);
            o.rest == [] && |o.popped| == |batch| && multiset(TasksOf(o.popped)) == multiset(batch)
  {
    KeyedRest(batch, rid, log);
    ReplayConserves(batch, rid, log);
    var o := Replay(batch, rid, log);
    if o.rest != [] {
      DropMembers(batch, KeyIn(log), o.rest[0]);
      assert false;
    }
  }

  lemma {:induction false} DropNothing<T>(s: seq<T>, p: T -> bool)
    requires forall x | x in s :: !p(x)
    ensures Drop(s, p) == s
  {
    if s != [] {
      DropNothing(s[1..], p);
    }
  }

  lemma {:induction false} DropMembers<T>(s: seq<T>, p: T -> bool, x: T)
    ensures x in Drop(s, p) <==> x in s && !p(x)
  {
    if s != [] {
      DropMembers(s[1..], p, x);
    }
  }

  lemma {:induction false} TakeKey(batch: seq<Task>, rid: Word, log: seq<Word>, data: Word)
    requires Keyed(batch, rid)
    ensures TakeFirst(Drop(batch, KeyIn(log)), Matching(rid, data)).rest == Drop(batch, KeyIn(log + [data]))
  {
    if batch != [] {
      TakeKey(batch[1..], rid, log, data);
      var t, rest := batch[0], batch[1..];
      assert t in batch;
      if t.key.value !in log {
        assert Drop(batch, KeyIn(log)) == [t] + Drop(rest, KeyIn(log));
        assert Drop(batch, KeyIn(log))[1..] == Drop(rest, KeyIn(log));
        if t.key.value == data {
          assert forall u | u in rest :: u.key.value != data;
          SameDrop(rest, KeyIn(log), KeyIn(log + [data]));
        }
      } else {
        assert Drop(batch, KeyIn(log)) == Drop(rest, KeyIn(log));
      }
    }
  }

  lemma {:induction false} SameDrop<T>(s: seq<T>, p: T -> bool, q: T -> bool)
    requires forall x | x in s :: p(x) == q(x)
    ensures Drop(s, p) == Drop(s, q)
  {
    if s != [] {
      SameDrop(s[1..], p, q);
    }
  }
}
