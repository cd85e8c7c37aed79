/** The chained hash table of request contexts is a finite map from request id to context. */
module RequestTable {
  import opened Codec
  import opened Lists
  import opened PoolSpec

  const REQ_HASH_SIZE: nat := 1024

  function HashReqId(rid: Word): (h: nat)
    ensures h < REQ_HASH_SIZE
  {
    (rid.bits % 1024) as int
  }

  class Node {
    const rid: Word
    const worker: nat
    const callback: Callback
    var pending: int
    var next: Node?

    constructor (rid: Word, worker: nat, pending: int, callback: Callback, next: Node?)
      ensures this.rid == rid && this.worker == worker && this.callback == callback
      ensures this.pending == pending && this.next == next
    {
      this.rid, this.worker, this.pending, this.callback, this.next := rid, worker, pending, callback, next;
    }
  }

  // What a node stands for, and the map that a chain of them stands for.
  datatype Entry = Entry(rid: Word, ctx: Context)

  function AsMap(entries: seq<Entry>): map<Word, Context> {
    if entries == [] then map[] else AsMap(entries[1..])[entries[0].rid := entries[0].ctx]
  }

  predicate Distinct(entries: seq<Entry>) {
    forall i, j | 0 <= i < j < |entries| :: entries[i].rid != entries[j].rid
  }

  lemma {:induction false} LookupEntry(entries: seq<Entry>, rid: Word, i: nat)
    requires Distinct(entries) && i <= |entries|
    requires forall j | 0 <= j < i :: entries[j].rid != rid
    requires i < |entries| ==> entries[i].rid == rid
    ensures Get(AsMap(entries), rid) == if i < |entries| then Some(entries[i].ctx) else None
  {
    if i > 0 {
      LookupEntry(entries[1..], rid, i - 1);
    }
  }

  lemma {:induction false} KeysOfEntries(entries: seq<Entry>, rid: Word)
    ensures rid in AsMap(entries) <==> exists i :: 0 <= i < |entries| && entries[i].rid == rid
  {
    if entries != [] {
      KeysOfEntries(entries[1..], rid);
      if i :| 0 <= i < |entries| && entries[i].rid == rid && i > 0 {
        assert entries[1..][i - 1].rid == rid;
      }
      if i :| 0 <= i < |entries[1..]| && entries[1..][i].rid == rid {
        assert entries[i + 1].rid == rid;
      }
    }
  }

  lemma {:induction false} ReplaceEntry(entries: seq<Entry>, i: nat, ctx: Context)
    requires Distinct(entries) && i < |entries|
    ensures AsMap(entries[i := Entry(entries[i].rid, ctx)]) == AsMap(entries)[entries[i].rid := ctx]
  {
    var updated := entries[i := Entry(entries[i].rid, ctx)];
    if i == 0 {
      assert updated[1..] == entries[1..];
    } else {
      assert updated[1..] == entries[1..][i - 1 := Entry(entries[i].rid, ctx)];
      ReplaceEntry(entries[1..], i - 1, ctx);
    }
  }

  lemma {:induction false} RemoveEntry(entries: seq<Entry>, i: nat)
    requires Distinct(entries) && i < |entries|
    ensures AsMap(entries[..i] + entries[i + 1..]) == AsMap(entries) - {entries[i].rid}
  {
    var rest := entries[..i] + entries[i + 1..];
    if i == 0 {
      assert rest == entries[1..];
      KeysOfEntries(rest, entries[0].rid);
      assert forall j | 0 <= j < |rest| :: rest[j] == entries[j + 1];
    } else {
      assert rest[1..] == entries[1..][..i - 1] + entries[1..][i..];
      RemoveEntry(entries[1..], i - 1);
    }
  }

  // One slot of the table: the head pointer and the contexts chained behind it.
  class Bucket {
    var head: Node?
    ghost var nodes: seq<Node>
    ghost var entries: seq<Entry>

    ghost predicate Valid()
      reads this, nodes
    {
      && |nodes| == |entries| && Distinct(entries)
      && head == (if nodes == [] then null else nodes[0])
      && (forall i {:trigger nodes[i].next} | 0 <= i < |nodes| ::
            nodes[i].next == if i + 1 < |nodes| then nodes[i + 1] else null)
      && (forall i {:trigger nodes[i]} | 0 <= i < |nodes| ::
            entries[i] == Entry(nodes[i].rid, Context(nodes[i].worker, nodes[i].pending, nodes[i].callback)))
    }

    ghost function Contents(): map<Word, Context>
      reads this
    {
      AsMap(entries)
    }

    constructor ()
      ensures Valid() && Contents() == map[] && nodes == []
    {
      head, nodes, entries := null, [], [];
    }

    // The loop shared by lookup and removal: the context, if any, and its predecessor.
    method Scan(rid: Word) returns (prev: Node?, ctx: Node?, ghost i: nat)
      requires Valid()
      ensures i <= |nodes| && ctx == (if i < |nodes| then nodes[i] else null)
      ensures prev == (if i > 0 then nodes[i - 1] else null)
      ensures ctx != null ==> ctx.rid == rid
      ensures Get(Contents(), rid) == if ctx == null then None else Some(Context(ctx.worker, ctx.pending, ctx.callback))
    {
      prev, ctx, i := null, head, 0;
      while ctx != null && ctx.rid != rid
        invariant 0 <= i <= |nodes| && ctx == (if i < |nodes| then nodes[i] else null)
        invariant prev == (if i > 0 then nodes[i - 1] else null)
        invariant forall j | 0 <= j < i :: entries[j].rid != rid
        decreases |nodes| - i
      {
        prev, ctx, i := ctx, ctx.next, i + 1;
      }
      LookupEntry(entries, rid, i);
    }

    // Every in-place change of ctx->pending_count.
    method SetPending(ctx: Node, pending: int, ghost i: nat)
      requires Valid() && i < |nodes| && nodes[i] == ctx
      modifies this`entries, ctx`pending
      ensures Valid() && Contents() == old(Contents())[ctx.rid := Context(ctx.worker, pending, ctx.callback)]
      ensures ctx.pending == pending
    {
      ctx.pending := pending;
      ReplaceEntry(entries, i, Context(ctx.worker, pending, ctx.callback));
      entries := entries[i := Entry(ctx.rid, Context(ctx.worker, pending, ctx.callback))];
    }

    // insert_req_context_locked
    method Insert(rid: Word, worker: nat, pending: int, callback: Callback) returns (ghost added: Node)
      requires Valid() && rid !in Contents()
      modifies this
      ensures Valid() && Contents() == old(Contents())[rid := Context(worker, pending, callback)]
      ensures fresh(added) && added.rid == rid && nodes == [added] + old(nodes)
    {
      KeysOfEntries(entries, rid);
      var node := new Node(rid, worker, pending, callback, head);
      head := node;
      nodes, entries := [node] + nodes, [Entry(rid, Context(worker, pending, callback))] + entries;
      added := node;
    }

    method Unlink(prev: Node?, ctx: Node, ghost i: nat)
      requires Valid() && i < |nodes| && ctx == nodes[i] && prev == (if i > 0 then nodes[i - 1] else null)
      modifies this, if prev == null then {} else {prev}
      ensures Valid() && nodes == old(nodes)[..i] + old(nodes)[i + 1..]
      ensures entries == old(entries)[..i] + old(entries)[i + 1..]
    {
      if prev == null {
        head := ctx.next;
      } else {
        prev.next := ctx.next;
      }
      nodes, entries := nodes[..i] + nodes[i + 1..], entries[..i] + entries[i + 1..];
    }

    // remove_req_context_locked
    method Remove(rid: Word) returns (removed: bool)
      requires Valid()
      modifies this, nodes
      ensures Valid() && Contents() == old(Contents()) - {rid} && removed == (rid in old(Contents()))
      ensures forall n | n in nodes :: n in old(nodes)
    {
      var prev, ctx, i := Scan(rid);
      removed := ctx != null;
      if ctx == null {
        assert Contents() - {rid} == Contents();
      } else {
        assert entries[i].rid == rid;
        RemoveEntry(entries, i);
        Unlink(prev, ctx, i);
      }
    }
  }

  // The buckets together map every id as the map does.
  ghost predicate Consistent(contents: map<Word, Context>, maps: seq<map<Word, Context>>, hash: Word -> nat) {
    forall rid {:trigger Get(contents, rid)} :: hash(rid) < |maps| && Get(contents, rid) == Get(maps[hash(rid)], rid)
  }

  lemma StillConsistent(contents: map<Word, Context>, maps: seq<map<Word, Context>>, hash: Word -> nat,
                        rid: Word, value: Option<Context>)
    requires Consistent(contents, maps, hash) && hash(rid) < |maps|
    ensures Consistent(Put(contents, rid, value), maps[hash(rid) := Put(maps[hash(rid)], rid, value)], hash)
  {
    var after, moved := Put(contents, rid, value), maps[hash(rid) := Put(maps[hash(rid)], rid, value)];
    forall r ensures hash(r) < |moved| && Get(after, r) == Get(moved[hash(r)], r) {
      var was := Get(contents, r);
      assert was == Get(maps[hash(r)], r);
    }
  }

  class RequestTable {
    const buckets: seq<Bucket>
    const hash: Word -> nat
    ghost var repr: set<Node>
    ghost var contents: map<Word, Context>

    // Each bucket is a proper chain and holds contexts of its own hash only.
    ghost predicate Filed()
      reads this, buckets, repr
    {
      && |buckets| == REQ_HASH_SIZE && (forall rid :: hash(rid) < REQ_HASH_SIZE)
      && (forall g, h | 0 <= g < h < REQ_HASH_SIZE :: buckets[g] != buckets[h])
      && forall h {:trigger buckets[h]} | 0 <= h < REQ_HASH_SIZE ::
           (forall n | n in buckets[h].nodes :: n in repr && hash(n.rid) == h) && buckets[h].Valid()
    }

    ghost function Maps(): (maps: seq<map<Word, Context>>)
      reads this, buckets
      ensures |maps| == |buckets| && forall h | 0 <= h < |maps| :: maps[h] == buckets[h].Contents()
    {
      seq(|buckets|, h requires 0 <= h < |buckets| reads buckets => buckets[h].Contents())
    }

    ghost predicate Valid()
      reads this, buckets, repr
    {
      Filed() && Consistent(contents, Maps(), hash)
    }

    constructor ()
      ensures Valid() && contents == map[] && hash == HashReqId
    {
      var slots: seq<Bucket> := [];
      for i := 0 to REQ_HASH_SIZE
        invariant |slots| == i && fresh(slots)
        invariant forall g, h | 0 <= g < h < i :: slots[g] != slots[h]
        invariant forall h | 0 <= h < i :: slots[h].Valid() && slots[h].nodes == [] && slots[h].Contents() == map[]
      {
        var slot := new Bucket();
        slots := slots + [slot];
      }
      buckets := slots;
      hash := HashReqId;
      repr := {};
      contents := map[];
    }

    // find_req_context_locked
    method Find(rid: Word) returns (ctx: Node?, ghost i: nat)
      requires Valid()
      ensures Get(contents, rid) == if ctx == null then None else Some(Context(ctx.worker, ctx.pending, ctx.callback))
      ensures ctx != null ==> i < |buckets[hash(rid)].nodes| && buckets[hash(rid)].nodes[i] == ctx && ctx.rid == rid
    {
      var prev;
      prev, ctx, i := buckets[hash(rid)].Scan(rid);
    }

    // What the operations below do to the buckets.

    method SetInBucket(ctx: Node, pending: int, ghost i: nat)
      requires Filed() && i < |buckets[hash(ctx.rid)].nodes| && buckets[hash(ctx.rid)].nodes[i] == ctx
      modifies buckets[hash(ctx.rid)], ctx
      ensures Filed() && ctx.pending == pending
      ensures var h, old_ := hash(ctx.rid), old(Maps());
              Maps() == old_[h := Put(old_[h], ctx.rid, Some(Context(ctx.worker, pending, ctx.callback)))]
    {
      buckets[hash(ctx.rid)].SetPending(ctx, pending, i);
    }

    method InsertInBucket(rid: Word, worker: nat, pending: int, callback: Callback)
      requires Filed() && rid !in Maps()[hash(rid)]
      modifies this`repr, buckets[hash(rid)]
      ensures Filed()
      ensures var h, old_ := hash(rid), old(Maps());
              Maps() == old_[h := Put(old_[h], rid, Some(Context(worker, pending, callback)))]
    {
      ghost var h := hash(rid);
      ghost var added := buckets[hash(rid)].Insert(rid, worker, pending, callback);
      repr := repr + {added};
      assert forall g {:trigger buckets[g]} | 0 <= g < REQ_HASH_SIZE && g != h ::
               unchanged(buckets[g]) && buckets[g].Contents() == old(buckets[g].Contents());
    }

    method RemoveFromBucket(rid: Word) returns (removed: bool)
      requires Filed()
      modifies buckets[hash(rid)], buckets[hash(rid)].nodes
      ensures Filed() && removed == (rid in old(Maps())[hash(rid)])
      ensures var h, old_ := hash(rid), old(Maps());
              Maps() == old_[h := Put(old_[h], rid, None)]
    {
      removed := buckets[hash(rid)].Remove(rid);
    }

    // Every in-place change of ctx->pending_count.
    method Set(ctx: Node, pending: int, ghost i: nat)
      requires Valid() && i < |buckets[hash(ctx.rid)].nodes| && buckets[hash(ctx.rid)].nodes[i] == ctx
      modifies this, buckets, repr
      ensures Valid() && contents == old(contents)[ctx.rid := Context(ctx.worker, pending, ctx.callback)]
      ensures ctx.pending == pending && repr == old(repr)
    {
      StillConsistent(contents, Maps(), hash, ctx.rid, Some(Context(ctx.worker, pending, ctx.callback)));
      SetInBucket(ctx, pending, i);
      contents := contents[ctx.rid := Context(ctx.worker, pending, ctx.callback)];
    }

    // insert_req_context_locked
    method Insert(rid: Word, worker: nat, pending: int, callback: Callback)
      requires Valid() && rid !in contents
      modifies this, buckets, repr
      ensures Valid() && contents == old(contents)[rid := Context(worker, pending, callback)]
    {
      assert Get(contents, rid).None?;
      StillConsistent(contents, Maps(), hash, rid, Some(Context(worker, pending, callback)));
      InsertInBucket(rid, worker, pending, callback);
      contents := contents[rid := Context(worker, pending, callback)];
    }

    // remove_req_context_locked
    method Remove(rid: Word) returns (removed: bool)
      requires Valid()
      modifies this, buckets, repr
      ensures Valid() && contents == old(contents) - {rid} && removed == (rid in old(contents))
    {
      assert Get(contents, rid) == Get(Maps()[hash(rid)], rid);
      StillConsistent(contents, Maps(), hash, rid, None);
      removed := RemoveFromBucket(rid);
      contents := contents - {rid};
    }

    // ----- The critical sections of req_hash_mutex.

    // thread_pool_wake_up_worker_by_req_id and thread_pool_cancel_tasks_by_req, lookup half
    method LookupWorker(rid: Word) returns (worker: Option<nat>)
      requires Valid()
      ensures worker == if rid in contents then Some(contents[rid].worker) else None
    {
      var ctx, i := Find(rid);
      worker := if ctx == null then None else Some(ctx.worker);
    }

    // update_batch_context
    method Publish(rid: Word, worker: nat, taskCount: nat, callback: Callback)
      requires Valid()
      modifies this, buckets, repr
      ensures Valid()
      ensures contents == Put(old(contents), rid, 
                             Some(Published(Get(old(contents), rid), worker, taskCount, callback)))
    {
      var ctx, i := Find(rid);
      if ctx != null {
        Set(ctx, ctx.pending + taskCount, i);
      } else {
        Insert(rid, worker, taskCount, callback);
      }
    }

    // The closing section of worker_process_task; `due` is the callback to call after the unlock.
    method Settle(rid: Word) returns (due: Callback)
      requires Valid()
      modifies this, buckets, repr
      ensures Valid() && contents == Put(old(contents), rid, Settled(Get(old(contents), rid)))
      ensures due == if SettlementFires(Get(old(contents), rid)) then old(contents)[rid].callback else None
    {
      var ctx, i := Find(rid);
      due := None;
      if ctx != null {
        Set(ctx, ctx.pending - 1, i);
        if ctx.pending == 0 {
          due := ctx.callback;
          var removed := Remove(rid);
        }
      }
    }

    // update_context_after_cancel
    method Deduct(rid: Word, removed: nat)
      requires Valid()
      modifies this, buckets, repr
      ensures Valid() && contents == Put(old(contents), rid, Deducted(Get(old(contents), rid), removed))
    {
      var ctx, i := Find(rid);
      if ctx != null {
        if 0 <= ctx.pending <= removed {
          var found := Remove(rid);
        } else {
          Set(ctx, ctx.pending - removed, i);
        }
      }
    }
  }
}
