/** The singly linked lists of a worker: head, tail and size, relinked in place. The task queue
    and the pending wakeups are both such lists. */
module LinkedLists {
  import opened Lists

  class Node<T> {
    const value: T
    var next: Node?<T>

    constructor (value: T)
      ensures this.value == value && next == null
    {
      this.value := value;
      next := null;
    }
  }

  // head, tail and the next fields run through exactly these nodes, which carry these values.
  ghost predicate Chain<T>(head: Node?<T>, tail: Node?<T>, nodes: seq<Node<T>>, values: seq<T>)
    reads nodes
  {
    && |nodes| == |values|
    && (forall i {:trigger nodes[i].value} | 0 <= i < |nodes| :: nodes[i].value == values[i])
    && (forall i, j | 0 <= i < j < |nodes| :: nodes[i] != nodes[j])
    && (forall i {:trigger nodes[i].next} | 0 <= i < |nodes| - 1 :: nodes[i].next == nodes[i + 1])
    && (if nodes == [] then head == null && tail == null
        else head == nodes[0] && tail == nodes[|nodes| - 1] && nodes[|nodes| - 1].next == null)
  }

  // build_batch_nodes: one node after the other at the end of a private chain.
  method BuildChain<T>(values: seq<T>) returns (head: Node?<T>, tail: Node?<T>, ghost nodes: seq<Node<T>>)
    ensures Chain(head, tail, nodes, values) && fresh(nodes)
  {
    head, tail, nodes := null, null, [];
    for i := 0 to |values|
      invariant Chain(head, tail, nodes, values[..i]) && fresh(nodes)
    {
      var node := new Node(values[i]);
      if tail != null {
        tail.next := node;
        tail := node;
      } else {
        head, tail := node, node;
      }
      nodes := nodes + [node];
    }
    assert values[..|values|] == values;
  }

  class LinkedList<T> {
    var head: Node?<T>
    var tail: Node?<T>
    var size: nat
    ghost var nodes: seq<Node<T>>
    ghost var contents: seq<T>

    ghost predicate Valid()
      reads this, nodes
    {
      size == |nodes| && Chain(head, tail, nodes, contents)
    }

    constructor ()
      ensures Valid() && contents == [] && nodes == []
    {
      head, tail, size, nodes, contents := null, null, 0, [], [];
    }

    // worker_queue_push and worker_pending_req_push
    method Push(value: T)
      requires Valid()
      modifies this, nodes
      ensures Valid() && contents == old(contents) + [value]
      ensures forall n | n in nodes :: n in old(nodes) || fresh(n)
    {
      var node := new Node(value);
      if tail != null {
        tail.next := node;
      } else {
        head := node;
      }
      tail := node;
      size := size + 1;
      nodes, contents := nodes + [node], contents + [value];
    }

    // attach_nodes_to_worker
    method Attach(first: Node<T>, last: Node<T>, created: nat, ghost chain: seq<Node<T>>, ghost values: seq<T>)
      requires Valid() && Chain(first, last, chain, values) && created == |chain|
      requires forall i, j | 0 <= i < |nodes| && 0 <= j < |chain| :: nodes[i] != chain[j]
      modifies this, nodes
      ensures Valid() && contents == old(contents) + values && nodes == old(nodes) + chain
    {
      if tail != null {
        tail.next := first;
      } else {
        head := first;
      }
      tail := last;
      size := size + created;
      nodes, contents := nodes + chain, contents + values;
    }

    // worker_pending_req_pop
    method PopHead() returns (value: Option<T>)
      requires Valid()
      modifies this
      ensures Valid()
      ensures old(contents) == [] ==> value.None? && contents == []
      ensures old(contents) != [] ==> value == Some(old(contents)[0]) && contents == old(contents)[1..]
      ensures forall n | n in nodes :: n in old(nodes)
    {
      var node := head;
      if node == null {
        return None;
      }
      value := Some(node.value);
      head := node.next;
      if head == null {
        tail := null;
      }
      size := size - 1;
      nodes, contents := nodes[1..], contents[1..];
    }

    // What every removal does at node curr, whose predecessor is prev.
    method Unlink(prev: Node?<T>, curr: Node<T>, ghost i: nat)
      requires Chain(head, tail, nodes, contents) && i < |nodes| && nodes[i] == curr
      requires prev == (if i > 0 then nodes[i - 1] else null)
      modifies this, if prev == null then {} else {prev}
      ensures Chain(head, tail, nodes, contents) && size == old(size)
      ensures nodes == old(nodes)[..i] + old(nodes)[i + 1..]
      ensures contents == old(contents)[..i] + old(contents)[i + 1..]
    {
      if prev != null {
        prev.next := curr.next;
      } else {
        head := curr.next;
      }
      if curr == tail {
        tail := prev;
      }
      nodes, contents := nodes[..i] + nodes[i + 1..], contents[..i] + contents[i + 1..];
    }

    // The scan for the first match, with the predecessor that unlinking needs.
    method Find(p: T -> bool) returns (prev: Node?<T>, curr: Node?<T>, ghost i: nat)
      requires Valid()
      ensures i <= |nodes| && forall j | 0 <= j < i :: !p(contents[j])
      ensures curr == (if i < |nodes| then nodes[i] else null)
      ensures prev == (if i > 0 then nodes[i - 1] else null)
      ensures if curr == null then forall v | v in contents :: !p(v) else p(curr.value) && curr.value == contents[i]
    {
      prev, curr, i := null, head, 0;
      while curr != null && !p(curr.value)
        invariant 0 <= i <= |nodes|
        invariant curr == (if i < |nodes| then nodes[i] else null)
        invariant prev == (if i > 0 then nodes[i - 1] else null)
        invariant forall j | 0 <= j < i :: !p(contents[j])
        decreases |nodes| - i
      {
        prev := curr;
        curr := curr.next;
        i := i + 1;
      }
    }

    // worker_queue_pop_by_req_and_user_data: unlink the first match.
    method TakeMatch(p: T -> bool) returns (hit: Option<T>)
      requires Valid()
      modifies this, nodes
      ensures Valid() && Taken(hit, contents) == TakeFirst(old(contents), p)
      ensures forall n | n in nodes :: n in old(nodes)
    {
      var prev, curr, i := Find(p);
      TakeFirstAt(contents, p, i);
      if curr == null {
        return None;
      }
      hit := Some(curr.value);
      Unlink(prev, curr, i);
      size := size - 1;
    }

    ghost predicate At(prev: Node?<T>, curr: Node?<T>, k: nat)
      reads this, nodes
    {
      && Chain(head, tail, nodes, contents) && k <= |nodes|
      && curr == (if k < |nodes| then nodes[k] else null)
      && prev == (if k > 0 then nodes[k - 1] else null)
    }

    // One round of a removal loop.
    method Visit(p: T -> bool, prev: Node?<T>, curr: Node<T>, ghost k: nat)
      returns (before: Node?<T>, next: Node?<T>, gone: bool)
      requires At(prev, curr, k)
      modifies this, if prev == null then {} else {prev}
      ensures At(before, next, if gone then k else k + 1) && gone == p(curr.value) && size == old(size)
      ensures contents == if gone then old(contents)[..k] + old(contents)[k + 1..] else old(contents)
      ensures forall n | n in nodes :: n in old(nodes)
    {
      next := curr.next;
      gone := p(curr.value);
      if gone {
        Unlink(prev, curr, k);
        before := prev;
      } else {
        before := curr;
      }
    }

    // The removal loops of cancel_in_worker_queue and worker_pending_req_remove_by_req, which
    // leave the size to their callers.
    method UnlinkAll(p: T -> bool) returns (removed: nat)
      requires Chain(head, tail, nodes, contents)
      modifies this, nodes
      ensures Chain(head, tail, nodes, contents) && contents == Drop(old(contents), p)
      ensures removed + |nodes| == |old(nodes)| && size == old(size)
      ensures forall n | n in nodes :: n in old(nodes)
    {
      ghost var kept, rest := [], contents;
      var prev: Node?<T>, curr := null, head;
      removed := 0;
      while curr != null
        invariant contents == kept + rest && At(prev, curr, |kept|)
        invariant forall n | n in nodes :: n in old(nodes)
        invariant Drop(old(contents), p) == kept + Drop(rest, p)
        invariant removed + |contents| == |old(contents)| && size == old(size)
        decreases |rest|
      {
        MoveOn(kept, rest);
        DropFirst(kept, rest, p);
        assert prev != null ==> prev in nodes;
        var gone: bool;
        prev, curr, gone := Visit(p, prev, curr, |kept|);
        if gone {
          removed := removed + 1;
        } else {
          kept := kept + [rest[0]];
        }
        rest := rest[1..];
      }
    }

    method RemoveAll(p: T -> bool) returns (removed: nat)
      requires Valid()
      modifies this, nodes
      ensures Valid() && contents == Drop(old(contents), p)
      ensures removed == |Select(old(contents), p)|
      ensures forall n | n in nodes :: n in old(nodes)
    {
      SelectAndDropPartition(contents, p);
      removed := UnlinkAll(p);
      size := size - removed;
    }

    // worker_pending_req_clear
    method Clear()
      requires Valid()
      modifies this
      ensures Valid() && contents == []
    {
      var curr := head;
      ghost var i := 0;
      while curr != null
        invariant 0 <= i <= |nodes| && curr == (if i < |nodes| then nodes[i] else null)
        decreases |nodes| - i
      {
        curr := curr.next;
        i := i + 1;
      }
      head, tail, size, nodes, contents := null, null, 0, [], [];
    }
  }

  lemma {:induction false} TakeFirstAt<T>(s: seq<T>, p: T -> bool, i: nat)
    requires i <= |s| && (forall j | 0 <= j < i :: !p(s[j])) && (i < |s| ==> p(s[i]))
    ensures TakeFirst(s, p) == if i < |s| then Taken(Some(s[i]), s[..i] + s[i + 1..]) else Taken(None, s)
  {
    var k := TakeSplits(s, p);
  }

  lemma MoveOn<T>(kept: seq<T>, rest: seq<T>)
    requires rest != []
    ensures var s, k := kept + rest, |kept|;
            s[k] == rest[0] && s[..k] + s[k + 1..] == kept + rest[1..] && s == kept + [rest[0]] + rest[1..]
  {
    var s, k := kept + rest, |kept|;
    assert s[..k] == kept && s[k + 1..] == rest[1..];
  }

  lemma DropFirst<T>(kept: seq<T>, rest: seq<T>, p: T -> bool)
    requires rest != []
    ensures kept + Drop(rest, p) == (if p(rest[0]) then kept else kept + [rest[0]]) + Drop(rest[1..], p)
  {
    var tail := Drop(rest[1..], p);
    if p(rest[0]) {
      assert Drop(rest, p) == [] + tail == tail;
    } else {
      assert Drop(rest, p) == [rest[0]] + tail;
      AppendOne(kept, rest[0], tail);
    }
  }

  lemma AppendOne<T>(a: seq<T>, x: T, b: seq<T>)
    ensures a + ([x] + b) == (a + [x]) + b
  {}

  lemma {:induction false} SelectAndDropPartition<T>(s: seq<T>, p: T -> bool)
    ensures |Select(s, p)| + |Drop(s, p)| == |s|
  {
    if s != [] {
      SelectAndDropPartition(s[1..], p);
    }
  }
}
