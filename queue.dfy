/**
 * The ready queue of src/queue.c: a singly linked list of nodes, each
 * holding a pointer to a job, with `head`, `tail` and `count`. Jobs are
 * added in arrival order (`Push`) or by one of two stable orders
 * (`PushBySerivce`, `PushByPriority`) and taken from the head (`Pop`).
 */
module Queues {
  import opened Processes

  /** The key an ordered push sorts by. */
  datatype Key = Service | Priority

  /**
   * `a` is to be served strictly before `b`: a smaller service time, or
   * a higher priority.
   */
  predicate Precedes(key: Key, a: Process, b: Process)
    ensures Precedes(key, a, b) ==> !SameKey(key, a, b)
  {
    match key
    case Service => a.service < b.service
    case Priority => a.priority > b.priority
  }

  /** Neither of `a` and `b` is to be served before the other. */
  predicate SameKey(key: Key, a: Process, b: Process) {
    match key
    case Service => a.service == b.service
    case Priority => a.priority == b.priority
  }

  /** `Precedes` is a strict weak order whose ties are exactly `SameKey`. */
  lemma PrecedesIsStrictOrder(key: Key, a: Process, b: Process, c: Process)
    ensures !Precedes(key, a, a)
    ensures Precedes(key, a, b) ==> !Precedes(key, b, a)
    ensures Precedes(key, a, b) && Precedes(key, b, c) ==> Precedes(key, a, c)
    ensures Precedes(key, a, b) || Precedes(key, b, a) || SameKey(key, a, b)
    ensures SameKey(key, a, b) && Precedes(key, b, c) ==> Precedes(key, a, c)
  {
  }

  /** No job is queued behind one it is to be served before. */
  ghost predicate Sorted(key: Key, s: seq<Process>) {
    forall i, j :: 0 <= i < j < |s| ==> !Precedes(key, s[j], s[i])
  }

  /**
   * The position an ordered push gives `p` in `s`: that of the first job
   * `p` is to be served before, or the end when there is none.
   */
  function Slot(key: Key, s: seq<Process>, p: Process): (k: nat)
    ensures k <= |s|
    ensures forall m :: 0 <= m < k ==> !Precedes(key, p, s[m])
    ensures k < |s| ==> Precedes(key, p, s[k])
  {
    if s == [] || Precedes(key, p, s[0]) then 0 else 1 + Slot(key, s[1..], p)
  }

  /** `s` with `p` inserted at its slot. */
  function Insert(key: Key, s: seq<Process>, p: Process): (r: seq<Process>)
    ensures |r| == |s| + 1 && r[Slot(key, s, p)] == p
    ensures r[..Slot(key, s, p)] + r[Slot(key, s, p) + 1..] == s
    ensures multiset(r) == multiset(s) + multiset{p}
  {
    var k := Slot(key, s, p);
    assert s == s[..k] + s[k..];
    s[..k] + [p] + s[k..]
  }

  /** An ordered push keeps a sorted queue sorted. */
  lemma InsertKeepsSorted(key: Key, s: seq<Process>, p: Process)
    requires Sorted(key, s)
    ensures Sorted(key, Insert(key, s, p))
  {
    var k := Slot(key, s, p);
    var r := Insert(key, s, p);
    forall i, j | 0 <= i < j < |r|
      ensures !Precedes(key, r[j], r[i])
    {
      if j < k {
        assert r[i] == s[i] && r[j] == s[j];
      } else if j == k {
        assert r[i] == s[i];
      } else if i == k {
        assert r[j] == s[j - 1];
        assert !Precedes(key, s[j - 1], s[k]);
      } else if i < k {
        assert r[i] == s[i] && r[j] == s[j - 1];
      } else {
        assert r[i] == s[i - 1] && r[j] == s[j - 1];
      }
    }
  }

  /**
   * An ordered push is stable: in a sorted queue, `p` lands behind every
   * job with the same key, and in front of every job it precedes.
   */
  lemma InsertIsStable(key: Key, s: seq<Process>, p: Process)
    requires Sorted(key, s)
    ensures forall m :: 0 <= m < |s| && SameKey(key, s[m], p) ==> m < Slot(key, s, p)
    ensures forall m :: 0 <= m < |s| && Precedes(key, p, s[m]) ==> Slot(key, s, p) <= m
  {
    var k := Slot(key, s, p);
    forall m | k <= m < |s|
      ensures Precedes(key, p, s[m]) && !SameKey(key, s[m], p)
    {
      assert !Precedes(key, s[m], s[k]) || m == k;
    }
  }

  class Node {
    const job: Process
    var next: Node?

    constructor (job: Process, next: Node?)
      ensures this.job == job && this.next == next
    {
      this.job := job;
      this.next := next;
    }
  }

  /**
   * The queue struct of src/queue.h. `nodes` is the list as it is linked
   * from `head`, `Contents` the jobs they hold. Like the C struct, a new
   * queue promises nothing about its fields until `Initialize` sets the
   * count.
   */
  class Queue {
    var count: int
    var head: Node?
    var tail: Node?

    ghost var Contents: seq<Process>
    ghost var nodes: seq<Node>
    ghost var Repr: set<object>

    /** The object invariant: `count` nodes linked from `head`, the last one ending the list. */
    ghost predicate Valid()
      reads this, Repr
    {
      && this in Repr
      && |nodes| == |Contents| == count
      && (forall k :: 0 <= k < |nodes| ==> nodes[k] in Repr && nodes[k].job == Contents[k])
      && (forall k, m :: 0 <= k < m < |nodes| ==> nodes[k] != nodes[m])
      && (0 < |nodes| ==> head == nodes[0] && nodes[|nodes| - 1].next == null)
      && (forall k {:trigger nodes[k].next} :: 0 <= k < |nodes| - 1 ==> nodes[k].next == nodes[k + 1])
    }

    /**
     * `tail` points at the last node. Every operation but the ordered
     * pushes keeps this, and `Push` depends on it.
     */
    ghost predicate TailIsLast()
      reads this
    {
      0 < |nodes| ==> tail == nodes[|nodes| - 1]
    }

    /** The declaration `queue waiting;`: no field is set. */
    constructor ()
    {
    }

    /** Sets the count to zero; `head` and `tail` are left as they were. */
    method Initialize()
      modifies this
      ensures Valid() && TailIsLast() && Contents == [] && Repr == {this}
    {
      count := 0;
      Contents, nodes, Repr := [], [], {this};
    }

    predicate IsEmpty()
      reads this, Repr
      requires Valid()
      ensures IsEmpty() <==> Contents == []
    {
      count == 0
    }

    /** Appends `j` at the tail. */
    method Push(j: Process)
      requires Valid() && TailIsLast()
      modifies Repr
      ensures Valid() && TailIsLast() && fresh(Repr - old(Repr))
      ensures Contents == old(Contents) + [j]
      ensures count == old(count) + 1
    {
      var newNode := new Node(j, null);
      if !IsEmpty() {
        tail.next := newNode;
        tail := newNode;
        count := count + 1;
      } else {
        head := newNode;
        tail := head;
        count := 1;
      }
      Contents, nodes, Repr := Contents + [j], nodes + [newNode], Repr + {newNode};
    }

    /** Inserts `j` by service time, behind every job whose service is not greater. */
    method PushBySerivce(j: Process)
      requires Valid()
      modifies Repr
      ensures Valid() && fresh(Repr - old(Repr))
      ensures Contents == Insert(Service, old(Contents), j)
      ensures count == old(count) + 1
      ensures old(Contents) == [] ==> TailIsLast()
      ensures old(Contents) != [] ==> tail == old(tail)
    {
      PushOrdered(Service, j);
    }

    /** Inserts `j` by priority, behind every job whose priority is not smaller. */
    method PushByPriority(j: Process)
      requires Valid()
      modifies Repr
      ensures Valid() && fresh(Repr - old(Repr))
      ensures Contents == Insert(Priority, old(Contents), j)
      ensures count == old(count) + 1
      ensures old(Contents) == [] ==> TailIsLast()
      ensures old(Contents) != [] ==> tail == old(tail)
    {
      PushOrdered(Priority, j);
    }

    /**
     * The body the two ordered pushes share: walk `before`/`after` down
     * the list while `j` is not to be served before `after`'s job, then
     * link the new node in between. `tail` is only set when the queue
     * was empty.
     */
    method PushOrdered(key: Key, j: Process)
      requires Valid()
      modifies Repr
      ensures Valid() && fresh(Repr - old(Repr))
      ensures Contents == Insert(key, old(Contents), j)
      ensures count == old(count) + 1
      ensures old(Contents) == [] ==> TailIsLast()
      ensures old(Contents) != [] ==> tail == old(tail)
    {
      var newNode := new Node(j, null);
      if !IsEmpty() {
        var before, after, k := Walk(key, j);
        Link(newNode, before, after, k);
      } else {
        LinkFirst(newNode);
      }
    }

    /** Makes `newNode` the only node of an empty queue, at both ends. */
    method LinkFirst(newNode: Node)
      requires Valid() && Contents == [] && newNode !in Repr
      modifies this, newNode
      ensures Valid() && TailIsLast() && Repr == old(Repr) + {newNode}
      ensures Contents == [newNode.job] && count == 1
    {
      head := newNode;
      head.next := null;
      tail := head;
      count := 1;
      Contents, nodes, Repr := [newNode.job], [newNode], Repr + {newNode};
    }

    /**
     * Links `newNode` in at position `k`, between `before` and `after` as
     * the walk left them: it becomes the head when `after` is still the head.
     */
    method Link(newNode: Node, before: Node, after: Node?, ghost k: nat)
      requires Valid() && newNode !in Repr && newNode.next == null
      requires k <= |nodes| && Contents != []
      requires after == (if k < |nodes| then nodes[k] else null)
      requires before == nodes[if k == 0 then 0 else k - 1]
      modifies this, before, newNode
      ensures Valid() && Repr == old(Repr) + {newNode}
      ensures Contents == old(Contents[..k]) + [newNode.job] + old(Contents[k..])
      ensures count == old(count) + 1 && tail == old(tail)
    {
      ghost var ns, cs := nodes, Contents;
      newNode.next := after;
      if after != head {
        before.next := newNode;
      } else {
        head := newNode;
      }
      count := count + 1;
      Contents, nodes, Repr := cs[..k] + [newNode.job] + cs[k..], ns[..k] + [newNode] + ns[k..], Repr + {newNode};
      forall m | 0 <= m < |nodes|
        ensures nodes[m] in Repr && nodes[m].job == Contents[m]
        ensures m < k ==> nodes[m] == ns[m]
        ensures k < m ==> nodes[m] == ns[m - 1]
      {
        if m < k {
          assert nodes[m] == ns[m] && Contents[m] == cs[m];
        } else if k < m {
          assert nodes[m] == ns[m - 1] && Contents[m] == cs[m - 1];
        }
      }
      forall m | 0 <= m < |nodes| - 1
        ensures nodes[m].next == nodes[m + 1]
      {
        if m < k - 1 {
          assert ns[m] != before;
        } else if 0 < k < m {
          assert ns[m - 1] != before;
        }
      }
    }

    /**
     * The search loop of the ordered pushes: `after` moves down the list
     * while `j` is not to be served before its job, `before` one node
     * behind it (both start at the head). It stops at `j`'s slot.
     */
    method Walk(key: Key, j: Process) returns (before: Node, after: Node?, ghost k: nat)
      requires Valid() && Contents != []
      ensures k == Slot(key, Contents, j)
      ensures after == (if k < |nodes| then nodes[k] else null)
      ensures before == nodes[if k == 0 then 0 else k - 1]
    {
      before, after, k := head, head, 0;
      while after != null && !Precedes(key, j, after.job)
        invariant 0 <= k <= |nodes|
        invariant after == (if k < |nodes| then nodes[k] else null)
        invariant before == nodes[if k == 0 then 0 else k - 1]
        invariant forall m :: 0 <= m < k ==> !Precedes(key, j, Contents[m])
        decreases |nodes| - k
      {
        before := after;
        after := after.next;
        k := k + 1;
      }
    }

    /** Removes the head node and returns its job. */
    method Pop() returns (j: Process)
      requires Valid() && Contents != []
      modifies this
      ensures Valid() && Repr <= old(Repr)
      ensures j == old(Contents)[0] && Contents == old(Contents)[1..]
      ensures count == old(count) - 1
      ensures old(TailIsLast()) ==> TailIsLast()
    {
      j := head.job;
      var deleting := head;
      head := head.next;
      count := count - 1;
      assert forall k :: 1 <= k < |nodes| ==> nodes[k] != deleting;
      Contents, nodes, Repr := Contents[1..], nodes[1..], Repr - {deleting};
    }
  }
}
