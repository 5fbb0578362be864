/**
 * The run queue as its owner sees it: linked nodes in the heap, a fiber's own
 * node linked in on `Add`, and the old dummy handed to the fiber on `Poll`.
 * (Interleaved threads are the subject of QueueMachine.)
 */
module RunQueue {
  import opened Base

  class Node {
    var value: Fiber?
    var next: Node?

    constructor ()
      ensures value == null && next == null
    {
      value, next := null, null;
    }
  }

  datatype FiberState = NEW | RUNNABLE | BLOCKED | WAITING | TERMINATED

  class Fiber {
    var packing: Node
    var state: FiberState
    var blocker: object?
    var isIoWaitTimeout: bool
    var boundQueue: EFiberConcurrentQueue?

    constructor ()
      ensures fresh(packing) && packing.value == null && packing.next == null
      ensures state == NEW && blocker == null && !isIoWaitTimeout && boundQueue == null
    {
      packing := new Node();
      state, blocker, isIoWaitTimeout, boundQueue := NEW, null, false, null;
    }

    predicate IsHung()
      reads this
    {
      state == WAITING || state == BLOCKED
    }

    // A hung fiber knows its queue, is not in it, and carries its own handle.
    ghost predicate CanResume()
      reads this, packing, if boundQueue == null then {} else {boundQueue}
      reads if boundQueue == null then {} else set o: object | o in boundQueue.nodes
      reads if boundQueue == null then {} else set o: object | o in boundQueue.fibers
    {
      boundQueue != null && boundQueue.Valid() && packing.value == this && packing !in boundQueue.nodes
    }

    ghost function ResumeFrame(): set<object>
      reads this, if boundQueue == null then {} else {boundQueue}
    {
      if boundQueue == null then {this, packing}
      else
        var q: EFiberConcurrentQueue := boundQueue;
        {this, packing, q, q.tail}
    }

    // Whatever wakes a fiber (a blocker, a timer, a descriptor) comes here.
    // The first wake-up puts the fiber back in its own queue; the state it
    // leaves behind makes every further wake-up do nothing.
    method SwapIn()
      requires IsHung() ==> CanResume()
      modifies ResumeFrame()
      ensures !old(IsHung()) ==>
                unchanged(this) && unchanged(packing)
                && (boundQueue != null ==> unchanged(boundQueue) && unchanged(boundQueue.tail))
      ensures old(IsHung()) ==>
                && state == RUNNABLE && blocker == null
                && boundQueue == old(boundQueue) && boundQueue.Valid()
                && boundQueue.fibers == old(boundQueue.fibers) + [this]
                && boundQueue.nodes == old(boundQueue.nodes) + [packing]
                && packing == old(packing) && packing.value == this
                && isIoWaitTimeout == old(isIoWaitTimeout)
      ensures !IsHung()
    {
      if state == WAITING || state == BLOCKED {
        blocker := null;
        state := RUNNABLE;
        boundQueue.Add(packing.value);
      }
    }

    method IsWaitTimeout() returns (b: bool)
      modifies this`isIoWaitTimeout
      ensures b == old(isIoWaitTimeout) && !isIoWaitTimeout
    {
      b := isIoWaitTimeout;
      isIoWaitTimeout := false;
    }
  }

  // What stands in a queue after fiber `f` was added: `f` last, behind all
  // others, or only behind those that were ahead of it if it was in the queue.
  function Linked<T(==)>(q: seq<T>, f: T): seq<T> {
    if q == [] || q[0] == f then [f] else [q[0]] + Linked(q[1..], f)
  }

  lemma {:induction false} LinkedIs<T>(q: seq<T>, f: T, i: nat)
    requires i <= |q| && f !in q[..i] && (i < |q| ==> q[i] == f)
    ensures Linked(q, f) == q[..i] + [f]
  {
    if i > 0 {
      assert q[0] in q[..i] && q[1..][..i - 1] == q[..i][1..];
      LinkedIs(q[1..], f, i - 1);
    }
  }

  class EFiberConcurrentQueue {
    var head: Node
    var tail: Node
    ghost var fibers: seq<Fiber>   // the fibers in the queue, oldest first
    ghost var nodes: seq<Node>     // the dummy, then each fiber's own node

    ghost predicate Valid()
      reads this, nodes, fibers
    {
      && |nodes| == |fibers| + 1
      && head == nodes[0] && tail == nodes[|fibers|]
      && Distinct(nodes)
      && (forall i {:trigger fibers[i]} :: 0 <= i < |fibers| ==>
            && nodes[i].next == nodes[i + 1]
            && nodes[i + 1].value == fibers[i]
            && fibers[i].packing == nodes[i + 1])
      && nodes[|fibers|].next == null
    }

    constructor ()
      ensures Valid() && fibers == [] && fresh(nodes)
    {
      var node := new Node();
      head, tail := node, node;
      fibers, nodes := [], [node];
    }

    // Where a fiber stands in the queue; behind all if it does not.
    ghost function PlaceOf(e: Fiber): (i: nat)
      requires Valid() && (e.packing in nodes ==> e in fibers)
      reads this, nodes, fibers, e
      ensures i <= |fibers| && e !in fibers[..i]
      ensures if i < |fibers| then fibers[i] == e && nodes[i + 1] == e.packing else e.packing !in nodes && e !in fibers
    {
      if e !in fibers then |fibers|
      else
        var i :| 0 <= i < |fibers| && fibers[i] == e;
        assert forall j {:trigger fibers[j]} :: 0 <= j < i ==> fibers[j].packing != fibers[i].packing;
        i
    }

    // A fiber that is in no queue goes to the back, in its own node.  One that is
    // in this queue already has its linked node relinked: what stood behind it
    // is cut off, and if nothing did, its node comes to point to itself.
    method Add(e: Fiber)
      requires Valid() && (e.packing in nodes ==> e in fibers)
      modifies this, e.packing, tail
      ensures e.packing == old(e.packing) && e.packing.value == e && head == old(head) && tail == e.packing
      ensures fibers == Linked(old(fibers), e)
      ensures Valid() <==> old(fibers) == [] || old(fibers)[|old(fibers)| - 1] != e
      ensures !Valid() ==> e.packing.next == e.packing
      ensures e.packing !in old(nodes) ==> fibers == old(fibers) + [e] && nodes == old(nodes) + [e.packing]
    {
      var node := e.packing;
      ghost var i, was := PlaceOf(e), fibers;
      node.value := e;
      node.next := null;
      tail.next := node;
      tail := node;
      LinkedIs(fibers, e, i);
      if i == |fibers| - 1 {
        assert fibers[..i] + [e] == fibers;
      } else {
        fibers, nodes := fibers[..i] + [e], nodes[..i + 1] + [node];
        forall j | 0 <= j < |fibers|
          ensures nodes[j].next == nodes[j + 1] && nodes[j + 1].value == fibers[j] && fibers[j].packing == nodes[j + 1]
        {
          if j < i { assert was[j] == fibers[j]; }
        }
        assert i < |was| ==> was[|was| - 1].packing != was[i].packing;
      }
    }

    // The oldest fiber leaves with the old dummy as its node, stamped with its
    // own handle; its former node is the new dummy.
    method Poll() returns (v: Fiber?)
      requires Valid()
      modifies this, head, fibers
      ensures Valid()
      ensures v == null <==> old(fibers) == []
      ensures v == null ==> fibers == old(fibers) && nodes == old(nodes) && head == old(head) && tail == old(tail)
      ensures v != null ==>
                && v == old(fibers)[0] && fibers == old(fibers)[1..] && nodes == old(nodes)[1..]
                && v.packing == old(head) && v.packing !in nodes && v.packing.value == v
      ensures forall i :: 0 < i < |old(fibers)| ==> old(fibers)[i].packing == old(fibers[i].packing)
    {
      assert fibers != [] ==> fibers[0] in fibers;
      var node := head;
      var newHead := node.next;
      if newHead == null {
        return null;
      }
      v := newHead.value;
      head := newHead;
      node.value := v;
      v.packing := node;
      fibers, nodes := fibers[1..], nodes[1..];
    }
  }

  // The nodes of a queue and the nodes of the fibers outside it together stay
  // the same set through a dispatch: poll from one queue, add to another.
  method Move(from: EFiberConcurrentQueue, to: EFiberConcurrentQueue) returns (moved: Fiber?)
    requires from != to && from.Valid() && to.Valid()
    requires forall n :: n in from.nodes ==> n !in to.nodes
    modifies from, from.head, from.fibers, to, to.tail
    ensures from.Valid() && to.Valid()
    ensures forall n :: n in from.nodes ==> n !in to.nodes
    ensures (set n | n in from.nodes) + (set n | n in to.nodes)
         == old((set n | n in from.nodes) + (set n | n in to.nodes))
    ensures if old(from.fibers) == [] then moved == null && to.fibers == old(to.fibers)
            else moved == old(from.fibers)[0] && from.fibers == old(from.fibers)[1..]
                 && to.fibers == old(to.fibers) + [moved]
  {
    assert from.head in from.nodes;
    forall i, j | 0 <= i < |from.fibers| && 0 <= j < |to.fibers| ensures from.fibers[i] != to.fibers[j] {
      assert from.fibers[i].packing in from.nodes && to.fibers[j].packing in to.nodes;
    }
    label start:
    moved := from.Poll();
    assert to.Valid();
    if moved != null {
      assert old@start(from.nodes) == [moved.packing] + from.nodes;
      assert to.tail in to.nodes && to.tail !in from.nodes;
      assert forall i :: 0 <= i < |from.nodes| ==> from.nodes[i] != moved.packing && from.nodes[i] != to.tail;
      to.Add(moved);
    }
  }
}
