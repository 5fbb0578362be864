/**
 * What every step of the run queue keeps.  The auxiliary state is written
 * beside the program and never read by it: for each queue the fibers linked so
 * far and how many of them have been taken, for each node its one owner, for
 * each fiber the one place it is in.
 */
module QueueInvariant {
  import opened Base
  import opened QueueMachine

  datatype Owner = Dummy(q: Qid) | Of(h: Handle)

  // Queued(q, k): the k-th fiber ever linked into q, not taken yet.
  datatype Place = Outside | Adding(t: Tid) | Queued(q: Qid, k: nat) | Polling(t: Tid)

  datatype History = History(linked: seq<Handle>, taken: nat)

  datatype Aux = Aux(hist: map<Qid, History>, own: map<Node, Owner>, place: map<Handle, Place>)

  ghost predicate Shape(s: State, x: Aux) {
    && x.hist.Keys == s.queues.Keys
    && x.own.Keys == s.heap.Keys
    && x.place.Keys == s.packing.Keys
    && forall q {:trigger x.hist[q]} :: q in x.hist ==> x.hist[q].taken <= |x.hist[q].linked|
  }

  // The k-th fiber of a queue, still in it, sits in its own node.
  ghost predicate QueuedOk(s: State, x: Aux, q: Qid, k: nat) {
    q in x.hist && x.hist[q].taken <= k < |x.hist[q].linked| ==>
      var h := x.hist[q].linked[k];
      && h in x.place && x.place[h] == Queued(q, k)
      && h in s.packing
      && var n := s.packing[h];
      && n in s.heap && s.heap[n].value == Some(h)
      && n in x.own && x.own[n] == Of(h)
  }

  // The node whose `next` leads to the k-th fiber: the dummy, or the node of
  // the fiber before it.
  ghost function Before(s: State, x: Aux, q: Qid, k: nat): Node {
    if q in s.queues && q in x.hist then
      var y := x.hist[q];
      if k <= y.taken || |y.linked| < k then s.queues[q].head
      else if y.linked[k - 1] in s.packing then s.packing[y.linked[k - 1]]
      else 0
    else 0
  }

  ghost predicate LinkOk(s: State, x: Aux, q: Qid, k: nat) {
    q in x.hist && x.hist[q].taken <= k <= |x.hist[q].linked| ==>
      var y := x.hist[q];
      var n := Before(s, x, q, k);
      && n in s.heap
      && (if k == |y.linked| then s.heap[n].next == None
          else y.linked[k] in s.packing && s.heap[n].next == Some(s.packing[y.linked[k]]))
  }

  ghost predicate HeadOk(s: State, x: Aux, q: Qid) {
    q in s.queues ==>
      && q in x.hist
      && s.queues[q].head in s.heap && s.queues[q].head in x.own
      && x.own[s.queues[q].head] == Dummy(q)
  }

  // `tail` is the last node, except inside the window between the two writes
  // of `add`: then the adder still remembers the last node and `tail` may name
  // a node that has left the queue, has been added again or has been freed.
  ghost predicate TailOk(s: State, x: Aux, q: Qid) {
    q in s.queues && q in x.hist ==>
      var end := Before(s, x, q, |x.hist[q].linked|);
      match s.queues[q].tl
      case None => s.queues[q].tail == end
      case Some(t) =>
        && t in s.threads && s.threads[t].HoldsTailLock() && s.threads[t].q == q
        && (if s.threads[t].at == AddLinked then s.threads[t].node else s.queues[q].tail) == end
  }

  ghost predicate HeadLockOk(s: State, q: Qid) {
    q in s.queues && s.queues[q].hl.Some? ==>
      var t := s.queues[q].hl.value;
      t in s.threads && s.threads[t].HoldsHeadLock() && s.threads[t].q == q
  }

  ghost predicate OwnOk(s: State, x: Aux, n: Node) {
    n in x.own ==>
      match x.own[n]
      case Dummy(q) => q in s.queues && s.queues[q].head == n
      case Of(h) =>
        && h in x.place && h in s.packing
        && match x.place[h]
           case Polling(t) => t in s.threads && s.threads[t].node == n
           case _ => s.packing[h] == n
  }

  ghost predicate PlaceOk(s: State, x: Aux, h: Handle) {
    h in x.place ==>
      h in s.packing &&
      match x.place[h]
      case Outside =>
        && h in s.held
        && s.packing[h] in s.heap && s.packing[h] in x.own && x.own[s.packing[h]] == Of(h)
        && (s.held[h].polled ==> s.heap[s.packing[h]].value == Some(h))
      case Adding(t) => t in s.threads && s.threads[t].BeforeLink() && s.threads[t].fiber == h
      case Queued(q, k) =>
        && q in s.queues && q in x.hist && x.hist[q].taken <= k < |x.hist[q].linked|
        && x.hist[q].linked[k] == h
      case Polling(t) => t in s.threads && s.threads[t].AfterTake() && s.threads[t].fiber == h
  }

  ghost predicate HeldOk(s: State, x: Aux, h: Handle) {
    h in s.held ==> h in x.place && x.place[h] == Outside
  }

  // A thread inside `add`, up to the link.
  ghost predicate AdderOk(s: State, x: Aux, t: Tid) {
    t in s.threads && s.threads[t].BeforeLink() ==>
      var me := s.threads[t];
      && me.fiber in x.place && x.place[me.fiber] == Adding(t)
      && me.fiber in s.packing && s.packing[me.fiber] == me.node
      && me.node in s.heap && me.node in x.own && x.own[me.node] == Of(me.fiber)
      && (me.at == AddStart || s.heap[me.node].value == Some(me.fiber))
      && (me.at == AddStart || me.at == AddValued || s.heap[me.node].next == None)
  }

  // A thread inside `poll`, after the take.
  ghost predicate TakerOk(s: State, x: Aux, t: Tid) {
    t in s.threads && s.threads[t].AfterTake() ==>
      var me := s.threads[t];
      && me.fiber in x.place && x.place[me.fiber] == Polling(t) && me.fiber in s.packing
      && me.node in s.heap && me.node in x.own && x.own[me.node] == Of(me.fiber)
      && (me.at == PollStamped ==> s.heap[me.node].value == Some(me.fiber))
  }

  // What a thread knows about its queue.
  ghost predicate ThreadOk(s: State, x: Aux, t: Tid) {
    t in s.threads && s.threads[t].at != Idle ==>
      var me := s.threads[t];
      && me.q in s.queues && me.q in x.hist
      && (me.HoldsTailLock() ==> s.queues[me.q].tl == Some(t))
      && (me.HoldsHeadLock() ==> s.queues[me.q].hl == Some(t))
      && (me.at == AddAtTail ==> me.link == s.queues[me.q].tail)
      && (me.at == PollAtHead || me.at == PollNext || me.at == PollValued ==> me.node == s.queues[me.q].head)
      && (me.at == PollNext || me.at == PollValued ==>
            && var y := x.hist[me.q];
            && y.taken < |y.linked|
            && y.linked[y.taken] in s.packing && s.packing[y.linked[y.taken]] == me.link
            && (me.at == PollValued ==> me.fiber == y.linked[y.taken]))
  }

  // Each part is used only where it is named: the triggers are the parts.

  ghost predicate Structure(s: State, x: Aux) {
    && Shape(s, x)
    && (forall q, k {:trigger QueuedOk(s, x, q, k)} :: QueuedOk(s, x, q, k))
    && (forall q, k {:trigger LinkOk(s, x, q, k)} :: LinkOk(s, x, q, k))
    && (forall q {:trigger HeadOk(s, x, q)} :: HeadOk(s, x, q))
    && (forall h {:trigger HeldOk(s, x, h)} :: HeldOk(s, x, h))
  }

  ghost predicate Places(s: State, x: Aux) {
    && (forall n {:trigger OwnOk(s, x, n)} :: OwnOk(s, x, n))
    && (forall h {:trigger PlaceOk(s, x, h)} :: PlaceOk(s, x, h))
    && (forall t {:trigger AdderOk(s, x, t)} :: AdderOk(s, x, t))
    && (forall t {:trigger TakerOk(s, x, t)} :: TakerOk(s, x, t))
  }

  ghost predicate Locks(s: State, x: Aux) {
    && (forall q {:trigger TailOk(s, x, q)} :: TailOk(s, x, q))
    && (forall q {:trigger HeadLockOk(s, q)} :: HeadLockOk(s, q))
    && (forall t {:trigger ThreadOk(s, x, t)} :: ThreadOk(s, x, t))
  }

  ghost predicate Inv(s: State, x: Aux) {
    Structure(s, x) && Places(s, x) && Locks(s, x)
  }

  // How the auxiliary state follows the program.

  function FollowLink(s: State, x: Aux, t: Tid): Aux
    requires t in s.threads && s.threads[t].q in x.hist
  {
    var me := s.threads[t];
    var y := x.hist[me.q];
    x.(hist := x.hist[me.q := y.(linked := y.linked + [me.fiber])],
       place := x.place[me.fiber := Queued(me.q, |y.linked|)])
  }

  function FollowTake(s: State, x: Aux, t: Tid): Aux
    requires t in s.threads && s.threads[t].q in x.hist
  {
    var me := s.threads[t];
    var y := x.hist[me.q];
    x.(hist := x.hist[me.q := y.(taken := y.taken + 1)],
       own := x.own[me.node := Of(me.fiber)][me.link := Dummy(me.q)],
       place := x.place[me.fiber := Polling(t)])
  }

  // Two different links of the queues start in two different nodes.
  lemma BeforeOwner(s: State, x: Aux, q: Qid, k: nat)
    requires Structure(s, x) && q in s.queues && x.hist[q].taken <= k <= |x.hist[q].linked|
    ensures var n := Before(s, x, q, k);
            n in x.own && n in s.heap &&
            if k == x.hist[q].taken then n == s.queues[q].head && x.own[n] == Dummy(q)
            else x.own[n].Of? && x.own[n].h in x.place && x.place[x.own[n].h] == Queued(q, k - 1)
                 && x.own[n].h in s.packing && s.packing[x.own[n].h] == n
                 && x.own[n].h == x.hist[q].linked[k - 1]
  {
    assert HeadOk(s, x, q);
    if x.hist[q].taken < k {
      assert QueuedOk(s, x, q, k - 1);
    }
  }


  // --- frames: what a step that stays away from a part leaves alone ---

  ghost predicate SameHeads(s: State, s': State) {
    && s'.queues.Keys == s.queues.Keys
    && forall q {:trigger s'.queues[q]} :: q in s'.queues ==> s'.queues[q].head == s.queues[q].head
  }

  ghost predicate SameNodes(s: State, s': State) {
    SameHeads(s, s') && s'.heap == s.heap && s'.packing == s.packing && s'.held == s.held
  }

  // The thread moves on without entering or leaving a place.
  ghost predicate SamePlace(me: Thread, me': Thread) {
    && me'.BeforeLink() == me.BeforeLink() && me'.AfterTake() == me.AfterTake()
    && (me.BeforeLink() || me.AfterTake() ==> me'.fiber == me.fiber && me'.node == me.node)
    && (me.BeforeLink() ==> me.at != AddStart && me.at != AddValued)
    && me'.at != PollStamped
  }

  lemma NodesFrame(s: State, s': State, x: Aux, t: Tid)
    requires Structure(s, x) && Places(s, x) && SameNodes(s, s')
    requires t in s.threads && t in s'.threads && s'.threads == s.threads[t := s'.threads[t]]
    requires SamePlace(s.threads[t], s'.threads[t])
    ensures Structure(s', x) && Places(s', x)
  {
    forall q: Qid, k: nat ensures QueuedOk(s', x, q, k) { assert QueuedOk(s, x, q, k); }
    forall q: Qid, k: nat ensures LinkOk(s', x, q, k) { assert LinkOk(s, x, q, k); }
    forall q ensures HeadOk(s', x, q) { assert HeadOk(s, x, q); }
    forall h ensures HeldOk(s', x, h) { assert HeldOk(s, x, h); }
    forall n ensures OwnOk(s', x, n) {
      assert OwnOk(s, x, n);
      if n in x.own && x.own[n].Of? {
        assert PlaceOk(s, x, x.own[n].h);
      }
    }
    forall h ensures PlaceOk(s', x, h) { assert PlaceOk(s, x, h); }
    forall u ensures AdderOk(s', x, u) { assert AdderOk(s, x, u); }
    forall u ensures TakerOk(s', x, u) { assert TakerOk(s, x, u); }
  }

  // The thread holds no lock before or after, no queue changes, and at most
  // one fiber outside the queues gets, changes or loses its node.
  lemma LocksFrame(s: State, s': State, x: Aux, x': Aux, t: Tid, h0: Handle)
    requires Structure(s, x) && Locks(s, x)
    requires s'.queues == s.queues && x'.hist == x.hist
    requires t in s.threads && t in s'.threads && s'.threads == s.threads[t := s'.threads[t]]
    requires !s.threads[t].HoldsTailLock() && !s.threads[t].HoldsHeadLock()
    requires !s'.threads[t].HoldsTailLock() && !s'.threads[t].HoldsHeadLock()
    requires s'.threads[t].at != Idle ==> s'.threads[t].q in s.queues
    requires h0 in x.place ==> !x.place[h0].Queued?
    requires || s'.packing == s.packing || s'.packing == s.packing - {h0}
             || (h0 in s'.packing && s'.packing == s.packing[h0 := s'.packing[h0]])
    ensures Locks(s', x')
  {
    forall q ensures TailOk(s', x', q) {
      assert TailOk(s, x, q);
      if q in x.hist && x.hist[q].taken < |x.hist[q].linked| {
        assert QueuedOk(s, x, q, |x.hist[q].linked| - 1);
      }
    }
    forall q ensures HeadLockOk(s', q) { assert HeadLockOk(s, q); }
    forall u ensures ThreadOk(s', x', u) {
      assert ThreadOk(s, x, u);
      if u in s.threads && s.threads[u].q in x.hist {
        assert QueuedOk(s, x, s.threads[u].q, x.hist[s.threads[u].q].taken);
      }
    }
  }

  // A thread works on its own queue: what a lock guards changes only under it.
  lemma LocksStep(s: State, s': State, x: Aux, x': Aux, t: Tid)
    requires Locks(s, x) && t in s.threads && t in s'.threads && s'.threads == s.threads[t := s'.threads[t]]
    requires var q := s.threads[t].q;
             && q in s.queues && q in s'.queues && s'.queues == s.queues[q := s'.queues[q]]
             && q in x.hist && q in x'.hist && x'.hist == x.hist[q := x'.hist[q]]
             && var w, w' := s.queues[q], s'.queues[q];
             && (s.threads[t].HoldsTailLock() || w.tl == None || (w.tl == w'.tl && w.tail == w'.tail))
             && (s.threads[t].HoldsHeadLock() || w.hl == None ||
                 (w.hl == w'.hl && w.head == w'.head && x.hist[q].taken == x'.hist[q].taken
                  && x.hist[q].linked <= x'.hist[q].linked))
             && TailOk(s', x', q) && HeadLockOk(s', q)
    requires s'.packing == s.packing && ThreadOk(s', x', t)
    requires s.threads[t].HoldsTailLock() ==> s.queues[s.threads[t].q].tl == Some(t)
    requires s.threads[t].HoldsHeadLock() ==> s.queues[s.threads[t].q].hl == Some(t)
    requires s'.threads[t].q == s.threads[t].q
    ensures Locks(s', x')
  {
    var q0 := s.threads[t].q;
    forall q ensures TailOk(s', x', q) { if q != q0 { assert TailOk(s, x, q); } }
    forall q ensures HeadLockOk(s', q) { if q != q0 { assert HeadLockOk(s, q); } }
    forall u ensures ThreadOk(s', x', u) { if u != t { assert ThreadOk(s, x, u); } }
  }

  // A write to a node owned by a fiber on its way in or out is seen by no one.
  lemma PrivateWriteStructure(s: State, s': State, x: Aux, n: Node)
    requires Structure(s, x) && n in x.own && x.own[n].Of? && x.own[n].h in x.place && !x.place[x.own[n].h].Queued?
    requires x.place[x.own[n].h] != Outside
    requires n in s.heap && n in s'.heap && s'.heap == s.heap[n := s'.heap[n]]
    requires s'.queues == s.queues && s'.packing == s.packing && s'.held == s.held
    ensures Structure(s', x)
  {
    forall q: Qid, k: nat ensures QueuedOk(s', x, q, k) { assert QueuedOk(s, x, q, k); }
    forall q: Qid, k: nat ensures LinkOk(s', x, q, k) {
      assert LinkOk(s, x, q, k);
      if q in x.hist && x.hist[q].taken <= k <= |x.hist[q].linked| {
        BeforeOwner(s, x, q, k);
      }
    }
    forall q ensures HeadOk(s', x, q) { assert HeadOk(s, x, q); }
    forall h ensures HeldOk(s', x, h) { assert HeldOk(s, x, h); }
  }

  lemma PrivateWritePlaces(s: State, s': State, x: Aux, t: Tid)
    requires Places(s, x) && t in s.threads && t in s'.threads
    requires var me, me' := s.threads[t], s'.threads[t];
             && s'.threads == s.threads[t := me'] && me' == me.(at := me'.at)
             && me.node in s.heap && me.node in s'.heap && s'.heap == s.heap[me.node := s'.heap[me.node]]
             && me.BeforeLink() == me'.BeforeLink() && me.AfterTake() == me'.AfterTake()
             && (me.BeforeLink() || me.AfterTake())
    requires s'.queues == s.queues && s'.packing == s.packing && s'.held == s.held
    requires AdderOk(s', x, t) && TakerOk(s', x, t)
    ensures Places(s', x)
  {
    assert AdderOk(s, x, t) && TakerOk(s, x, t);
    forall n ensures OwnOk(s', x, n) { assert OwnOk(s, x, n); }
    forall h ensures PlaceOk(s', x, h) { assert PlaceOk(s, x, h); }
    forall u ensures AdderOk(s', x, u) { assert AdderOk(s, x, u); }
    forall u ensures TakerOk(s', x, u) { assert TakerOk(s, x, u); }
  }

  lemma PrivateWriteLocks(s: State, s': State, x: Aux, t: Tid, me: Handle)
    requires me in x.place && !x.place[me].Queued?
    requires Structure(s, x) && Locks(s, x) && t in s.threads && t in s'.threads
    requires s'.threads == s.threads[t := s.threads[t].(at := s'.threads[t].at)]
    requires s.threads[t].at == AddStart || s.threads[t].at == AddValued || s.threads[t].at == PollOpen
    requires !s'.threads[t].HoldsTailLock() && !s'.threads[t].HoldsHeadLock()
    requires s'.queues == s.queues && s'.packing == s.packing
    ensures Locks(s', x)
  {
    assert ThreadOk(s, x, t);
    LocksFrame(s, s', x, x, t, me);
  }

  // --- the steps of add ---

  lemma CallAddKeeps(s: State, x: Aux, t: Tid, q0: Qid, h0: Handle)
    requires Inv(s, x) && s.At(t, Idle) && q0 in s.queues && s.HeldBy(t, h0) && h0 in s.packing
    ensures Inv(CallAdd(s, t, q0, h0), x.(place := x.place[h0 := Adding(t)]))
  {
    var s', x' := CallAdd(s, t, q0, h0), x.(place := x.place[h0 := Adding(t)]);
    assert HeldOk(s, x, h0) && PlaceOk(s, x, h0);
    assert Structure(s', x') by {
      forall q: Qid, k: nat ensures QueuedOk(s', x', q, k) { assert QueuedOk(s, x, q, k); }
      forall q: Qid, k: nat ensures LinkOk(s', x', q, k) { assert LinkOk(s, x, q, k); }
      forall q ensures HeadOk(s', x', q) { assert HeadOk(s, x, q); }
      forall h ensures HeldOk(s', x', h) { assert HeldOk(s, x, h); }
    }
    assert Places(s', x') by {
      forall n ensures OwnOk(s', x', n) {
        assert OwnOk(s, x, n);
        if n in x.own && x.own[n].Of? {
          assert PlaceOk(s, x, x.own[n].h);
        }
      }
      forall h ensures PlaceOk(s', x', h) { assert PlaceOk(s, x, h); }
      forall u ensures AdderOk(s', x', u) { assert AdderOk(s, x, u); }
      forall u ensures TakerOk(s', x', u) { assert TakerOk(s, x, u); }
    }
    LocksFrame(s, s', x, x', t, h0);
  }

  lemma WriteValueKeeps(s: State, x: Aux, t: Tid)
    requires Inv(s, x) && s.At(t, AddStart) && s.threads[t].node in s.heap
    ensures Inv(WriteValue(s, t), x)
  {
    assert AdderOk(s, x, t);
    PrivateWriteStructure(s, WriteValue(s, t), x, s.threads[t].node);
    PrivateWritePlaces(s, WriteValue(s, t), x, t);
    PrivateWriteLocks(s, WriteValue(s, t), x, t, s.threads[t].fiber);
  }

  lemma ClearNextKeeps(s: State, x: Aux, t: Tid)
    requires Inv(s, x) && s.At(t, AddValued) && s.threads[t].node in s.heap
    ensures Inv(ClearNext(s, t), x)
  {
    assert AdderOk(s, x, t);
    PrivateWriteStructure(s, ClearNext(s, t), x, s.threads[t].node);
    PrivateWritePlaces(s, ClearNext(s, t), x, t);
    PrivateWriteLocks(s, ClearNext(s, t), x, t, s.threads[t].fiber);
  }

  lemma LockTailLocks(s: State, x: Aux, t: Tid)
    requires Locks(s, x) && s.At(t, AddCleared) && s.threads[t].q in s.queues && s.queues[s.threads[t].q].tl == None
    ensures Locks(SetTailLock(s, t, AddLocked, Some(t)), x)
  {
    var s' := SetTailLock(s, t, AddLocked, Some(t));
    assert ThreadOk(s, x, t) && TailOk(s, x, s.threads[t].q) && HeadLockOk(s, s.threads[t].q);
    LocksStep(s, s', x, x, t);
  }

  lemma LockTailKeeps(s: State, x: Aux, t: Tid)
    requires Inv(s, x) && s.At(t, AddCleared) && s.threads[t].q in s.queues && s.queues[s.threads[t].q].tl == None
    ensures Inv(SetTailLock(s, t, AddLocked, Some(t)), x)
  {
    NodesFrame(s, SetTailLock(s, t, AddLocked, Some(t)), x, t);
    LockTailLocks(s, x, t);
  }

  lemma ReadTailLocks(s: State, x: Aux, t: Tid)
    requires Locks(s, x) && s.At(t, AddLocked) && s.threads[t].q in s.queues
    ensures Locks(ReadTail(s, t), x)
  {
    var s' := ReadTail(s, t);
    assert ThreadOk(s, x, t) && TailOk(s, x, s.threads[t].q) && HeadLockOk(s, s.threads[t].q);
    LocksStep(s, s', x, x, t);
  }

  lemma ReadTailKeeps(s: State, x: Aux, t: Tid)
    requires Inv(s, x) && s.At(t, AddLocked) && s.threads[t].q in s.queues
    ensures Inv(ReadTail(s, t), x)
  {
    NodesFrame(s, ReadTail(s, t), x, t);
    ReadTailLocks(s, x, t);
  }

  lemma LinkNodeOwn(s: State, x: Aux, t: Tid, k: nat)
    requires Structure(s, x) && s.At(t, AddAtTail) && s.threads[t].link in s.heap && s.threads[t].q in s.queues
    requires AdderOk(s, x, t) && s.threads[t].link == Before(s, x, s.threads[t].q, |x.hist[s.threads[t].q].linked|)
    ensures LinkOk(LinkNode(s, t), FollowLink(s, x, t), s.threads[t].q, k)
  {
    var q := s.threads[t].q;
    BeforeOwner(s, x, q, |x.hist[q].linked|);
    assert LinkOk(s, x, q, k);
    if q in x.hist && x.hist[q].taken <= k <= |x.hist[q].linked| {
      BeforeOwner(s, x, q, k);
    }
  }

  lemma LinkNodeLinks(s: State, x: Aux, t: Tid, q: Qid, k: nat)
    requires Structure(s, x) && s.At(t, AddAtTail) && s.threads[t].link in s.heap && s.threads[t].q in s.queues
    requires AdderOk(s, x, t) && s.threads[t].link == Before(s, x, s.threads[t].q, |x.hist[s.threads[t].q].linked|)
    ensures LinkOk(LinkNode(s, t), FollowLink(s, x, t), q, k)
  {
    var me := s.threads[t];
    if q == me.q {
      LinkNodeOwn(s, x, t, k);
    } else {
      BeforeOwner(s, x, me.q, |x.hist[me.q].linked|);
      assert LinkOk(s, x, q, k);
      if q in x.hist && x.hist[q].taken <= k <= |x.hist[q].linked| {
        BeforeOwner(s, x, q, k);
      }
    }
  }

  lemma LinkNodeStructure(s: State, x: Aux, t: Tid)
    requires Structure(s, x) && s.At(t, AddAtTail) && s.threads[t].link in s.heap && s.threads[t].q in s.queues
    requires AdderOk(s, x, t) && s.threads[t].link == Before(s, x, s.threads[t].q, |x.hist[s.threads[t].q].linked|)
    ensures Structure(LinkNode(s, t), FollowLink(s, x, t))
  {
    var s', x' := LinkNode(s, t), FollowLink(s, x, t);
    forall q: Qid, k: nat ensures LinkOk(s', x', q, k) { LinkNodeLinks(s, x, t, q, k); }
    forall q: Qid, k: nat ensures QueuedOk(s', x', q, k) { assert QueuedOk(s, x, q, k); }
    forall q ensures HeadOk(s', x', q) { assert HeadOk(s, x, q); }
    forall h ensures HeldOk(s', x', h) { assert HeldOk(s, x, h); }
  }

  lemma LinkNodePlaces(s: State, x: Aux, t: Tid)
    requires Structure(s, x) && Places(s, x)
    requires s.At(t, AddAtTail) && s.threads[t].link in s.heap && s.threads[t].q in s.queues
    requires AdderOk(s, x, t) && s.threads[t].link == Before(s, x, s.threads[t].q, |x.hist[s.threads[t].q].linked|)
    ensures Places(LinkNode(s, t), FollowLink(s, x, t))
  {
    var s', x' := LinkNode(s, t), FollowLink(s, x, t);
    BeforeOwner(s, x, s.threads[t].q, |x.hist[s.threads[t].q].linked|);
    forall n ensures OwnOk(s', x', n) { assert OwnOk(s, x, n); }
    forall h ensures PlaceOk(s', x', h) { assert PlaceOk(s, x, h); }
    forall u ensures AdderOk(s', x', u) { assert AdderOk(s, x, u); }
    forall u ensures TakerOk(s', x', u) { assert TakerOk(s, x, u); }
  }

  lemma LinkNodeLocks(s: State, x: Aux, t: Tid)
    requires Locks(s, x) && s.At(t, AddAtTail) && s.threads[t].link in s.heap && s.threads[t].q in s.queues
    requires AdderOk(s, x, t) && Shape(s, x)
    ensures Locks(LinkNode(s, t), FollowLink(s, x, t))
  {
    assert ThreadOk(s, x, t) && TailOk(s, x, s.threads[t].q) && HeadLockOk(s, s.threads[t].q);
    LocksStep(s, LinkNode(s, t), x, FollowLink(s, x, t), t);
  }

  lemma LinkNodeKeeps(s: State, x: Aux, t: Tid)
    requires Inv(s, x) && s.At(t, AddAtTail) && s.threads[t].link in s.heap && s.threads[t].q in x.hist
    ensures Inv(LinkNode(s, t), FollowLink(s, x, t))
  {
    assert ThreadOk(s, x, t) && AdderOk(s, x, t) && TailOk(s, x, s.threads[t].q);
    LinkNodeStructure(s, x, t);
    LinkNodePlaces(s, x, t);
    LinkNodeLocks(s, x, t);
  }

  lemma MoveTailLocks(s: State, x: Aux, t: Tid)
    requires Locks(s, x) && s.At(t, AddLinked) && s.threads[t].q in s.queues
    ensures Locks(MoveTail(s, t), x)
  {
    var s' := MoveTail(s, t);
    assert ThreadOk(s, x, t) && TailOk(s, x, s.threads[t].q) && HeadLockOk(s, s.threads[t].q);
    LocksStep(s, s', x, x, t);
  }

  lemma MoveTailKeeps(s: State, x: Aux, t: Tid)
    requires Inv(s, x) && s.At(t, AddLinked) && s.threads[t].q in s.queues
    ensures Inv(MoveTail(s, t), x)
  {
    NodesFrame(s, MoveTail(s, t), x, t);
    MoveTailLocks(s, x, t);
  }

  lemma UnlockTailLocks(s: State, x: Aux, t: Tid)
    requires Locks(s, x) && s.At(t, AddMoved) && s.threads[t].q in s.queues
    ensures Locks(SetTailLock(s, t, Idle, None), x)
  {
    var s' := SetTailLock(s, t, Idle, None);
    assert ThreadOk(s, x, t) && TailOk(s, x, s.threads[t].q) && HeadLockOk(s, s.threads[t].q);
    LocksStep(s, s', x, x, t);
  }

  lemma UnlockTailKeeps(s: State, x: Aux, t: Tid)
    requires Inv(s, x) && s.At(t, AddMoved) && s.threads[t].q in s.queues
    ensures Inv(SetTailLock(s, t, Idle, None), x)
  {
    NodesFrame(s, SetTailLock(s, t, Idle, None), x, t);
    UnlockTailLocks(s, x, t);
  }

  // --- the steps of poll ---

  lemma CallPollLocks(s: State, x: Aux, t: Tid, q0: Qid)
    requires Locks(s, x) && s.At(t, Idle) && q0 in s.queues && Shape(s, x)
    ensures Locks(CallPoll(s, t, q0), x)
  {
    var s' := CallPoll(s, t, q0);
    forall q ensures TailOk(s', x, q) { assert TailOk(s, x, q); }
    forall q ensures HeadLockOk(s', q) { assert HeadLockOk(s, q); }
    forall u ensures ThreadOk(s', x, u) { assert ThreadOk(s, x, u); }
  }

  lemma CallPollKeeps(s: State, x: Aux, t: Tid, q0: Qid)
    requires Inv(s, x) && s.At(t, Idle) && q0 in s.queues
    ensures Inv(CallPoll(s, t, q0), x)
  {
    NodesFrame(s, CallPoll(s, t, q0), x, t);
    CallPollLocks(s, x, t, q0);
  }

  lemma LockHeadLocks(s: State, x: Aux, t: Tid)
    requires Locks(s, x) && s.At(t, PollStart) && s.threads[t].q in s.queues && s.queues[s.threads[t].q].hl == None
    ensures Locks(SetHeadLock(s, t, PollLocked, Some(t)), x)
  {
    var s' := SetHeadLock(s, t, PollLocked, Some(t));
    assert ThreadOk(s, x, t) && TailOk(s, x, s.threads[t].q) && HeadLockOk(s, s.threads[t].q);
    LocksStep(s, s', x, x, t);
  }

  lemma LockHeadKeeps(s: State, x: Aux, t: Tid)
    requires Inv(s, x) && s.At(t, PollStart) && s.threads[t].q in s.queues && s.queues[s.threads[t].q].hl == None
    ensures Inv(SetHeadLock(s, t, PollLocked, Some(t)), x)
  {
    NodesFrame(s, SetHeadLock(s, t, PollLocked, Some(t)), x, t);
    LockHeadLocks(s, x, t);
  }

  lemma UnlockHeadLocks(s: State, x: Aux, t: Tid, p: Point)
    requires Locks(s, x) && t in s.threads && s.threads[t].q in s.queues
    requires (s.threads[t].at == PollEmpty && p == Idle) || (s.threads[t].at == PollMoved && p == PollOpen)
    ensures Locks(SetHeadLock(s, t, p, None), x)
  {
    var s' := SetHeadLock(s, t, p, None);
    assert ThreadOk(s, x, t) && TailOk(s, x, s.threads[t].q) && HeadLockOk(s, s.threads[t].q);
    LocksStep(s, s', x, x, t);
  }

  lemma UnlockHeadKeeps(s: State, x: Aux, t: Tid, p: Point)
    requires Inv(s, x) && t in s.threads && s.threads[t].q in s.queues
    requires (s.threads[t].at == PollEmpty && p == Idle) || (s.threads[t].at == PollMoved && p == PollOpen)
    ensures Inv(SetHeadLock(s, t, p, None), x)
  {
    NodesFrame(s, SetHeadLock(s, t, p, None), x, t);
    UnlockHeadLocks(s, x, t, p);
  }

  lemma ReadHeadLocks(s: State, x: Aux, t: Tid)
    requires Locks(s, x) && s.At(t, PollLocked) && s.threads[t].q in s.queues
    ensures Locks(ReadHead(s, t), x)
  {
    var s' := ReadHead(s, t);
    assert ThreadOk(s, x, t) && TailOk(s, x, s.threads[t].q) && HeadLockOk(s, s.threads[t].q);
    LocksStep(s, s', x, x, t);
  }

  lemma ReadHeadKeeps(s: State, x: Aux, t: Tid)
    requires Inv(s, x) && s.At(t, PollLocked) && s.threads[t].q in s.queues
    ensures Inv(ReadHead(s, t), x)
  {
    NodesFrame(s, ReadHead(s, t), x, t);
    ReadHeadLocks(s, x, t);
  }

  lemma ReadNextLocal(s: State, x: Aux, t: Tid)
    requires s.At(t, PollAtHead) && s.threads[t].node in s.heap && s.threads[t].q in s.queues && Shape(s, x)
    requires ThreadOk(s, x, t) && TailOk(s, x, s.threads[t].q) && HeadLockOk(s, s.threads[t].q)
    requires LinkOk(s, x, s.threads[t].q, x.hist[s.threads[t].q].taken)
    ensures var s' := ReadNext(s, t);
            TailOk(s', x, s.threads[t].q) && HeadLockOk(s', s.threads[t].q) && ThreadOk(s', x, t)
  {
  }

  lemma ReadNextLocks(s: State, x: Aux, t: Tid)
    requires Locks(s, x) && s.At(t, PollAtHead) && s.threads[t].node in s.heap && Shape(s, x)
    requires s.threads[t].q in s.queues && LinkOk(s, x, s.threads[t].q, x.hist[s.threads[t].q].taken)
    ensures Locks(ReadNext(s, t), x)
  {
    assert ThreadOk(s, x, t) && TailOk(s, x, s.threads[t].q) && HeadLockOk(s, s.threads[t].q);
    ReadNextLocal(s, x, t);
    LocksStep(s, ReadNext(s, t), x, x, t);
  }

  lemma ReadNextKeeps(s: State, x: Aux, t: Tid)
    requires Inv(s, x) && s.At(t, PollAtHead) && s.threads[t].node in s.heap
    ensures Inv(ReadNext(s, t), x)
  {
    NodesFrame(s, ReadNext(s, t), x, t);
    assert ThreadOk(s, x, t) && LinkOk(s, x, s.threads[t].q, x.hist[s.threads[t].q].taken);
    ReadNextLocks(s, x, t);
  }

  lemma ReadValueLocks(s: State, x: Aux, t: Tid)
    requires Locks(s, x) && s.At(t, PollNext) && Shape(s, x)
    requires s.threads[t].link in s.heap && s.heap[s.threads[t].link].value.Some?
    requires s.threads[t].q in s.queues && QueuedOk(s, x, s.threads[t].q, x.hist[s.threads[t].q].taken)
    ensures Locks(ReadValue(s, t), x)
  {
    assert ThreadOk(s, x, t) && TailOk(s, x, s.threads[t].q) && HeadLockOk(s, s.threads[t].q);
    LocksStep(s, ReadValue(s, t), x, x, t);
  }

  lemma ReadValueKeeps(s: State, x: Aux, t: Tid)
    requires Inv(s, x) && s.At(t, PollNext) && s.threads[t].link in s.heap && s.heap[s.threads[t].link].value.Some?
    ensures Inv(ReadValue(s, t), x)
  {
    NodesFrame(s, ReadValue(s, t), x, t);
    assert ThreadOk(s, x, t) && QueuedOk(s, x, s.threads[t].q, x.hist[s.threads[t].q].taken);
    ReadValueLocks(s, x, t);
  }

  // What the poller knows when it is about to move the head.
  ghost predicate TakeReady(s: State, x: Aux, t: Tid) {
    && s.At(t, PollValued) && ThreadOk(s, x, t) && s.threads[t].q in s.queues && Shape(s, x)
    && HeadOk(s, x, s.threads[t].q) && QueuedOk(s, x, s.threads[t].q, x.hist[s.threads[t].q].taken)
  }

  lemma MoveHeadLinks(s: State, x: Aux, t: Tid, q: Qid, k: nat)
    requires LinkOk(s, x, q, k) && TakeReady(s, x, t)
    ensures LinkOk(MoveHead(s, t), FollowTake(s, x, t), q, k)
  {
    var s', x' := MoveHead(s, t), FollowTake(s, x, t);
    if q in x'.hist && x'.hist[q].taken <= k <= |x'.hist[q].linked| {
      assert Before(s', x', q, k) == Before(s, x, q, k);
    }
  }

  lemma MoveHeadStructure(s: State, x: Aux, t: Tid)
    requires Structure(s, x) && TakeReady(s, x, t)
    ensures Structure(MoveHead(s, t), FollowTake(s, x, t))
  {
    var s', x' := MoveHead(s, t), FollowTake(s, x, t);
    forall q: Qid, k: nat ensures LinkOk(s', x', q, k) { MoveHeadLinks(s, x, t, q, k); }
    forall q: Qid, k: nat ensures QueuedOk(s', x', q, k) { assert QueuedOk(s, x, q, k); }
    forall q ensures HeadOk(s', x', q) { assert HeadOk(s, x, q); }
    forall h ensures HeldOk(s', x', h) { assert HeldOk(s, x, h); }
  }

  lemma MoveHeadOwners(s: State, x: Aux, t: Tid)
    requires Places(s, x) && TakeReady(s, x, t)
    ensures var s', x' := MoveHead(s, t), FollowTake(s, x, t);
            forall n {:trigger OwnOk(s', x', n)} :: OwnOk(s', x', n)
  {
    var s', x' := MoveHead(s, t), FollowTake(s, x, t);
    forall n ensures OwnOk(s', x', n) {
      assert OwnOk(s, x, n);
      if n in x.own && x.own[n].Of? {
        assert PlaceOk(s, x, x.own[n].h);
      }
    }
  }

  lemma MoveHeadFibers(s: State, x: Aux, t: Tid)
    requires Places(s, x) && TakeReady(s, x, t)
    ensures var s', x' := MoveHead(s, t), FollowTake(s, x, t);
            forall h {:trigger PlaceOk(s', x', h)} :: PlaceOk(s', x', h)
  {
    var s', x' := MoveHead(s, t), FollowTake(s, x, t);
    forall h ensures PlaceOk(s', x', h) {
      if h == s.threads[t].fiber { MoveHeadTaken(s, x, t); } else { MoveHeadFiber(s, x, t, h); }
    }
  }

  lemma MoveHeadTaken(s: State, x: Aux, t: Tid)
    requires Places(s, x) && TakeReady(s, x, t)
    ensures PlaceOk(MoveHead(s, t), FollowTake(s, x, t), s.threads[t].fiber)
  {
    assert PlaceOk(s, x, s.threads[t].fiber);
  }

  lemma MoveHeadFiber(s: State, x: Aux, t: Tid, h: Handle)
    requires Places(s, x) && TakeReady(s, x, t) && h != s.threads[t].fiber
    ensures PlaceOk(MoveHead(s, t), FollowTake(s, x, t), h)
  {
    assert PlaceOk(s, x, h);
  }

  lemma MoveHeadThreads(s: State, x: Aux, t: Tid)
    requires Places(s, x) && TakeReady(s, x, t)
    ensures var s', x' := MoveHead(s, t), FollowTake(s, x, t);
            && (forall u {:trigger AdderOk(s', x', u)} :: AdderOk(s', x', u))
            && (forall u {:trigger TakerOk(s', x', u)} :: TakerOk(s', x', u))
  {
    var s', x' := MoveHead(s, t), FollowTake(s, x, t);
    forall u ensures AdderOk(s', x', u) { assert AdderOk(s, x, u); }
    forall u ensures TakerOk(s', x', u) { assert TakerOk(s, x, u); }
  }

  lemma MoveHeadPlaces(s: State, x: Aux, t: Tid)
    requires Places(s, x) && TakeReady(s, x, t)
    ensures Places(MoveHead(s, t), FollowTake(s, x, t))
  {
    MoveHeadOwners(s, x, t);
    MoveHeadFibers(s, x, t);
    MoveHeadThreads(s, x, t);
  }

  lemma MoveHeadEnd(s: State, x: Aux, t: Tid, q: Qid)
    requires TakeReady(s, x, t) && q == s.threads[t].q
    ensures var s', x' := MoveHead(s, t), FollowTake(s, x, t);
            Before(s', x', q, |x'.hist[q].linked|) == Before(s, x, q, |x.hist[q].linked|)
  {
  }

  lemma MoveHeadTail(s: State, x: Aux, t: Tid)
    requires TakeReady(s, x, t) && TailOk(s, x, s.threads[t].q)
    ensures TailOk(MoveHead(s, t), FollowTake(s, x, t), s.threads[t].q)
  {
    MoveHeadEnd(s, x, t, s.threads[t].q);
  }

  lemma MoveHeadThread(s: State, x: Aux, t: Tid)
    requires TakeReady(s, x, t) && HeadLockOk(s, s.threads[t].q)
    ensures HeadLockOk(MoveHead(s, t), s.threads[t].q) && ThreadOk(MoveHead(s, t), FollowTake(s, x, t), t)
  {
  }

  lemma MoveHeadLocks(s: State, x: Aux, t: Tid)
    requires Locks(s, x) && TakeReady(s, x, t)
    ensures Locks(MoveHead(s, t), FollowTake(s, x, t))
  {
    assert TailOk(s, x, s.threads[t].q) && HeadLockOk(s, s.threads[t].q);
    MoveHeadTail(s, x, t);
    MoveHeadThread(s, x, t);
    LocksStep(s, MoveHead(s, t), x, FollowTake(s, x, t), t);
  }

  lemma MoveHeadKeeps(s: State, x: Aux, t: Tid)
    requires Inv(s, x) && s.At(t, PollValued) && s.threads[t].q in s.queues && s.threads[t].q in x.hist
    ensures Inv(MoveHead(s, t), FollowTake(s, x, t))
  {
    assert ThreadOk(s, x, t) && HeadOk(s, x, s.threads[t].q);
    assert QueuedOk(s, x, s.threads[t].q, x.hist[s.threads[t].q].taken);
    MoveHeadStructure(s, x, t);
    MoveHeadPlaces(s, x, t);
    MoveHeadLocks(s, x, t);
  }

  lemma StampNodeKeeps(s: State, x: Aux, t: Tid)
    requires Inv(s, x) && s.At(t, PollOpen) && s.threads[t].node in s.heap
    ensures Inv(StampNode(s, t), x)
  {
    assert TakerOk(s, x, t);
    PrivateWriteStructure(s, StampNode(s, t), x, s.threads[t].node);
    PrivateWritePlaces(s, StampNode(s, t), x, t);
    PrivateWriteLocks(s, StampNode(s, t), x, t, s.threads[t].fiber);
  }

  lemma GiveNodeStructure(s: State, x: Aux, t: Tid)
    requires Structure(s, x) && s.At(t, PollStamped) && TakerOk(s, x, t)
    ensures Structure(GiveNode(s, t), x.(place := x.place[s.threads[t].fiber := Outside]))
  {
    var s', x' := GiveNode(s, t), x.(place := x.place[s.threads[t].fiber := Outside]);
    forall q: Qid, k: nat ensures QueuedOk(s', x', q, k) { assert QueuedOk(s, x, q, k); }
    forall q: Qid, k: nat ensures LinkOk(s', x', q, k) {
      assert LinkOk(s, x, q, k) && QueuedOk(s, x, q, k);
      if 0 < k { assert QueuedOk(s, x, q, k - 1); }
    }
    forall q ensures HeadOk(s', x', q) { assert HeadOk(s, x, q); }
    forall h ensures HeldOk(s', x', h) { assert HeldOk(s, x, h); }
  }

  lemma GiveNodePlaces(s: State, x: Aux, t: Tid)
    requires Places(s, x) && s.At(t, PollStamped)
    ensures Places(GiveNode(s, t), x.(place := x.place[s.threads[t].fiber := Outside]))
  {
    var s', x' := GiveNode(s, t), x.(place := x.place[s.threads[t].fiber := Outside]);
    assert TakerOk(s, x, t);
    forall n ensures OwnOk(s', x', n) { assert OwnOk(s, x, n); }
    forall h ensures PlaceOk(s', x', h) { assert PlaceOk(s, x, h); }
    forall u ensures AdderOk(s', x', u) { assert AdderOk(s, x, u); }
    forall u ensures TakerOk(s', x', u) { assert TakerOk(s, x, u); }
  }

  lemma GiveNodeLocks(s: State, x: Aux, x': Aux, t: Tid)
    requires Structure(s, x) && Locks(s, x) && s.At(t, PollStamped) && x'.hist == x.hist
    requires s.threads[t].fiber in x.place && !x.place[s.threads[t].fiber].Queued?
    ensures Locks(GiveNode(s, t), x')
  {
    LocksFrame(s, GiveNode(s, t), x, x', t, s.threads[t].fiber);
  }

  lemma GiveNodeKeeps(s: State, x: Aux, t: Tid)
    requires Inv(s, x) && s.At(t, PollStamped)
    ensures Inv(GiveNode(s, t), x.(place := x.place[s.threads[t].fiber := Outside]))
  {
    assert TakerOk(s, x, t);
    GiveNodeStructure(s, x, t);
    GiveNodePlaces(s, x, t);
    GiveNodeLocks(s, x, x.(place := x.place[s.threads[t].fiber := Outside]), t);
  }

  // --- fibers outside the queues ---

  lemma SpawnStructure(s: State, x: Aux, t: Tid, h0: Handle, n0: Node)
    requires Structure(s, x) && h0 !in s.packing && n0 !in s.heap
    ensures Structure(Spawn(s, t, h0, n0), x.(own := x.own[n0 := Of(h0)], place := x.place[h0 := Outside]))
  {
    var s', x' := Spawn(s, t, h0, n0), x.(own := x.own[n0 := Of(h0)], place := x.place[h0 := Outside]);
    forall q: Qid, k: nat ensures QueuedOk(s', x', q, k) { assert QueuedOk(s, x, q, k); }
    forall q: Qid, k: nat ensures LinkOk(s', x', q, k) {
      assert LinkOk(s, x, q, k) && QueuedOk(s, x, q, k);
      if 0 < k { assert QueuedOk(s, x, q, k - 1); }
    }
    forall q ensures HeadOk(s', x', q) { assert HeadOk(s, x, q); }
    forall h ensures HeldOk(s', x', h) { assert HeldOk(s, x, h); }
  }

  lemma SpawnPlaces(s: State, x: Aux, t: Tid, h0: Handle, n0: Node)
    requires Shape(s, x) && Places(s, x) && h0 !in s.packing && n0 !in s.heap
    ensures Places(Spawn(s, t, h0, n0), x.(own := x.own[n0 := Of(h0)], place := x.place[h0 := Outside]))
  {
    var s', x' := Spawn(s, t, h0, n0), x.(own := x.own[n0 := Of(h0)], place := x.place[h0 := Outside]);
    forall n ensures OwnOk(s', x', n) { assert OwnOk(s, x, n); }
    forall h ensures PlaceOk(s', x', h) { assert PlaceOk(s, x, h); }
    forall u ensures AdderOk(s', x', u) { assert AdderOk(s, x, u); }
    forall u ensures TakerOk(s', x', u) { assert TakerOk(s, x, u); }
  }

  lemma SpawnKeeps(s: State, x: Aux, t: Tid, h0: Handle, n0: Node)
    requires Inv(s, x) && s.At(t, Idle) && h0 !in s.packing && n0 !in s.heap
    ensures Inv(Spawn(s, t, h0, n0), x.(own := x.own[n0 := Of(h0)], place := x.place[h0 := Outside]))
  {
    SpawnStructure(s, x, t, h0, n0);
    SpawnPlaces(s, x, t, h0, n0);
    LocksFrame(s, Spawn(s, t, h0, n0), x, x.(own := x.own[n0 := Of(h0)], place := x.place[h0 := Outside]), t, h0);
  }

  lemma PassOnKeeps(s: State, x: Aux, t: Tid, h0: Handle, to: Tid)
    requires Inv(s, x) && s.HeldBy(t, h0)
    ensures Inv(PassOn(s, h0, to), x)
  {
    var s' := PassOn(s, h0, to);
    forall q: Qid, k: nat ensures QueuedOk(s', x, q, k) { assert QueuedOk(s, x, q, k); }
    forall q: Qid, k: nat ensures LinkOk(s', x, q, k) { assert LinkOk(s, x, q, k); }
    forall q ensures HeadOk(s', x, q) { assert HeadOk(s, x, q); }
    forall h ensures HeldOk(s', x, h) { assert HeldOk(s, x, h); }
    forall n ensures OwnOk(s', x, n) { assert OwnOk(s, x, n); }
    forall h ensures PlaceOk(s', x, h) { assert PlaceOk(s, x, h); }
    forall u ensures AdderOk(s', x, u) { assert AdderOk(s, x, u); }
    forall u ensures TakerOk(s', x, u) { assert TakerOk(s, x, u); }
    forall q ensures TailOk(s', x, q) { assert TailOk(s, x, q); }
    forall q ensures HeadLockOk(s', q) { assert HeadLockOk(s, q); }
    forall u ensures ThreadOk(s', x, u) { assert ThreadOk(s, x, u); }
  }

  function Forget(s: State, x: Aux, h: Handle): Aux
    requires h in s.packing
  {
    x.(own := x.own - {s.packing[h]}, place := x.place - {h})
  }

  lemma RetireStructure(s: State, x: Aux, h0: Handle)
    requires Structure(s, x) && h0 in s.held && h0 in s.packing && PlaceOk(s, x, h0)
    ensures Structure(Retire(s, h0), Forget(s, x, h0))
  {
    var s', x' := Retire(s, h0), Forget(s, x, h0);
    assert HeldOk(s, x, h0);
    forall q: Qid, k: nat ensures QueuedOk(s', x', q, k) { assert QueuedOk(s, x, q, k); }
    forall q: Qid, k: nat ensures LinkOk(s', x', q, k) {
      assert LinkOk(s, x, q, k) && QueuedOk(s, x, q, k);
      if 0 < k { assert QueuedOk(s, x, q, k - 1); }
      if q in x.hist && x.hist[q].taken <= k <= |x.hist[q].linked| {
        BeforeOwner(s, x, q, k);
      }
    }
    forall q ensures HeadOk(s', x', q) { assert HeadOk(s, x, q); }
    forall h ensures HeldOk(s', x', h) { assert HeldOk(s, x, h); }
  }

  lemma RetirePlaces(s: State, x: Aux, h0: Handle)
    requires Shape(s, x) && Places(s, x) && HeldOk(s, x, h0) && h0 in s.held && h0 in s.packing
    ensures Places(Retire(s, h0), Forget(s, x, h0))
  {
    var s', x' := Retire(s, h0), Forget(s, x, h0);
    assert PlaceOk(s, x, h0);
    forall n ensures OwnOk(s', x', n) { assert OwnOk(s, x, n); }
    forall h ensures PlaceOk(s', x', h) { assert PlaceOk(s, x, h); }
    forall u ensures AdderOk(s', x', u) { assert AdderOk(s, x, u); }
    forall u ensures TakerOk(s', x', u) { assert TakerOk(s, x, u); }
  }

  lemma RetireKeeps(s: State, x: Aux, t: Tid, h0: Handle)
    requires Inv(s, x) && s.At(t, Idle) && h0 in s.held && h0 in s.packing
    ensures Inv(Retire(s, h0), Forget(s, x, h0))
  {
    assert HeldOk(s, x, h0) && PlaceOk(s, x, h0);
    RetireStructure(s, x, h0);
    RetirePlaces(s, x, h0);
    LocksFrame(s, Retire(s, h0), x, Forget(s, x, h0), t, h0);
  }
}
