/**
 * The two-lock run queue as a small-step system: every lock, unlock, shared
 * read and shared write of `add` and `poll` is one atomic step of one thread,
 * and any number of threads interleave over any number of queues.
 *
 * A handle names a fiber (the `sp<E>*` that travels through the queue); a node
 * is a heap cell with a `value` and a `next`.  Nodes and handles can be freed
 * and their names reused.
 */
module QueueMachine {
  import opened Base

  type Node = nat
  type Handle = nat
  type Tid = nat
  type Qid = nat

  datatype Cell = Cell(value: Option<Handle>, next: Option<Node>)

  datatype Queue = Queue(head: Node, tail: Node, hl: Option<Tid>, tl: Option<Tid>)

  // The next thing a thread will do; the comment is what it has just done.
  datatype Point =
    | Idle
    | AddStart      // node = (*e)->packing
    | AddValued     // node->value = e
    | AddCleared    // node->next = null
    | AddLocked     // tl.lock()
    | AddAtTail     // tail has been read into `link`
    | AddLinked     // tail->next = node
    | AddMoved      // tail = node
    | PollStart
    | PollLocked    // hl.lock()
    | PollAtHead    // node = head
    | PollEmpty     // new_head == null
    | PollNext      // new_head = node->next, kept in `link`
    | PollValued    // v = new_head->value
    | PollMoved     // head = new_head
    | PollOpen      // hl.unlock()
    | PollStamped   // node->value = v

  // A thread with the local variables of `add` (e, node, the tail it read) or
  // of `poll` (v, node, new_head).
  datatype Thread = Thread(at: Point, q: Qid, fiber: Handle, node: Node, link: Node) {
    // Between the start of `add` and the write that links the node.
    predicate BeforeLink() {
      at == AddStart || at == AddValued || at == AddCleared || at == AddLocked || at == AddAtTail
    }

    predicate HoldsTailLock() {
      at == AddLocked || at == AddAtTail || at == AddLinked || at == AddMoved
    }

    predicate HoldsHeadLock() {
      at == PollLocked || at == PollAtHead || at == PollEmpty || at == PollNext || at == PollValued || at == PollMoved
    }

    // Between the write that moves `head` and the return of `poll`.
    predicate AfterTake() {
      at == PollMoved || at == PollOpen || at == PollStamped
    }
  }

  // Who holds a fiber that is outside every queue, and whether the fiber has
  // been polled before (a new fiber's node still has a null value).
  datatype Holder = Holder(thread: Tid, polled: bool)

  datatype State = State(
    queues: map<Qid, Queue>,
    heap: map<Node, Cell>,
    packing: map<Handle, Node>,
    held: map<Handle, Holder>,
    threads: map<Tid, Thread>)
  {
    predicate At(t: Tid, p: Point) {
      t in threads && threads[t].at == p
    }

    predicate HeldBy(t: Tid, h: Handle) {
      t in threads && h in held && held[h].thread == t
    }

    function Goto(t: Tid, p: Point): State
      requires t in threads
    {
      this.(threads := threads[t := threads[t].(at := p)])
    }
  }

  // --- add ---

  function CallAdd(s: State, t: Tid, q: Qid, h: Handle): State
    requires t in s.threads && h in s.packing
  {
    s.(threads := s.threads[t := Thread(AddStart, q, h, s.packing[h], 0)], held := s.held - {h})
  }

  function WriteValue(s: State, t: Tid): State
    requires t in s.threads && s.threads[t].node in s.heap
  {
    var me := s.threads[t];
    s.Goto(t, AddValued).(heap := s.heap[me.node := s.heap[me.node].(value := Some(me.fiber))])
  }

  function ClearNext(s: State, t: Tid): State
    requires t in s.threads && s.threads[t].node in s.heap
  {
    var me := s.threads[t];
    s.Goto(t, AddCleared).(heap := s.heap[me.node := s.heap[me.node].(next := None)])
  }

  function SetTailLock(s: State, t: Tid, p: Point, lock: Option<Tid>): State
    requires t in s.threads && s.threads[t].q in s.queues
  {
    var q := s.threads[t].q;
    s.Goto(t, p).(queues := s.queues[q := s.queues[q].(tl := lock)])
  }

  function ReadTail(s: State, t: Tid): State
    requires t in s.threads && s.threads[t].q in s.queues
  {
    var me := s.threads[t];
    s.(threads := s.threads[t := me.(at := AddAtTail, link := s.queues[me.q].tail)])
  }

  function LinkNode(s: State, t: Tid): State
    requires t in s.threads && s.threads[t].link in s.heap
  {
    var me := s.threads[t];
    s.Goto(t, AddLinked).(heap := s.heap[me.link := s.heap[me.link].(next := Some(me.node))])
  }

  function MoveTail(s: State, t: Tid): State
    requires t in s.threads && s.threads[t].q in s.queues
  {
    var me := s.threads[t];
    s.Goto(t, AddMoved).(queues := s.queues[me.q := s.queues[me.q].(tail := me.node)])
  }

  // --- poll ---

  function CallPoll(s: State, t: Tid, q: Qid): State
    requires t in s.threads
  {
    s.(threads := s.threads[t := Thread(PollStart, q, 0, 0, 0)])
  }

  function SetHeadLock(s: State, t: Tid, p: Point, lock: Option<Tid>): State
    requires t in s.threads && s.threads[t].q in s.queues
  {
    var q := s.threads[t].q;
    s.Goto(t, p).(queues := s.queues[q := s.queues[q].(hl := lock)])
  }

  function ReadHead(s: State, t: Tid): State
    requires t in s.threads && s.threads[t].q in s.queues
  {
    var me := s.threads[t];
    s.(threads := s.threads[t := me.(at := PollAtHead, node := s.queues[me.q].head)])
  }

  function ReadNext(s: State, t: Tid): State
    requires t in s.threads && s.threads[t].node in s.heap
  {
    var me := s.threads[t];
    match s.heap[me.node].next
    case None => s.Goto(t, PollEmpty)
    case Some(n) => s.(threads := s.threads[t := me.(at := PollNext, link := n)])
  }

  function ReadValue(s: State, t: Tid): State
    requires t in s.threads && s.threads[t].link in s.heap && s.heap[s.threads[t].link].value.Some?
  {
    var me := s.threads[t];
    s.(threads := s.threads[t := me.(at := PollValued, fiber := s.heap[me.link].value.value)])
  }

  function MoveHead(s: State, t: Tid): State
    requires t in s.threads && s.threads[t].q in s.queues
  {
    var me := s.threads[t];
    s.Goto(t, PollMoved).(queues := s.queues[me.q := s.queues[me.q].(head := me.link)])
  }

  function StampNode(s: State, t: Tid): State
    requires t in s.threads && s.threads[t].node in s.heap
  {
    var me := s.threads[t];
    s.Goto(t, PollStamped).(heap := s.heap[me.node := s.heap[me.node].(value := Some(me.fiber))])
  }

  function GiveNode(s: State, t: Tid): State
    requires t in s.threads
  {
    var me := s.threads[t];
    s.Goto(t, Idle).(packing := s.packing[me.fiber := me.node], held := s.held[me.fiber := Holder(t, true)])
  }

  // --- what the callers do with fibers outside the queues ---

  // A new fiber comes with a node of its own.
  function Spawn(s: State, t: Tid, h: Handle, n: Node): State {
    s.(heap := s.heap[n := Cell(None, None)], packing := s.packing[h := n], held := s.held[h := Holder(t, false)])
  }

  // Another thread becomes the holder.
  function PassOn(s: State, h: Handle, to: Tid): State
    requires h in s.held
  {
    s.(held := s.held[h := s.held[h].(thread := to)])
  }

  // The fiber ends and takes its node with it.
  function Retire(s: State, h: Handle): State
    requires h in s.packing
  {
    s.(heap := s.heap - {s.packing[h]}, packing := s.packing - {h}, held := s.held - {h})
  }

  datatype Step =
    | CallAddStep(t: Tid, q: Qid, h: Handle)
    | WriteValueStep(t: Tid)
    | ClearNextStep(t: Tid)
    | LockTailStep(t: Tid)
    | ReadTailStep(t: Tid)
    | LinkNodeStep(t: Tid)
    | MoveTailStep(t: Tid)
    | UnlockTailStep(t: Tid)
    | CallPollStep(t: Tid, q: Qid)
    | LockHeadStep(t: Tid)
    | ReadHeadStep(t: Tid)
    | ReadNextStep(t: Tid)
    | UnlockEmptyStep(t: Tid)
    | ReadValueStep(t: Tid)
    | MoveHeadStep(t: Tid)
    | UnlockHeadStep(t: Tid)
    | StampNodeStep(t: Tid)
    | GiveNodeStep(t: Tid)
    | SpawnStep(t: Tid, h: Handle, n: Node)
    | PassOnStep(t: Tid, h: Handle, to: Tid)
    | RetireStep(t: Tid, h: Handle)

  // When a thread may take a step: only its own program point, a free lock
  // where it takes one, and the callers' discipline.  Only a fiber's current
  // holder may add it, pass it on or end it.
  predicate Enabled(s: State, a: Step) {
    match a
    case CallAddStep(t, q, h) => s.At(t, Idle) && q in s.queues && s.HeldBy(t, h)
    case WriteValueStep(t) => s.At(t, AddStart)
    case ClearNextStep(t) => s.At(t, AddValued)
    case LockTailStep(t) => s.At(t, AddCleared) && s.threads[t].q in s.queues && s.queues[s.threads[t].q].tl == None
    case ReadTailStep(t) => s.At(t, AddLocked)
    case LinkNodeStep(t) => s.At(t, AddAtTail)
    case MoveTailStep(t) => s.At(t, AddLinked)
    case UnlockTailStep(t) => s.At(t, AddMoved)
    case CallPollStep(t, q) => s.At(t, Idle) && q in s.queues
    case LockHeadStep(t) => s.At(t, PollStart) && s.threads[t].q in s.queues && s.queues[s.threads[t].q].hl == None
    case ReadHeadStep(t) => s.At(t, PollLocked)
    case ReadNextStep(t) => s.At(t, PollAtHead)
    case UnlockEmptyStep(t) => s.At(t, PollEmpty)
    case ReadValueStep(t) => s.At(t, PollNext)
    case MoveHeadStep(t) => s.At(t, PollValued)
    case UnlockHeadStep(t) => s.At(t, PollMoved)
    case StampNodeStep(t) => s.At(t, PollOpen)
    case GiveNodeStep(t) => s.At(t, PollStamped)
    case SpawnStep(t, h, n) => s.At(t, Idle) && h !in s.packing && n !in s.heap
    case PassOnStep(t, h, to) => s.HeldBy(t, h) && to in s.threads
    case RetireStep(t, h) => s.At(t, Idle) && s.HeldBy(t, h)
  }

  // Every cell, queue and fiber the step dereferences is there.
  predicate Safe(s: State, a: Step) {
    a.t in s.threads &&
    var me := s.threads[a.t];
    match a
    case CallAddStep(_, _, h) => h in s.packing
    case WriteValueStep(_) => me.node in s.heap
    case ClearNextStep(_) => me.node in s.heap
    case LinkNodeStep(_) => me.link in s.heap
    case ReadNextStep(_) => me.node in s.heap
    case ReadValueStep(_) => me.link in s.heap && s.heap[me.link].value.Some?
    case StampNodeStep(_) => me.node in s.heap
    case GiveNodeStep(_) => me.fiber in s.packing
    case CallPollStep(_, _) => true
    case SpawnStep(_, _, _) => true
    case PassOnStep(_, h, _) => h in s.held
    case RetireStep(_, h) => h in s.packing && s.packing[h] in s.heap
    case _ => me.q in s.queues
  }

  function Apply(s: State, a: Step): State
    requires Safe(s, a)
  {
    match a
    case CallAddStep(t, q, h) => CallAdd(s, t, q, h)
    case WriteValueStep(t) => WriteValue(s, t)
    case ClearNextStep(t) => ClearNext(s, t)
    case LockTailStep(t) => SetTailLock(s, t, AddLocked, Some(t))
    case ReadTailStep(t) => ReadTail(s, t)
    case LinkNodeStep(t) => LinkNode(s, t)
    case MoveTailStep(t) => MoveTail(s, t)
    case UnlockTailStep(t) => SetTailLock(s, t, Idle, None)
    case CallPollStep(t, q) => CallPoll(s, t, q)
    case LockHeadStep(t) => SetHeadLock(s, t, PollLocked, Some(t))
    case ReadHeadStep(t) => ReadHead(s, t)
    case ReadNextStep(t) => ReadNext(s, t)
    case UnlockEmptyStep(t) => SetHeadLock(s, t, Idle, None)
    case ReadValueStep(t) => ReadValue(s, t)
    case MoveHeadStep(t) => MoveHead(s, t)
    case UnlockHeadStep(t) => SetHeadLock(s, t, PollOpen, None)
    case StampNodeStep(t) => StampNode(s, t)
    case GiveNodeStep(t) => GiveNode(s, t)
    case SpawnStep(t, h, n) => Spawn(s, t, h, n)
    case PassOnStep(_, h, to) => PassOn(s, h, to)
    case RetireStep(_, h) => Retire(s, h)
  }

  // Before any fiber exists each queue owns one dummy node of its own.
  predicate Init(s: State) {
    && s.packing == map[] && s.held == map[]
    && (forall t :: t in s.threads ==> s.threads[t].at == Idle)
    && (forall q :: q in s.queues ==>
          var d := s.queues[q].head;
          s.queues[q] == Queue(d, d, None, None) && d in s.heap && s.heap[d].next == None)
    && (forall n :: n in s.heap ==> exists q :: q in s.queues && s.queues[q].head == n)
    && (forall p, q :: p in s.queues && q in s.queues && p != q ==> s.queues[p].head != s.queues[q].head)
  }
}
