/**
 * The run queue refines the atomic FIFO, under every interleaving of its steps.
 */
module QueueRefinement {
  import opened Base
  import opened QueueMachine
  import opened QueueInvariant
  import F = AtomicFifo

  function Follow(s: State, x: Aux, a: Step): Aux
    requires Safe(s, a)
  {
    match a
    case CallAddStep(t, _, h) => x.(place := x.place[h := Adding(t)])
    case LinkNodeStep(t) => if s.threads[t].q in x.hist then FollowLink(s, x, t) else x
    case MoveHeadStep(t) => if s.threads[t].q in x.hist then FollowTake(s, x, t) else x
    case GiveNodeStep(t) => x.(place := x.place[s.threads[t].fiber := Outside])
    case SpawnStep(_, h, n) => x.(own := x.own[n := Of(h)], place := x.place[h := Outside])
    case RetireStep(_, h) => Forget(s, x, h)
    case _ => x
  }

  predicate IsAdd(a: Step) {
    a.CallAddStep? || a.WriteValueStep? || a.ClearNextStep? || a.LockTailStep? || a.ReadTailStep?
    || a.LinkNodeStep? || a.MoveTailStep? || a.UnlockTailStep?
  }

  lemma AddIsSafe(s: State, x: Aux, a: Step)
    requires Inv(s, x) && Enabled(s, a) && IsAdd(a)
    ensures Safe(s, a)
  {
    assert ThreadOk(s, x, a.t) && AdderOk(s, x, a.t);
    if a.CallAddStep? {
      assert HeldOk(s, x, a.h);
    } else if a.LinkNodeStep? {
      var q := s.threads[a.t].q;
      assert TailOk(s, x, q);
      BeforeOwner(s, x, q, |x.hist[q].linked|);
    }
  }

  lemma PollIsSafe(s: State, x: Aux, a: Step)
    requires Inv(s, x) && Enabled(s, a) && !IsAdd(a)
    ensures Safe(s, a)
  {
    assert ThreadOk(s, x, a.t) && TakerOk(s, x, a.t);
    if a.RetireStep? {
      assert HeldOk(s, x, a.h) && PlaceOk(s, x, a.h);
    } else if a.ReadNextStep? {
      assert HeadOk(s, x, s.threads[a.t].q);
    } else if a.ReadValueStep? {
      assert QueuedOk(s, x, s.threads[a.t].q, x.hist[s.threads[a.t].q].taken);
    }
  }

  // Nothing a thread dereferences has been freed, nor is any handle it follows
  // missing.
  lemma NoDanglingAccess(s: State, x: Aux, a: Step)
    requires Inv(s, x) && Enabled(s, a)
    ensures Safe(s, a)
  {
    if IsAdd(a) {
      AddIsSafe(s, x, a);
    } else {
      PollIsSafe(s, x, a);
    }
  }

  lemma AddKeeps(s: State, x: Aux, a: Step)
    requires Inv(s, x) && Enabled(s, a) && Safe(s, a) && IsAdd(a)
    ensures Inv(Apply(s, a), Follow(s, x, a))
  {
    assert ThreadOk(s, x, a.t);
    match a
    case CallAddStep(t, q, h) => CallAddKeeps(s, x, t, q, h);
    case WriteValueStep(t) => WriteValueKeeps(s, x, t);
    case ClearNextStep(t) => ClearNextKeeps(s, x, t);
    case LockTailStep(t) => LockTailKeeps(s, x, t);
    case ReadTailStep(t) => ReadTailKeeps(s, x, t);
    case LinkNodeStep(t) => LinkNodeKeeps(s, x, t);
    case MoveTailStep(t) => MoveTailKeeps(s, x, t);
    case UnlockTailStep(t) => UnlockTailKeeps(s, x, t);
    case _ => assert false;
  }

  lemma PollKeeps(s: State, x: Aux, a: Step)
    requires Inv(s, x) && Enabled(s, a) && Safe(s, a) && !IsAdd(a)
    ensures Inv(Apply(s, a), Follow(s, x, a))
  {
    assert ThreadOk(s, x, a.t);
    match a
    case CallPollStep(t, q) => CallPollKeeps(s, x, t, q);
    case LockHeadStep(t) => LockHeadKeeps(s, x, t);
    case ReadHeadStep(t) => ReadHeadKeeps(s, x, t);
    case ReadNextStep(t) => ReadNextKeeps(s, x, t);
    case UnlockEmptyStep(t) => UnlockHeadKeeps(s, x, t, Idle);
    case ReadValueStep(t) => ReadValueKeeps(s, x, t);
    case MoveHeadStep(t) => MoveHeadKeeps(s, x, t);
    case UnlockHeadStep(t) => UnlockHeadKeeps(s, x, t, PollOpen);
    case StampNodeStep(t) => StampNodeKeeps(s, x, t);
    case GiveNodeStep(t) => GiveNodeKeeps(s, x, t);
    case SpawnStep(t, h, n) => SpawnKeeps(s, x, t, h, n);
    case PassOnStep(t, h, to) => PassOnKeeps(s, x, t, h, to);
    case RetireStep(t, h) => RetireKeeps(s, x, t, h);
    case _ => assert false;
  }

  lemma StepKeeps(s: State, x: Aux, a: Step)
    requires Inv(s, x) && Enabled(s, a) && Safe(s, a)
    ensures Inv(Apply(s, a), Follow(s, x, a))
  {
    if IsAdd(a) {
      AddKeeps(s, x, a);
    } else {
      PollKeeps(s, x, a);
    }
  }

  // --- the abstraction ---

  function OpOf(me: Thread): F.Op {
    if me.BeforeLink() then F.Adding(me.q, me.fiber)
    else if me.at == AddLinked || me.at == AddMoved then F.Added
    else if me.at == PollEmpty then F.Polled(None)
    else if me.AfterTake() then F.Polled(Some(me.fiber))
    else if me.at == Idle then F.Ready
    else F.Polling(me.q)
  }

  function Ops(threads: map<Tid, Thread>): map<Tid, F.Op> {
    map t | t in threads :: OpOf(threads[t])
  }

  function Holders(held: map<Handle, Holder>): map<Handle, Tid> {
    map h | h in held :: held[h].thread
  }

  function Waiting(y: History): seq<Handle> {
    if y.taken <= |y.linked| then y.linked[y.taken..] else []
  }

  function Contents(hist: map<Qid, History>): map<Qid, seq<Handle>> {
    map q | q in hist :: Waiting(hist[q])
  }

  function Abs(s: State, x: Aux): F.Fifo {
    F.Fifo(Contents(x.hist), Ops(s.threads), Holders(s.held))
  }

  // The one step inside `add` that puts the fiber in the queue is the write of
  // `tail->next`; the one inside `poll` that takes it is the write of `head`,
  // or the read of a null `next`.
  function EventOf(s: State, a: Step): F.Event
    requires Safe(s, a)
  {
    match a
    case CallAddStep(t, q, h) => F.CallAdd(t, q, h)
    case LinkNodeStep(t) => F.Put(t)
    case UnlockTailStep(t) => F.ReturnAdd(t)
    case CallPollStep(t, q) => F.CallPoll(t, q)
    case ReadNextStep(t) => if s.heap[s.threads[t].node].next == None then F.Take(t) else F.Quiet
    case MoveHeadStep(t) => F.Take(t)
    case UnlockEmptyStep(t) => F.ReturnEmpty(t)
    case GiveNodeStep(t) => F.ReturnPoll(t)
    case SpawnStep(t, h, _) => F.Spawn(t, h)
    case PassOnStep(_, h, to) => F.PassOn(h, to)
    case RetireStep(_, h) => F.Retire(h)
    case _ => F.Quiet
  }

  lemma OpsUpdate(threads: map<Tid, Thread>, t: Tid, me: Thread)
    ensures Ops(threads[t := me]) == Ops(threads)[t := OpOf(me)]
  {
  }

  lemma OpsSame(threads: map<Tid, Thread>, t: Tid, me: Thread)
    requires t in threads && OpOf(threads[t]) == OpOf(me)
    ensures Ops(threads[t := me]) == Ops(threads)
  {
  }

  lemma HoldersUpdate(held: map<Handle, Holder>, h: Handle, to: Holder)
    ensures Holders(held[h := to]) == Holders(held)[h := to.thread]
    ensures Holders(held - {h}) == Holders(held) - {h}
  {
  }

  lemma ContentsUpdate(hist: map<Qid, History>, q: Qid, y: History)
    ensures Contents(hist[q := y]) == Contents(hist)[q := Waiting(y)]
  {
  }

  predicate Matches(s: State, x: Aux, s': State, x': Aux, e: F.Event) {
    F.Possible(Abs(s, x), e) && Abs(s', x') == F.Do(Abs(s, x), e)
  }

  lemma QuietMatches(s: State, x: Aux, t: Tid, s': State)
    requires t in s.threads && t in s'.threads && s'.threads == s.threads[t := s'.threads[t]]
    requires OpOf(s.threads[t]) == OpOf(s'.threads[t]) && s'.held == s.held
    ensures Matches(s, x, s', x, F.Quiet)
  {
    OpsSame(s.threads, t, s'.threads[t]);
  }

  lemma LinkMatches(s: State, x: Aux, t: Tid)
    requires Shape(s, x) && s.At(t, AddAtTail) && s.threads[t].link in s.heap && s.threads[t].q in x.hist
    ensures Matches(s, x, LinkNode(s, t), FollowLink(s, x, t), F.Put(t))
  {
    var me := s.threads[t];
    var y := x.hist[me.q];
    OpsUpdate(s.threads, t, me.(at := AddLinked));
    ContentsUpdate(x.hist, me.q, y.(linked := y.linked + [me.fiber]));
    assert Waiting(y.(linked := y.linked + [me.fiber])) == Waiting(y) + [me.fiber];
  }

  lemma TakeMatches(s: State, x: Aux, t: Tid)
    requires Shape(s, x) && TakeReady(s, x, t)
    ensures Matches(s, x, MoveHead(s, t), FollowTake(s, x, t), F.Take(t))
  {
    var me := s.threads[t];
    var y := x.hist[me.q];
    OpsUpdate(s.threads, t, me.(at := PollMoved));
    ContentsUpdate(x.hist, me.q, y.(taken := y.taken + 1));
    TakeWaiting(s, x, t);
  }

  // The fiber taken is the first that waits.
  lemma TakeWaiting(s: State, x: Aux, t: Tid)
    requires Shape(s, x) && TakeReady(s, x, t)
    ensures var me := s.threads[t];
            var y := x.hist[me.q];
            Waiting(y) == [me.fiber] + Waiting(y.(taken := y.taken + 1))
  {
  }

  // A poll that reads a null `next` really saw an empty queue.
  lemma EmptyMatches(s: State, x: Aux, t: Tid)
    requires Shape(s, x) && s.At(t, PollAtHead) && s.threads[t].node in s.heap && s.heap[s.threads[t].node].next == None
    requires ThreadOk(s, x, t) && LinkOk(s, x, s.threads[t].q, x.hist[s.threads[t].q].taken)
    ensures Matches(s, x, ReadNext(s, t), x, F.Take(t))
  {
    OpsUpdate(s.threads, t, s.threads[t].(at := PollEmpty));
    assert Waiting(x.hist[s.threads[t].q]) == [];
  }

  lemma CallAddMatches(s: State, x: Aux, x': Aux, t: Tid, q: Qid, h: Handle)
    requires s.At(t, Idle) && q in x.hist && s.HeldBy(t, h) && h in s.packing && x'.hist == x.hist
    ensures Matches(s, x, CallAdd(s, t, q, h), x', F.CallAdd(t, q, h))
  {
    OpsUpdate(s.threads, t, Thread(AddStart, q, h, s.packing[h], 0));
    HoldersUpdate(s.held, h, Holder(t, true));
  }

  lemma CallPollMatches(s: State, x: Aux, t: Tid, q: Qid)
    requires s.At(t, Idle) && q in x.hist
    ensures Matches(s, x, CallPoll(s, t, q), x, F.CallPoll(t, q))
  {
    OpsUpdate(s.threads, t, Thread(PollStart, q, 0, 0, 0));
  }

  lemma ReturnAddMatches(s: State, x: Aux, t: Tid)
    requires s.At(t, AddMoved) && s.threads[t].q in s.queues
    ensures Matches(s, x, SetTailLock(s, t, Idle, None), x, F.ReturnAdd(t))
  {
    OpsUpdate(s.threads, t, s.threads[t].(at := Idle));
  }

  lemma ReturnEmptyMatches(s: State, x: Aux, t: Tid)
    requires s.At(t, PollEmpty) && s.threads[t].q in s.queues
    ensures Matches(s, x, SetHeadLock(s, t, Idle, None), x, F.ReturnEmpty(t))
  {
    OpsUpdate(s.threads, t, s.threads[t].(at := Idle));
  }

  lemma AfterReturn(s: State, x: Aux, x': Aux, t: Tid)
    requires t in s.threads && x'.hist == x.hist
    ensures Abs(GiveNode(s, t), x')
         == F.Fifo(Contents(x.hist), Ops(s.threads)[t := F.Ready], Holders(s.held)[s.threads[t].fiber := t])
  {
    OpsUpdate(s.threads, t, s.threads[t].(at := Idle));
    HoldersUpdate(s.held, s.threads[t].fiber, Holder(t, true));
  }

  lemma ReturnPollMatches(s: State, x: Aux, x': Aux, t: Tid)
    requires s.At(t, PollStamped) && x'.hist == x.hist
    ensures Matches(s, x, GiveNode(s, t), x', F.ReturnPoll(t))
  {
    assert OpOf(s.threads[t]) == F.Polled(Some(s.threads[t].fiber));
    AfterReturn(s, x, x', t);
    PolledReturns(Abs(s, x), t, s.threads[t].fiber);
  }

  lemma PolledReturns(f: F.Fifo, t: Tid, h: Handle)
    requires t in f.ops && f.ops[t] == F.Polled(Some(h))
    ensures F.Possible(f, F.ReturnPoll(t))
    ensures F.Do(f, F.ReturnPoll(t)) == F.Fifo(f.contents, f.ops[t := F.Ready], f.held[h := t])
  {
  }

  lemma SpawnMatches(s: State, x: Aux, x': Aux, t: Tid, h: Handle, n: Node)
    requires Structure(s, x) && s.At(t, Idle) && h !in s.packing && x'.hist == x.hist
    ensures Matches(s, x, Spawn(s, t, h, n), x', F.Spawn(t, h))
  {
    assert HeldOk(s, x, h);
    HoldersUpdate(s.held, h, Holder(t, false));
  }

  lemma PassOnMatches(s: State, x: Aux, h: Handle, to: Tid)
    requires h in s.held && to in s.threads
    ensures Matches(s, x, PassOn(s, h, to), x, F.PassOn(h, to))
  {
    HoldersUpdate(s.held, h, s.held[h].(thread := to));
  }

  lemma RetireMatches(s: State, x: Aux, x': Aux, h: Handle)
    requires h in s.held && h in s.packing && x'.hist == x.hist
    ensures Matches(s, x, Retire(s, h), x', F.Retire(h))
  {
    HoldersUpdate(s.held, h, s.held[h]);
  }

  predicate IsQuiet(a: Step) {
    (IsAdd(a) && !a.CallAddStep? && !a.LinkNodeStep? && !a.UnlockTailStep?)
    || a.LockHeadStep? || a.ReadHeadStep? || a.ReadValueStep? || a.UnlockHeadStep? || a.StampNodeStep?
  }

  lemma QuietAddMatches(s: State, x: Aux, a: Step)
    requires IsQuiet(a) && IsAdd(a) && Enabled(s, a) && Safe(s, a)
    ensures Matches(s, x, Apply(s, a), x, F.Quiet)
  {
    match a
    case WriteValueStep(t) => QuietMatches(s, x, t, WriteValue(s, t));
    case ClearNextStep(t) => QuietMatches(s, x, t, ClearNext(s, t));
    case LockTailStep(t) => QuietMatches(s, x, t, SetTailLock(s, t, AddLocked, Some(t)));
    case ReadTailStep(t) => QuietMatches(s, x, t, ReadTail(s, t));
    case MoveTailStep(t) => QuietMatches(s, x, t, MoveTail(s, t));
    case _ => assert false;
  }

  lemma QuietPollMatches(s: State, x: Aux, a: Step)
    requires IsQuiet(a) && !IsAdd(a) && Enabled(s, a) && Safe(s, a)
    ensures Matches(s, x, Apply(s, a), x, F.Quiet)
  {
    match a
    case LockHeadStep(t) => HeadLockMatches(s, x, t, PollLocked, Some(t));
    case ReadHeadStep(t) => QuietMatches(s, x, t, ReadHead(s, t));
    case ReadValueStep(t) => QuietMatches(s, x, t, ReadValue(s, t));
    case UnlockHeadStep(t) => HeadLockMatches(s, x, t, PollOpen, None);
    case StampNodeStep(t) => StampMatches(s, x, t);
    case _ => assert false;
  }

  lemma HeadLockMatches(s: State, x: Aux, t: Tid, p: Point, lock: Option<Tid>)
    requires t in s.threads && s.threads[t].q in s.queues && OpOf(s.threads[t]) == OpOf(s.threads[t].(at := p))
    ensures Matches(s, x, SetHeadLock(s, t, p, lock), x, F.Quiet)
  {
    QuietMatches(s, x, t, SetHeadLock(s, t, p, lock));
  }

  lemma StampMatches(s: State, x: Aux, t: Tid)
    requires s.At(t, PollOpen) && s.threads[t].node in s.heap
    ensures Matches(s, x, StampNode(s, t), x, F.Quiet)
  {
    QuietMatches(s, x, t, StampNode(s, t));
  }

  lemma ReadNextMatches(s: State, x: Aux, t: Tid)
    requires Shape(s, x) && s.At(t, PollAtHead) && s.threads[t].node in s.heap && s.threads[t].q in x.hist
    requires ThreadOk(s, x, t) && LinkOk(s, x, s.threads[t].q, x.hist[s.threads[t].q].taken)
    ensures Matches(s, x, ReadNext(s, t), x, if s.heap[s.threads[t].node].next == None then F.Take(t) else F.Quiet)
  {
    if s.heap[s.threads[t].node].next == None {
      EmptyMatches(s, x, t);
    } else {
      QuietMatches(s, x, t, ReadNext(s, t));
    }
  }

  // Forward simulation: every step of the program is one step of the FIFO.
  lemma StepRefines(s: State, x: Aux, a: Step)
    requires Inv(s, x) && Enabled(s, a) && Safe(s, a)
    ensures Matches(s, x, Apply(s, a), Follow(s, x, a), EventOf(s, a))
  {
    if IsQuiet(a) && IsAdd(a) {
      QuietAddMatches(s, x, a);
    } else if IsQuiet(a) {
      QuietPollMatches(s, x, a);
    } else {
      VisibleStepMatches(s, x, a);
    }
  }

  lemma VisibleStepMatches(s: State, x: Aux, a: Step)
    requires Inv(s, x) && Enabled(s, a) && Safe(s, a) && !IsQuiet(a)
    ensures Matches(s, x, Apply(s, a), Follow(s, x, a), EventOf(s, a))
  {
    assert ThreadOk(s, x, a.t);
    var q0 := s.threads[a.t].q;
    match a
    case LinkNodeStep(t) => LinkMatches(s, x, t);
    case MoveHeadStep(t) =>
      assert HeadOk(s, x, q0) && QueuedOk(s, x, q0, x.hist[q0].taken);
      TakeMatches(s, x, t);
    case ReadNextStep(t) =>
      assert LinkOk(s, x, q0, x.hist[q0].taken);
      ReadNextMatches(s, x, t);
    case CallAddStep(t, q, h) => CallAddMatches(s, x, Follow(s, x, a), t, q, h);
    case UnlockTailStep(t) => ReturnAddMatches(s, x, t);
    case CallPollStep(t, q) => CallPollMatches(s, x, t, q);
    case UnlockEmptyStep(t) => ReturnEmptyMatches(s, x, t);
    case GiveNodeStep(t) => ReturnPollMatches(s, x, Follow(s, x, a), t);
    case SpawnStep(t, h, n) => SpawnMatches(s, x, Follow(s, x, a), t, h, n);
    case PassOnStep(_, h, to) => PassOnMatches(s, x, h, to);
    case RetireStep(_, h) => RetireMatches(s, x, Follow(s, x, a), h);
    case _ => assert false;
  }
}
