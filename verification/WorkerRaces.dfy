/**
 * A run of `join(2)` that is not careful: a grant at the swap-out leaves a fiber
 * queued and still BLOCKED, its timer queues it again while it is on its worker's
 * thread, and when it has ended its second entry is still in the queue.  No node
 * is linked twice on the way.
 */
module WorkerRaces {
  import opened Base
  import opened Blocker
  import opened RunQueue
  import opened Workers
  import opened WorkerAffinity
  import opened WorkerRuns

  const START := Worker(READ, 0, 0, 0, false, READ)
  const NEW0 := FiberRec(RUNNABLE, None, PLAIN, false, None, 0, Queued(0))
  const NEW1 := FiberRec(RUNNABLE, None, PLAIN, false, None, 0, Queued(1))
  const RUN1 := FiberRec(RUNNABLE, None, PLAIN, false, Some(1), 1, OnThread(1))

  function First(pc: Point, total: int, back: Point): Worker {
    Worker(pc, total, 0, 0, false, back)
  }

  function Second(pc: Point, total: int): Worker {
    Worker(pc, total, 1, 0, false, READ)
  }

  const BUSY := Second(RUNNING, 2)

  // Fiber 0 in its timed wait on blocker 0, and after its end.
  function Granted(loc: Loc): FiberRec {
    FiberRec(BLOCKED, Some(0), Cont(Some(0), true, false), false, Some(0), 0, loc)
  }

  function Ended(loc: Loc): FiberRec {
    FiberRec(TERMINATED, Some(0), PLAIN, false, Some(0), 0, loc)
  }

  function EndedToo(loc: Loc): FiberRec {
    FiberRec(TERMINATED, None, PLAIN, false, Some(1), 1, loc)
  }

  function Scene(w0: Worker, w1: Worker, q0: seq<Fid>, q1: seq<Fid>, f0: FiberRec, f1: FiberRec, tokens: nat, total: int): State {
    State([w0, w1], [q0, q1], map[0 := f0, 1 := f1], map[0 := Gate(tokens, 1, [])], total, 0)
  }

  // Fiber 0, on worker 0, waits on the blocker with a timer; before worker 0
  // parks it, fiber 1, on worker 1, wakes the blocker up.
  function Twice(i: nat): State {
    match i
    case 0 => Scene(START, START, [0], [1], NEW0, NEW1, 0, 2)
    case 1 => Scene(First(POLL, 2, READ), START, [0], [1], NEW0, NEW1, 0, 2)
    case 2 => Scene(First(FOUND, 2, READ), START, [], [1], FiberRec(RUNNABLE, None, PLAIN, false, None, 0, OnThread(0)), NEW1, 0, 2)
    case 3 => Scene(First(RUNNING, 2, READ), START, [], [1], FiberRec(RUNNABLE, None, PLAIN, false, Some(0), 0, OnThread(0)), NEW1, 0, 2)
    case 4 => Scene(First(SWITCH, 2, READ), START, [], [1], Granted(OnThread(0)), NEW1, 0, 2)
    case 5 => Scene(First(SWITCH, 2, READ), First(POLL, 2, READ), [], [1], Granted(OnThread(0)), NEW1, 0, 2)
    case 6 => Scene(First(SWITCH, 2, READ), Second(FOUND, 2), [], [], Granted(OnThread(0)), FiberRec(RUNNABLE, None, PLAIN, false, None, 0, OnThread(1)), 0, 2)
    case 7 => Scene(First(SWITCH, 2, READ), BUSY, [], [], Granted(OnThread(0)), RUN1, 0, 2)
    case 8 => Scene(First(SWITCH, 2, READ), BUSY, [], [], Granted(OnThread(0)), RUN1, 1, 2)
    case 9 => Scene(First(READ, 2, READ), BUSY, [0], [], Granted(Queued(0)), RUN1, 0, 2)
    case 10 => Scene(First(POLL, 2, READ), BUSY, [0], [], Granted(Queued(0)), RUN1, 0, 2)
    case 11 => Scene(First(FOUND, 2, READ), BUSY, [], [], Granted(OnThread(0)), RUN1, 0, 2)
    case 12 => Scene(First(WAKING, 2, FOUND), BUSY, [], [], FiberRec(BLOCKED, Some(0), Cont(Some(0), false, false), true, Some(0), 0, OnThread(0)), RUN1, 0, 2)
    case 13 => Scene(First(ADDING, 2, FOUND), BUSY, [], [], FiberRec(BLOCKED, Some(0), Cont(Some(0), false, false), true, Some(0), 0, OnThread(0)), RUN1, 0, 2)
    case 14 => Scene(First(FOUND, 2, FOUND), BUSY, [0], [], FiberRec(RUNNABLE, Some(0), Cont(Some(0), false, false), true, Some(0), 0, Queued(0)), RUN1, 0, 2)
    case 15 => Scene(First(RUNNING, 2, FOUND), BUSY, [0], [], FiberRec(RUNNABLE, Some(0), PLAIN, false, Some(0), 0, Queued(0)), RUN1, 0, 2)
    case 16 => Scene(First(SWITCH, 2, FOUND), BUSY, [0], [], Ended(Queued(0)), RUN1, 0, 2)
    case 17 => Scene(First(READ, 2, FOUND), BUSY, [0], [], Ended(Gone), RUN1, 0, 1)
    case 18 => Scene(First(READ, 2, FOUND), Second(SWITCH, 2), [0], [], Ended(Gone), EndedToo(OnThread(1)), 0, 1)
    case 19 => Scene(First(READ, 2, FOUND), Second(READ, 2), [0], [], Ended(Gone), EndedToo(Gone), 0, 0)
    case 20 => Scene(First(READ, 2, FOUND), Second(POLL, 0), [0], [], Ended(Gone), EndedToo(Gone), 0, 0)
    case _ => Scene(First(READ, 2, FOUND), Second(EXITED, 0), [0], [], Ended(Gone), EndedToo(Gone), 0, 0)
  }

  function TwiceStep(i: nat): Step {
    match i
    case 0 => ReadTotal(0)
    case 1 => Poll(0)
    case 2 => Start(0)
    case 3 => WaitOn(0, 0, true, true)
    case 4 => ReadTotal(1)
    case 5 => Poll(1)
    case 6 => Start(1)
    case 7 => Wake(1, 0)
    case 8 => Switch(0)
    case 9 => ReadTotal(0)
    case 10 => Poll(0)
    case 11 => Fire(0, 0, true)
    case 12 => Check(0)
    case 13 => Add(0)
    case 14 => Start(0)
    case 15 => End(0)
    case 16 => Switch(0)
    case 17 => End(1)
    case 18 => Switch(1)
    case 19 => ReadTotal(1)
    case _ => Poll(1)
  }

  lemma TwicePolls(i: nat)
    requires i < 2
    ensures StepsTo(Twice(i), TwiceStep(i), Twice(i + 1))
  {
    assert Twice(1).queues[0][1..] == [];
  }

  lemma TwiceMarks(i: nat)
    requires 2 <= i < 4
    ensures StepsTo(Twice(i), TwiceStep(i), Twice(i + 1))
  {
  }

  lemma TwiceOthers(i: nat)
    requires 4 <= i < 6
    ensures StepsTo(Twice(i), TwiceStep(i), Twice(i + 1))
  {
    assert Twice(5).queues[1][1..] == [];
  }

  lemma TwiceWakes(i: nat)
    requires 6 <= i < 8
    ensures StepsTo(Twice(i), TwiceStep(i), Twice(i + 1))
  {
  }

  lemma TwiceGrants(i: nat)
    requires i == 8
    ensures StepsTo(Twice(i), TwiceStep(i), Twice(i + 1))
  {
    assert Twice(8).queues[0] + [0] == [0];
  }

  lemma TwiceFinds(i: nat)
    requires 9 <= i < 11
    ensures StepsTo(Twice(i), TwiceStep(i), Twice(i + 1))
  {
    assert Twice(10).queues[0][1..] == [];
  }

  lemma TwiceFires(i: nat)
    requires 11 <= i < 13
    ensures StepsTo(Twice(i), TwiceStep(i), Twice(i + 1))
  {
  }

  lemma TwiceAdds(i: nat)
    requires i == 13
    ensures StepsTo(Twice(i), TwiceStep(i), Twice(i + 1))
  {
    assert Twice(13).queues[0] + [0] == [0];
  }

  lemma TwiceResumes(i: nat)
    requires i == 14
    ensures StepsTo(Twice(i), TwiceStep(i), Twice(i + 1))
  {
  }

  lemma TwiceEnds(i: nat)
    requires 15 <= i < 17
    ensures StepsTo(Twice(i), TwiceStep(i), Twice(i + 1))
  {
  }

  lemma TwiceEndsToo(i: nat)
    requires 17 <= i < 19
    ensures StepsTo(Twice(i), TwiceStep(i), Twice(i + 1))
  {
  }

  lemma TwiceReads(i: nat)
    requires i == 19
    ensures StepsTo(Twice(i), TwiceStep(i), Twice(i + 1))
  {
  }

  lemma TwiceLeaves(i: nat)
    requires i == 20
    ensures StepsTo(Twice(i), TwiceStep(i), Twice(i + 1))
  {
  }

  lemma TwiceHop(i: nat)
    requires i < 21
    ensures StepsTo(Twice(i), TwiceStep(i), Twice(i + 1))
  {
    if i < 2 { TwicePolls(i); }
    else if i < 4 { TwiceMarks(i); }
    else if i < 6 { TwiceOthers(i); }
    else if i < 8 { TwiceWakes(i); }
    else if i < 9 { TwiceGrants(i); }
    else if i < 11 { TwiceFinds(i); }
    else if i < 13 { TwiceFires(i); }
    else if i < 14 { TwiceAdds(i); }
    else if i < 15 { TwiceResumes(i); }
    else if i < 17 { TwiceEnds(i); }
    else if i < 19 { TwiceEndsToo(i); }
    else if i < 20 { TwiceReads(i); }
    else { TwiceLeaves(i); }
  }

  // No step adds a fiber that stands in a queue.
  lemma TwiceLinksOnce(i: nat)
    requires i < 21
    ensures LinksOnce(Twice(i), TwiceStep(i))
  {
    TwiceHop(i);
    if i == 8 || i == 13 {
      assert Twice(i).queues[0] == [] && Twice(i).queues[1] == [];
    } else if i == 16 {
      assert Twice(i).queues == Twice(i + 1).queues;
    } else if i == 18 {
      assert Twice(i).queues == Twice(i + 1).queues;
    }
  }

  lemma TwiceReaches(n: nat)
    requires n <= 21
    ensures LinkedReachable(Twice(n))
  {
    var ss, steps := seq(n + 1, i requires 0 <= i <= n => Twice(i)), seq(n, i requires 0 <= i < n => TwiceStep(i));
    TwiceStarts();
    forall i | 0 <= i < n ensures StepsTo(ss[i], steps[i], ss[i + 1]) && LinksOnce(ss[i], steps[i]) {
      TwiceHop(i);
      TwiceLinksOnce(i);
    }
    assert LinkedRun(ss, steps);
  }

  lemma TwiceStarts()
    ensures Init(Twice(0))
  {
  }

  // The careless step is worker 0's look at the fiber it has on its own thread.
  lemma FirstCareless(i: nat)
    requires i <= 12
    ensures Careful(Twice(i), TwiceStep(i)) <==> i < 12
  {
    assert Twice(12).workers[0] == First(WAKING, 2, FOUND);
  }

  // A fiber that has terminated, and no longer counts, is still in a queue.
  predicate DeadInQueue(s: State, k: Wid, f: Fid) {
    f in s.fibers && s.fibers[f].state == TERMINATED && s.fibers[f].loc == Gone && k < |s.queues| && f in s.queues[k]
  }

  lemma EndedCanBeQueued()
    ensures exists s, k, f :: LinkedReachable(s) && DeadInQueue(s, k, f) && 0 < s.total
  {
    TwiceReaches(17);
    TwiceDead();
  }

  lemma TwiceDead()
    ensures DeadInQueue(Twice(17), 0, 0) && 0 < Twice(17).total
  {
  }

  // So a worker can leave while another still has an entry in its queue, and
  // will go on to dispatch a fiber that is gone.
  lemma ExitCanLeaveEntry()
    ensures exists s, j, k, f :: LinkedReachable(s) && s.At(j, EXITED) && s.At(k, READ) && DeadInQueue(s, k, f)
  {
    TwiceReaches(21);
    TwiceEnd();
  }

  lemma TwiceEnd()
    ensures Twice(21).At(1, EXITED) && Twice(21).At(0, READ) && DeadInQueue(Twice(21), 0, 0)
  {
  }
}
