/**
 * Two runs of a mutex that are not careful, moment by moment: a wake-up that
 * comes late lets a second fiber in, and a yield by a fiber left marked loses
 * the lock for good.
 */
module MutexRaces {
  import opened Mutex
  import B = Blocker
  import R = BlockerRuns

  const OUT := R.FiberRec(R.NoWait, 1, false, false, false, false)
  const MARKED := R.FiberRec(R.NoWait, 1, true, false, false, false)
  const HANDED := R.Ticket(0, R.Fate.Handed)
  const WAITS := R.Ticket(0, R.InLine)

  function F(wait: R.Wait, ready: nat, blocked: bool, flag: bool, token: bool): R.FiberRec {
    R.FiberRec(wait, ready, blocked, false, flag, token)
  }

  // The fibers are numbered from 0.
  function Scene(tokens: nat, queue: seq<Fid>, fibers: seq<R.FiberRec>, hands: map<R.Tid, R.Hand>,
                 woken: nat, granted: nat, eaten: nat, tickets: seq<R.Ticket>, line: seq<nat>, holders: set<Fid>): State {
    State(R.State(B.Gate(tokens, 1, queue), map f | 0 <= f < |fibers| :: fibers[f], hands,
                  1, woken, granted, eaten, tickets, line), holders)
  }

  // Fiber 2 holds the lock and fiber 0 waits for it with a timer.  The unlock of
  // fiber 2 pops fiber 0, but fiber 0's timer resumes it first: it returns with
  // the lock, unlocks, and waits again while fiber 1 holds the lock.  Only now
  // does the thread of fiber 2 look: it finds fiber 0 blocked and resumes it.
  function Late(i: nat): State {
    match i
    case 0 => Scene(1, [], [OUT, OUT, OUT], map[], 0, 0, 0, [], [], {})
    case 1 => Scene(0, [], [OUT, OUT, OUT], map[], 0, 1, 0, [], [], {2})
    case 2 => Scene(0, [], [F(R.Parking(true, true), 1, true, false, false), OUT, OUT], map[], 0, 1, 0, [], [], {2})
    case 3 => Scene(0, [0], [F(R.Inside(true, true), 0, true, false, false), OUT, OUT], map[], 0, 1, 0, [WAITS], [0], {2})
    case 4 => Scene(0, [], [F(R.Inside(true, true), 0, true, false, true), OUT, OUT], map[2 := R.Hand(0, false)], 1, 2, 0, [HANDED], [], {0})
    case 5 => Scene(0, [], [F(R.Inside(true, false), 0, true, true, true), OUT, OUT], map[2 := R.Hand(0, false), 9 := R.Hand(0, false)], 1, 2, 0, [HANDED], [], {0})
    case 6 => Scene(0, [], [F(R.Inside(true, false), 0, true, true, true), OUT, OUT], map[2 := R.Hand(0, false), 9 := R.Hand(0, true)], 1, 2, 0, [HANDED], [], {0})
    case 7 => Scene(0, [], [F(R.Inside(true, false), 1, false, true, true), OUT, OUT], map[2 := R.Hand(0, false)], 1, 2, 0, [HANDED], [], {0})
    case 8 => Scene(0, [], [OUT, OUT, OUT], map[2 := R.Hand(0, false)], 1, 2, 0, [HANDED], [], {0})
    case 9 => Scene(1, [], [OUT, OUT, OUT], map[2 := R.Hand(0, false)], 2, 2, 0, [HANDED], [], {})
    case 10 => Scene(0, [], [OUT, OUT, OUT], map[2 := R.Hand(0, false)], 2, 3, 0, [HANDED], [], {1})
    case 11 => Scene(0, [], [F(R.Parking(false, false), 1, true, false, false), OUT, OUT], map[2 := R.Hand(0, false)], 2, 3, 0, [HANDED], [], {1})
    case 12 => Scene(0, [0], [F(R.Inside(false, false), 0, true, false, false), OUT, OUT], map[2 := R.Hand(0, false)], 2, 3, 0, [HANDED, WAITS], [1], {1})
    case 13 => Scene(0, [0], [F(R.Inside(false, false), 0, true, false, false), OUT, OUT], map[2 := R.Hand(0, true)], 2, 3, 0, [HANDED, WAITS], [1], {1})
    case _ => Scene(0, [0], [F(R.Inside(false, false), 1, false, false, false), OUT, OUT], map[], 2, 3, 0, [HANDED, WAITS], [1], {1})
  }

  function LateStep(i: nat): Step {
    match i
    case 0 => Lock(2)
    case 1 => TimedLock(0, true)
    case 2 => Do(R.SwapOut(0))
    case 3 => Unlock(2)
    case 4 => Do(R.FireTimer(9, 0))
    case 5 => Do(R.Look(9))
    case 6 => Do(R.Change(9))
    case 7 => Do(R.Resume(0))
    case 8 => Unlock(0)
    case 9 => Lock(1)
    case 10 => Lock(0)
    case 11 => Do(R.SwapOut(0))
    case 12 => Do(R.Look(2))
    case _ => Do(R.Change(2))
  }

  lemma LateParks(i: nat)
    requires i < 3
    ensures StepsTo(Late(i), LateStep(i), Late(i + 1))
  {
  }

  lemma LatePops(i: nat)
    requires i == 3
    ensures StepsTo(Late(i), LateStep(i), Late(i + 1))
  {
  }

  lemma LateFires(i: nat)
    requires i == 4
    ensures StepsTo(Late(i), LateStep(i), Late(i + 1))
  {
  }

  lemma LateLooks(i: nat)
    requires i == 5
    ensures StepsTo(Late(i), LateStep(i), Late(i + 1))
  {
  }

  lemma LateWakes(i: nat)
    requires i == 6
    ensures StepsTo(Late(i), LateStep(i), Late(i + 1))
  {
  }

  lemma LateReturns(i: nat)
    requires i == 7
    ensures StepsTo(Late(i), LateStep(i), Late(i + 1))
  {
  }

  lemma LateMovesOn(i: nat)
    requires 8 <= i < 12
    ensures StepsTo(Late(i), LateStep(i), Late(i + 1))
  {
  }

  lemma LateIsSeen(i: nat)
    requires 12 <= i < 14
    ensures StepsTo(Late(i), LateStep(i), Late(i + 1))
  {
  }

  lemma LateRun()
    ensures Reachable(Late(14))
  {
    var ss, steps := seq(15, i requires 0 <= i < 15 => Late(i)), seq(14, i requires 0 <= i < 14 => LateStep(i));
    forall i | 0 <= i < 14 ensures StepsTo(ss[i], steps[i], ss[i + 1]) {
      if i < 3 { LateParks(i); }
      else if i < 4 { LatePops(i); }
      else if i < 5 { LateFires(i); }
      else if i < 6 { LateLooks(i); }
      else if i < 7 { LateWakes(i); }
      else if i < 8 { LateReturns(i); }
      else if i < 12 { LateMovesOn(i); }
      else { LateIsSeen(i); }
    }
    assert Init(Late(0));
    assert Run(ss, steps) && ss[|steps|] == Late(14);
  }

  // Fiber `f` comes back from `lock` as if it had the lock, and does not.
  ghost predicate Intrudes(s: State, f: Fid) {
    R.Enabled(s.b, R.Resume(f)) && R.ResumeResult(s.b, f) && f !in s.holders
  }

  // The first careless step is the look of the thread of fiber 2.
  lemma LateCareless(i: nat)
    requires i <= 12
    ensures Careful(Late(i), LateStep(i)) <==> i < 12
  {
    if i == 5 {
      assert Late(5).b.Of(0) == F(R.Inside(true, false), 0, true, true, true);
      assert forall v: R.Tid :: v in Late(5).b.hands ==> v == 2 || v == 9;
    }
  }

  // A second fiber gets in beside the holder.
  lemma TwoInside()
    ensures exists s, f, g :: Reachable(s) && Intrudes(s, f) && g in s.holders && s.b.Free(g)
  {
    LateRun();
    var s := Late(14);
    assert Intrudes(s, 0) && 1 in s.holders && s.b.Free(1);
  }

  // Fiber 0 is granted the lock at its swap-out and left marked.  It unlocks and
  // then merely yields, and the scheduler takes the token for it.
  function Lost(i: nat): State {
    match i
    case 0 => Scene(1, [], [OUT, OUT], map[], 0, 0, 0, [], [], {})
    case 1 => Scene(0, [], [OUT, OUT], map[], 0, 1, 0, [], [], {1})
    case 2 => Scene(0, [], [F(R.Parking(false, false), 1, true, false, false), OUT], map[], 0, 1, 0, [], [], {1})
    case 3 => Scene(1, [], [F(R.Parking(false, false), 1, true, false, false), OUT], map[], 1, 1, 0, [], [], {})
    case 4 => Scene(0, [], [F(R.Inside(false, false), 1, true, false, true), OUT], map[], 1, 2, 0, [], [], {0})
    case 5 => Scene(0, [], [MARKED, OUT], map[], 1, 2, 0, [], [], {0})
    case 6 => Scene(1, [], [MARKED, OUT], map[], 2, 2, 0, [], [], {})
    case _ => Scene(0, [], [MARKED, OUT], map[], 2, 2, 1, [], [], {})
  }

  function LostStep(i: nat): Step {
    match i
    case 0 => Lock(1)
    case 1 => Lock(0)
    case 2 => Unlock(1)
    case 3 => Do(R.SwapOut(0))
    case 4 => Do(R.Resume(0))
    case 5 => Unlock(0)
    case _ => Do(R.Yield(0))
  }

  lemma LostGrant(i: nat)
    requires i < 4
    ensures StepsTo(Lost(i), LostStep(i), Lost(i + 1))
  {
  }

  lemma LostYield(i: nat)
    requires 4 <= i < 7
    ensures StepsTo(Lost(i), LostStep(i), Lost(i + 1))
  {
  }

  lemma LostRun()
    ensures Reachable(Lost(7))
  {
    var ss, steps := seq(8, i requires 0 <= i < 8 => Lost(i)), seq(7, i requires 0 <= i < 7 => LostStep(i));
    forall i | 0 <= i < 7 ensures StepsTo(ss[i], steps[i], ss[i + 1]) {
      if i < 4 { LostGrant(i); } else { LostYield(i); }
    }
    assert Init(Lost(0));
    assert Run(ss, steps) && ss[|steps|] == Lost(7);
  }

  // Nobody has the lock, nobody can get it, and every fiber is free.
  predicate Stuck(s: State) {
    s.b.gate.wakeup == 0 && s.holders == {}
  }

  // The only careless step is the yield.
  lemma LostCareless(i: nat)
    requires i <= 6
    ensures Careful(Lost(i), LostStep(i)) <==> i < 6
  {
  }

  lemma LockIsLost()
    ensures exists s :: Reachable(s) && Stuck(s) && forall f :: f in s.b.fibers ==> s.b.Free(f)
  {
    LostRun();
    var s := Lost(7);
    assert Stuck(s) && forall f :: f in s.b.fibers ==> s.b.Free(f);
  }

  // And so it stays, whatever any fiber or thread does.
  lemma StuckForGood(s: State, a: Step)
    requires Stuck(s) && Enabled(s, a)
    ensures Stuck(Apply(s, a)) && forall f :: !Enabled(Apply(s, a), Unlock(f))
  {
  }
}
