/**
 * The fiber mutex: a blocker that starts with one token and holds at most one.
 */
module Mutex {
  import opened RunQueue
  import B = Blocker
  import R = BlockerRuns

  class EFiberMutex {
    const blocker: B.EFiberBlocker

    constructor ()
      ensures fresh(blocker) && blocker.Value() == B.Gate(1, 1, [])
    {
      blocker := new B.EFiberBlocker(1, 1);
    }

    // `lock` and the timed `tryLock` up to the yield.
    method BeginLock(fiber: Fiber) returns (done: bool)
      modifies blocker, fiber
      ensures (blocker.Value(), done) == old(blocker.Value()).Take()
      ensures if done then unchanged(fiber) else fiber.state == BLOCKED && fiber.blocker == blocker
    {
      done := blocker.BeginWait(fiber);
    }

    method TryLock() returns (ok: bool)
      modifies blocker
      ensures (blocker.Value(), ok) == old(blocker.Value()).Take()
    {
      ok := blocker.TryWait();
    }

    method Unlock()
      requires blocker.waitQueue != [] && blocker.waitQueue[0].IsHung() ==> blocker.waitQueue[0].CanResume()
      modifies blocker, blocker.WakeFrame()
      ensures blocker.Value() == old(blocker.Value()).WakeUp().0
      ensures var w := old(blocker.Value()).WakeUp().1;
              w.Handed? ==>
                !w.fiber.IsHung() &&
                (old(blocker.waitQueue[0].IsHung()) ==>
                   w.fiber.boundQueue == old(blocker.waitQueue[0].boundQueue) && w.fiber.boundQueue != null
                   && w.fiber.boundQueue.fibers == old(blocker.waitQueue[0].boundQueue.fibers) + [w.fiber])
    {
      var _ := blocker.WakeUp();
    }

    method IsLocked() returns (b: bool)
      ensures b == (blocker.Value().wakeup == 0)
    {
      var waking := blocker.IsWaking();
      b := !waking;
    }
  }

  type Fid = R.Fid

  // The blocker of a mutex in a run, with the fibers that have been granted the
  // lock and have not released it.  A fiber handed the lock counts from the
  // hand-over, before it runs again.
  datatype State = State(b: R.State, holders: set<Fid>)

  // An unlock is a wake-up by the fiber's own thread; everything else is a step
  // of the blocker.
  datatype Step = Unlock(f: Fid) | Do(a: R.Step)

  function Lock(f: Fid): Step {
    Do(R.EnterWait(f, false, false))
  }

  function TimedLock(f: Fid, timer: bool): Step {
    Do(R.EnterWait(f, true, timer))
  }

  function TryLock(f: Fid): Step {
    Do(R.TryWait(f))
  }

  predicate Init(s: State) {
    R.Init(s.b) && s.b.gate == B.Gate(1, 1, []) && s.holders == {}
  }

  // A fiber does nothing else while its thread is inside `unlock`.
  predicate Undisturbed(s: State, a: R.Step) {
    a.EnterWait? || a.TryWait? || a.Resume? || a.Yield? || a.Elsewhere? ==> a.f !in s.b.hands
  }

  // Only a running fiber that holds the lock unlocks it.
  predicate Enabled(s: State, a: Step) {
    match a
    case Unlock(f) => R.Enabled(s.b, R.Pop(f)) && f in s.holders && s.b.Free(f)
    case Do(c) => R.Enabled(s.b, c) && !c.Pop? && Undisturbed(s, c)
  }

  function DoUnlock(s: State, f: Fid): State {
    var w := s.b.gate.WakeUp().1;
    State(R.DoPop(s.b, f), s.holders - {f} + if w.Handed? then {w.fiber} else {})
  }

  function Apply(s: State, a: Step): State
    requires Enabled(s, a)
  {
    match a
    case Unlock(f) => DoUnlock(s, f)
    case Do(c) =>
      var b' := R.Apply(s.b, c);
      State(b', s.holders + if b'.granted > s.b.granted && (c.EnterWait? || c.TryWait? || c.SwapOut?) then {c.f} else {})
  }

  ghost predicate Careful(s: State, a: Step) {
    a.Do? ==> R.Careful(s.b, a.a)
  }

  predicate OneToken(s: State) {
    s.b.gate.wakeup + |s.holders| == 1 && s.b.gate.limit == 1
  }

  ghost predicate TokenHolds(s: State, f: Fid) {
    s.b.Of(f).token ==> f in s.holders
  }

  ghost predicate Inv(s: State) {
    R.Inv(s.b) && OneToken(s) && forall f {:trigger TokenHolds(s, f)} :: TokenHolds(s, f)
  }

  lemma Single(s: set<Fid>, f: Fid)
    requires |s| <= 1 && f in s
    ensures s == {f}
  {
    assert |s - {f}| == 0;
  }

  lemma UnlockKeeps(s: State, f: Fid)
    requires Inv(s) && Enabled(s, Unlock(f))
    ensures Inv(DoUnlock(s, f)) && !s.b.gate.WakeUp().1.Refused?
    ensures DoUnlock(s, f).holders == if s.b.gate.line == [] then {} else {s.b.gate.line[0]}
  {
    var t := DoUnlock(s, f);
    Single(s.holders, f);
    R.PopKeeps(s.b, f);
    if s.b.gate.line != [] {
      assert R.LineAt(s.b, 0);
    }
    forall g: nat ensures TokenHolds(t, g) {
      assert TokenHolds(s, g) && R.FiberOk(s.b, g) && R.FiberOk(s.b, f);
    }
  }

  lemma GrantKeeps(s: State, c: R.Step)
    requires Inv(s) && Enabled(s, Do(c)) && R.Careful(s.b, c)
    ensures OneToken(Apply(s, Do(c)))
    ensures forall g {:trigger TokenHolds(Apply(s, Do(c)), g)} :: TokenHolds(Apply(s, Do(c)), g)
  {
    var t := Apply(s, Do(c));
    if s.b.gate.wakeup == 1 {
      assert s.holders == {};
    }
    forall g: nat ensures TokenHolds(t, g) { assert TokenHolds(s, g); }
  }

  lemma StepKeepsIff(s: State, a: Step)
    requires Inv(s) && Enabled(s, a)
    ensures Inv(Apply(s, a)) <==> Careful(s, a)
  {
    match a
    case Unlock(f) => UnlockKeeps(s, f);
    case Do(c) =>
      R.StepKeepsIff(s.b, c);
      if R.Careful(s.b, c) {
        GrantKeeps(s, c);
      }
  }

  ghost predicate StepsTo(s: State, a: Step, t: State) {
    Enabled(s, a) && t == Apply(s, a)
  }

  ghost predicate Run(ss: seq<State>, steps: seq<Step>) {
    && |ss| == |steps| + 1 && Init(ss[0])
    && forall i {:trigger steps[i]} :: 0 <= i < |steps| ==> StepsTo(ss[i], steps[i], ss[i + 1])
  }

  ghost predicate CarefulRun(ss: seq<State>, steps: seq<Step>) {
    Run(ss, steps) && forall i {:trigger steps[i]} :: 0 <= i < |steps| ==> Careful(ss[i], steps[i])
  }

  ghost predicate Reachable(s: State) {
    exists ss, steps {:trigger Run(ss, steps)} :: Run(ss, steps) && ss[|steps|] == s
  }

  ghost predicate CarefullyReachable(s: State) {
    exists ss, steps {:trigger CarefulRun(ss, steps)} :: CarefulRun(ss, steps) && ss[|steps|] == s
  }

  lemma InitInv(s: State)
    requires Init(s)
    ensures Inv(s)
  {
    R.InitInv(s.b);
    forall f: nat ensures TokenHolds(s, f) {}
  }

  lemma {:induction false} RunKeeps(ss: seq<State>, steps: seq<Step>, n: nat)
    requires CarefulRun(ss, steps) && n <= |steps|
    ensures Inv(ss[n])
  {
    if n == 0 {
      InitInv(ss[0]);
    } else {
      RunKeeps(ss, steps, n - 1);
      assert StepsTo(ss[n - 1], steps[n - 1], ss[n]) && Careful(ss[n - 1], steps[n - 1]);
      StepKeepsIff(ss[n - 1], steps[n - 1]);
    }
  }

  lemma CarefulInv(s: State)
    requires CarefullyReachable(s)
    ensures Inv(s)
  {
    var ss, steps :| CarefulRun(ss, steps) && ss[|steps|] == s;
    RunKeeps(ss, steps, |steps|);
  }

  // The lock changes hands only so: a lock call that finds the token free, or is
  // given it at the swap-out, makes its fiber a holder; an unlock takes it from
  // its fiber and gives it to the first in line, or sets the token free.
  lemma HoldersAre(s: State, a: Step)
    requires Enabled(s, a)
    ensures var t := Apply(s, a);
            && (a.Unlock? && s.b.gate.line == [] ==> t.holders == s.holders - {a.f})
            && (a.Unlock? && s.b.gate.line != [] ==> t.holders == s.holders - {a.f} + {s.b.gate.line[0]})
            && (a.Do? && R.Grants(s.b, a.a) ==> t.holders == s.holders + {a.a.f})
            && (a.Do? && !R.Grants(s.b, a.a) ==> t.holders == s.holders)
  {
    if a.Do? { R.RecordIsTrue(s.b, a.a); }
  }

  // Mutual exclusion over every careful run mixing all the ways to lock: at most
  // one fiber holds the lock, a fiber granted it in its sleep included, and the
  // mutex reports itself locked exactly when one does.
  lemma Exclusion(s: State, f: Fid, g: Fid)
    requires CarefullyReachable(s)
    ensures f in s.holders && g in s.holders ==> f == g
    ensures s.b.gate.wakeup == 0 <==> s.holders != {}
    ensures s.b.Of(f).token ==> s.holders == {f}
  {
    CarefulInv(s);
    assert TokenHolds(s, f);
    if f in s.holders { Single(s.holders, f); }
    if g in s.holders { Single(s.holders, g); }
  }

  // A lock call that comes back from its sleep with true comes back to the one
  // holder, and one that comes back with false does not.
  lemma ReturnsToHolder(s: State, f: Fid)
    requires CarefullyReachable(s) && R.Enabled(s.b, R.Resume(f))
    ensures if R.ResumeResult(s.b, f) then s.holders == {f} else !s.b.Of(f).token
  {
    CarefulInv(s);
    assert R.FiberOk(s.b, f) && TokenHolds(s, f);
    R.ResumeIs(s.b, f);
    if f in s.holders { Single(s.holders, f); }
  }

  // An unlock by the holder is never refused: the token goes back or straight
  // to the first fiber in line.
  lemma UnlockSucceeds(s: State, f: Fid)
    requires CarefullyReachable(s) && Enabled(s, Unlock(f))
    ensures !s.b.gate.WakeUp().1.Refused?
    ensures Apply(s, Unlock(f)).holders == if s.b.gate.line == [] then {} else {s.b.gate.line[0]}
  {
    CarefulInv(s);
    UnlockKeeps(s, f);
  }

  // --- without timers, and with swap-outs that park ---

  // The blocker's part of a step.
  function BlockerStep(a: Step): R.Step {
    match a
    case Unlock(f) => R.Pop(f)
    case Do(c) => c
  }

  lemma StepOfBlocker(s: State, a: Step)
    requires Enabled(s, a)
    ensures R.StepsTo(s.b, BlockerStep(a), Apply(s, a).b)
  {
  }

  // The blocker of a mutex runs as a blocker does.
  lemma RunOfBlocker(ss: seq<State>, steps: seq<Step>)
    requires Run(ss, steps)
    ensures R.Run(seq(|ss|, i requires 0 <= i < |ss| => ss[i].b), seq(|steps|, i requires 0 <= i < |steps| => BlockerStep(steps[i])))
  {
    forall i | 0 <= i < |steps| ensures R.StepsTo(ss[i].b, BlockerStep(steps[i]), ss[i + 1].b) {
      assert StepsTo(ss[i], steps[i], ss[i + 1]);
      StepOfBlocker(ss[i], steps[i]);
    }
  }

  // So where no timer fires, no wake-up from elsewhere comes late, and no unlock
  // comes between a fiber's mark and its swap-out, as when all fibers share one
  // thread, every run is careful, and the lock excludes.
  lemma ParkingRunIsCareful(ss: seq<State>, steps: seq<Step>)
    requires Run(ss, steps)
    requires forall i {:trigger steps[i]} :: 0 <= i < |steps| ==> R.Parks(ss[i].b, BlockerStep(steps[i]))
    ensures CarefulRun(ss, steps)
  {
    RunOfBlocker(ss, steps);
    var bs := seq(|ss|, i requires 0 <= i < |ss| => ss[i].b);
    var cs := seq(|steps|, i requires 0 <= i < |steps| => BlockerStep(steps[i]));
    assert R.ParkingRun(bs, cs);
    R.ParkingRunIsCareful(bs, cs);
    forall i {:trigger steps[i]} | 0 <= i < |steps| ensures Careful(ss[i], steps[i]) {
      assert R.Careful(bs[i], cs[i]);
    }
  }
}
