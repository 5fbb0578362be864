/**
 * What a token granted at the swap-out leaves behind when fibers run on several
 * workers: the fiber is queued again without its state being reset.
 */
module YieldAfterGrant {
  import opened Base
  import opened Blocker
  import opened RunQueue
  import opened Workers
  import opened WorkerRuns

  // The fiber's blocker has a token.
  predicate HasToken(s: State, f: Fid) {
    f in s.fibers && s.fibers[f].gate.Some? && s.GateOf(s.fibers[f].gate.value).wakeup > 0
  }

  function OldGate(s: State, f: Fid): Gate<Fid> {
    s.GateOf(if s.Of(f).gate.Some? then s.Of(f).gate.value else 0)
  }

  // A fiber granted a token by the scheduler instead of being parked goes back
  // to the queue still marked BLOCKED.
  lemma GrantLeavesBlocked(s: State, k: Wid)
    requires Inv(s) && s.At(k, SWITCH) && s.Of(s.workers[k].fiber).state == BLOCKED
    ensures var f := s.workers[k].fiber;
            var t := DoSwitch(s, k);
            && t.Of(f).state == BLOCKED
            && if HasToken(s, f) then
                 t.Of(f).loc == Queued(k) && t.queues[k] == s.queues[k] + [f]
                 && OldGate(t, f) == OldGate(s, f).(wakeup := OldGate(s, f).wakeup - 1)
               else t.Of(f).loc == Hung && t.queues == s.queues && OldGate(t, f).line == OldGate(s, f).line + [f]
  {
    assert WorkerOk(s, k) && FiberOk(s, s.workers[k].fiber);
  }

  // So a plain yield is what its caller means, back to the queue and nothing
  // else, if and only if the fiber is not left marked.  Of a marked one it takes
  // a token that nobody waited for, or else parks it on its old blocker.
  lemma YieldIsPlainIff(s: State, k: Wid)
    requires Inv(s) && s.At(k, RUNNING)
    ensures var f := s.workers[k].fiber;
            var t := DoSwitch(Goto(s, k, SWITCH), k);
            && (t.Of(f).loc == Queued(k) && t.gates == s.gates <==> s.Of(f).state == RUNNABLE)
            && (t.Of(f).loc == Queued(k) <==> s.Of(f).state == RUNNABLE || HasToken(s, f))
            && (s.Of(f).state != RUNNABLE && HasToken(s, f) ==>
                  OldGate(t, f) == OldGate(s, f).(wakeup := OldGate(s, f).wakeup - 1))
            && (s.Of(f).state != RUNNABLE && !HasToken(s, f) ==> OldGate(t, f).line == OldGate(s, f).line + [f])
  {
    var f, d := s.workers[k].fiber, Goto(s, k, SWITCH);
    assert WorkerOk(s, k) && FiberOk(s, f);
    if s.Of(f).state == RUNNABLE {
      assert DoSwitch(d, k).gates == s.gates;
    } else if HasToken(s, f) {
      assert DoSwitch(d, k).gates[s.Of(f).gate.value].wakeup != s.gates[s.Of(f).gate.value].wakeup;
    }
  }

  lemma RunOn(ss: seq<State>, steps: seq<Step>, a: Step)
    requires Run(ss, steps) && Enabled(ss[|steps|], a)
    ensures Run(ss + [Apply(ss[|steps|], a)], steps + [a])
  {
    var ss', steps' := ss + [Apply(ss[|steps|], a)], steps + [a];
    forall i {:trigger steps'[i]} | 0 <= i < |steps'| ensures StepsTo(ss'[i], steps'[i], ss'[i + 1]) {
      if i < |steps| {
        assert steps'[i] == steps[i];
      }
    }
  }

  lemma ReachableOn(s: State, a: Step)
    requires Reachable(s) && Enabled(s, a)
    ensures Reachable(Apply(s, a))
  {
    var ss, steps :| Run(ss, steps) && ss[|steps|] == s;
    RunOn(ss, steps, a);
    assert (ss + [Apply(s, a)])[|steps + [a]|] == Apply(s, a);
  }

  function Dispatch(s: State, k: Wid): State
    requires s.At(k, READ) && s.queues[k] != []
  {
    DoStart(DoPoll(DoReadTotal(s, k), k), k)
  }

  lemma DispatchReachable(s: State, k: Wid)
    requires Reachable(s) && s.At(k, READ) && s.queues[k] != []
    ensures Reachable(Dispatch(s, k))
  {
    ReachableOn(s, ReadTotal(k));
    var s1 := DoReadTotal(s, k);
    ReachableOn(s1, Poll(k));
    ReachableOn(DoPoll(s1, k), Start(k));
  }

  // The fiber has nothing set up for a wait, and has not ended.
  predicate Ordinary(s: State, f: Fid) {
    s.Of(f).state != TERMINATED && s.Of(f).cont == PLAIN
  }

  lemma DispatchIs(s: State, k: Wid)
    requires s.At(k, READ) && s.queues[k] != [] && Ordinary(s, s.queues[k][0])
    ensures var t, f := Dispatch(s, k), s.queues[k][0];
            && t.gates == s.gates && t.queues == s.queues[k := s.queues[k][1..]]
            && t.workers == s.workers[k := s.workers[k].(pc := RUNNING, total := s.total, fiber := f)]
            && t.Of(f).state == s.Of(f).state && t.Of(f).gate == s.Of(f).gate
            && (forall g: nat :: g != f ==> t.Of(g) == s.Of(g))
  {
  }

  // Fiber `f` has marked itself BLOCKED, and worker 0 has yet to park it.
  predicate Marked(s: State, b: Bid, f: Fid, tokens: nat) {
    && s.At(0, SWITCH) && s.workers[0].fiber == f && s.queues[0] == []
    && s.Of(f).state == BLOCKED && s.Of(f).gate == Some(b) && Ordinary(s, f) && b in s.gates
    && s.gates[b].wakeup == tokens && s.gates[b].limit > 0 && s.gates[b].line == []
  }

  predicate OtherReady(s: State, f: Fid) {
    s.At(1, READ) && s.queues[1] != [] && s.queues[1][0] != f && Ordinary(s, s.queues[1][0])
  }

  lemma InitReachable(s: State)
    requires Init(s)
    ensures Reachable(s)
  {
    assert Run([s], []);
  }

  lemma StartsReachable(s: State)
    requires Init(s) && |s.workers| >= 2 && s.queues[0] != [] && s.queues[1] != []
    ensures Reachable(s) && s.At(0, READ) && OtherReady(s, s.queues[0][0]) && Ordinary(s, s.queues[0][0])
  {
    InitReachable(s);
    InitInv(s);
    assert InQueue(s, 0, s.queues[0][0]) && InQueue(s, 1, s.queues[1][0]);
    assert s.queues[0][0] in s.queues[0] && s.queues[1][0] in s.queues[1];
  }

  lemma FirstMarks(s: State, b: Bid, f: Fid)
    requires s.At(0, READ) && s.queues[0] == [f] && OtherReady(s, f) && Ordinary(s, f)
    requires b in s.gates && s.gates[b].wakeup == 0 && s.gates[b].limit > 0 && s.gates[b].line == []
    ensures var d := Dispatch(s, 0);
            Enabled(d, WaitOn(0, b, false, false)) && Marked(DoWaitOn(d, 0, b, false, false), b, f, 0) && OtherReady(DoWaitOn(d, 0, b, false, false), f)
  {
    DispatchIs(s, 0);
  }

  lemma SecondWakes(s: State, b: Bid, f: Fid)
    requires Marked(s, b, f, 0) && OtherReady(s, f)
    ensures var d := Dispatch(s, 1); Enabled(d, Wake(1, b)) && Marked(DoWake(d, 1, b), b, f, 1)
  {
    DispatchIs(s, 1);
  }

  lemma FirstIsGranted(s: State, b: Bid, f: Fid)
    requires Marked(s, b, f, 1)
    ensures var d := DoSwitch(s, 0);
            && d.At(0, READ) && d.queues[0] == [f] && d.Of(f).state == BLOCKED && d.Of(f).gate == Some(b) && Ordinary(d, f)
            && b in d.gates && d.gates[b].wakeup == 0
  {
  }

  // A running fiber that a yield would park.
  ghost predicate WouldPark(s: State, b: Bid, f: Fid) {
    && Reachable(s) && s.At(0, RUNNING) && s.workers[0].fiber == f
    && InLine(DoSwitch(Goto(s, 0, SWITCH), 0), b, f)
  }

  lemma AgainParks(d: State, b: Bid, f: Fid)
    requires d.At(0, READ) && d.queues[0] == [f] && d.Of(f).state == BLOCKED && d.Of(f).gate == Some(b) && Ordinary(d, f)
    requires b in d.gates && d.gates[b].wakeup == 0
    ensures var t := Dispatch(d, 0);
            t.At(0, RUNNING) && t.workers[0].fiber == f && InLine(DoSwitch(Goto(t, 0, SWITCH), 0), b, f)
  {
    DispatchIs(d, 0);
  }

  lemma FirstRunsAgain(s: State, b: Bid, f: Fid)
    requires Reachable(s) && Marked(s, b, f, 1)
    ensures exists t :: WouldPark(t, b, f)
  {
    ReachableOn(s, Switch(0));
    FirstIsGranted(s, b, f);
    AgainParks(DoSwitch(s, 0), b, f);
    DispatchReachable(DoSwitch(s, 0), 0);
    assert WouldPark(Dispatch(DoSwitch(s, 0), 0), b, f);
  }

  // From every start with two fibers on two workers there is a run in which a
  // fiber that only yields is parked, on a blocker it no longer waits for.
  lemma YieldCanPark(s: State, b: Bid, f: Fid)
    requires Init(s) && |s.workers| >= 2 && s.queues[0] == [f] && s.queues[1] != []
    requires b in s.gates && s.gates[b].wakeup == 0 && s.gates[b].limit > 0
    ensures exists t :: WouldPark(t, b, f)
  {
    StartsReachable(s);
    FirstMarks(s, b, f);
    DispatchReachable(s, 0);
    ReachableOn(Dispatch(s, 0), WaitOn(0, b, false, false));
    var s1 := DoWaitOn(Dispatch(s, 0), 0, b, false, false);
    SecondWakes(s1, b, f);
    DispatchReachable(s1, 1);
    ReachableOn(Dispatch(s1, 1), Wake(1, b));
    FirstRunsAgain(DoWake(Dispatch(s1, 1), 1, b), b, f);
  }
}
