/**
 * No wake-up is lost in `join(n)`: over every careful run a fiber that hangs is in
 * a line, has a timer or descriptors set up, or is being resumed by a worker.
 */
module WorkerWakes {
  import opened Base
  import opened Blocker
  import opened RunQueue
  import opened Workers
  import opened WorkerAffinity
  import opened WorkerRuns

  predicate Resumes(s: State, k: Wid, f: Fid) {
    k < |s.workers| && s.workers[k].pc in {WAKING, ADDING} && s.workers[k].other == f
  }

  ghost predicate InHand(s: State, f: Fid) {
    exists k {:trigger Resumes(s, k, f)} :: Resumes(s, k, f)
  }

  ghost predicate Awaited(s: State, f: Fid) {
    f in s.fibers && s.fibers[f].loc == Hung ==>
      || (s.fibers[f].gate.Some? && InLine(s, s.fibers[f].gate.value, f))
      || s.fibers[f].cont.timer || s.fibers[f].cont.fds || InHand(s, f)
  }

  ghost predicate AllAwaited(s: State) {
    forall f {:trigger Awaited(s, f)} :: Awaited(s, f)
  }

  // A fiber that is about to hang without a line has what will wake it.
  ghost predicate Sleeper(s: State, k: Wid) {
    k < |s.workers| && s.workers[k].pc == SWITCH && s.Of(s.workers[k].fiber).state == WAITING ==>
      s.Of(s.workers[k].fiber).cont.timer || s.Of(s.workers[k].fiber).cont.fds
  }

  ghost predicate SleepersOk(s: State) {
    forall k {:trigger Sleeper(s, k)} :: Sleeper(s, k)
  }

  // Workers go on resuming the fibers they are resuming.
  lemma SameHands(s: State, t: State, f: Fid)
    requires forall k: Wid {:trigger Resumes(s, k, f)} :: Resumes(s, k, f) ==> Resumes(t, k, f)
    requires InHand(s, f)
    ensures InHand(t, f)
  {
    var k :| Resumes(s, k, f);
    assert Resumes(t, k, f);
  }

  // A step by a worker that resumes nobody, before and after, at most about the
  // fiber it holds.
  lemma OwnStep(s: State, t: State, k: Wid, f: Fid)
    requires AllAwaited(s) && k < |s.workers| == |t.workers| && s.workers[k].pc !in {WAKING, ADDING}
    requires forall j :: 0 <= j < |s.workers| && j != k ==> t.workers[j] == s.workers[j]
    requires t.fibers == s.fibers || t.fibers == s.fibers[f := t.Of(f)]
    requires t.fibers != s.fibers ==> Awaited(t, f)
    requires forall b: Bid, g: Fid {:trigger InLine(s, b, g)} :: InLine(s, b, g) && (g != f || t.fibers == s.fibers) ==> InLine(t, b, g)
    ensures AllAwaited(t)
  {
    forall g: nat ensures Awaited(t, g) {
      assert Awaited(s, g);
      if InHand(s, g) { SameHands(s, t, g); }
    }
  }

  lemma WakeAwaited(s: State, k: Wid, b0: Bid)
    requires Inv(s) && AllAwaited(s) && Enabled(s, Wake(k, b0))
    ensures AllAwaited(DoWake(s, k, b0))
  {
    var t := DoWake(s, k, b0);
    forall g: nat ensures Awaited(t, g) {
      assert Awaited(s, g);
      if InHand(s, g) { SameHands(s, t, g); }
      if s.gates[b0].line != [] && g == s.gates[b0].line[0] {
        assert Resumes(t, k, g);
      } else if s.gates[b0].line != [] {
        assert s.gates[b0].line == [s.gates[b0].line[0]] + t.gates[b0].line;
      }
    }
  }

  lemma FireAwaited(s: State, k: Wid, f: Fid, timer: bool)
    requires AllAwaited(s) && Enabled(s, Fire(k, f, timer))
    ensures AllAwaited(DoFire(s, k, f, timer))
  {
    var t := DoFire(s, k, f, timer);
    assert Resumes(t, k, f);
    forall g: nat ensures Awaited(t, g) {
      assert Awaited(s, g);
      if InHand(s, g) { SameHands(s, t, g); }
      assert forall b: Bid {:trigger InLine(s, b, g)} :: InLine(s, b, g) ==> InLine(t, b, g);
    }
  }

  lemma CheckAwaited(s: State, k: Wid)
    requires Inv(s) && AllAwaited(s) && s.At(k, WAKING)
    ensures AllAwaited(DoCheck(s, k))
  {
    var t, f := DoCheck(s, k), s.workers[k].other;
    assert FiberOk(s, f);
    forall g: nat ensures Awaited(t, g) {
      assert Awaited(s, g) && FiberOk(s, g);
      assert forall b: Bid {:trigger InLine(s, b, g)} :: InLine(s, b, g) ==> InLine(t, b, g);
      if InHand(s, g) && (g != f || IsHung(s.Of(f).state)) { SameHands(s, t, g); }
    }
  }

  lemma AddAwaited(s: State, k: Wid)
    requires Inv(s) && AllAwaited(s) && s.At(k, ADDING)
    ensures AllAwaited(DoAdd(s, k))
  {
    var t, f := DoAdd(s, k), s.workers[k].other;
    assert HeldHere(s, k);
    forall g: nat ensures Awaited(t, g) {
      assert Awaited(s, g);
      assert forall b: Bid {:trigger InLine(s, b, g)} :: InLine(s, b, g) ==> InLine(t, b, g);
      if g != f && InHand(s, g) { SameHands(s, t, g); }
    }
  }

  lemma StartAwaited(s: State, k: Wid)
    requires Inv(s) && AllAwaited(s) && s.At(k, FOUND)
    ensures AllAwaited(DoStart(s, k))
  {
    var t, f := DoStart(s, k), s.workers[k].fiber;
    assert WorkerOk(s, k) && FiberOk(s, f);
    if TimesOut(s.Of(f)) && s.Of(f).cont.timed.value in s.gates {
      assert LineOk(s, s.Of(f).cont.timed.value);
      WithoutMembers(s.gates[s.Of(f).cont.timed.value].line, f);
    }
    OwnStep(s, t, k, f);
  }

  lemma PollAwaited(s: State, k: Wid)
    requires Inv(s) && AllAwaited(s) && s.At(k, POLL)
    ensures AllAwaited(DoPoll(s, k))
  {
    var t := DoPoll(s, k);
    assert forall b: Bid, g: Fid {:trigger InLine(s, b, g)} :: InLine(s, b, g) ==> InLine(t, b, g);
    OwnStep(s, t, k, if s.queues[k] == [] then 0 else s.queues[k][0]);
  }

  // The worker holds a fiber, a child or none.
  lemma HeldAwaited(s: State, a: Step)
    requires Inv(s) && AllAwaited(s) && Enabled(s, a)
    requires a.Count? || a.AddChild? || a.WaitOn? || a.Sleep? || a.End?
    ensures AllAwaited(Apply(s, a))
  {
    var f, t := if a.Count? then a.g else if a.AddChild? then s.workers[a.k].other else s.workers[a.k].fiber, Apply(s, a);
    assert WorkerOk(s, a.k);
    assert forall b: Bid, g: Fid {:trigger InLine(s, b, g)} :: InLine(s, b, g) ==> InLine(t, b, g);
    OwnStep(s, t, a.k, f);
  }

  lemma SwitchAwaited(s: State, k: Wid)
    requires Inv(s) && AllAwaited(s) && s.At(k, SWITCH) && SleepersOk(s)
    ensures AllAwaited(DoSwitch(s, k))
  {
    var t, f := DoSwitch(s, k), s.workers[k].fiber;
    assert WorkerOk(s, k) && FiberOk(s, f) && Sleeper(s, k);
    assert forall b: Bid, g: Fid {:trigger InLine(s, b, g)} :: InLine(s, b, g) ==> InLine(t, b, g);
    if s.Of(f).state == BLOCKED { assert InLine(t, s.Of(f).gate.value, f) <==> t.Of(f).loc == Hung || InLine(s, s.Of(f).gate.value, f); }
    OwnStep(s, t, k, f);
  }

  lemma MovesAwaited(s: State, a: Step)
    requires AllAwaited(s) && Enabled(s, a) && (a.ReadTotal? || a.EndIdle? || a.Yield? || a.TryWait?)
    ensures AllAwaited(Apply(s, a))
  {
    var t := Apply(s, a);
    assert forall b: Bid, g: Fid {:trigger InLine(s, b, g)} :: InLine(s, b, g) ==> InLine(t, b, g);
    OwnStep(s, t, a.k, 0);
  }

  // A step changes no fiber that another worker holds.
  lemma HeldStays(s: State, a: Step, j: Wid)
    requires Inv(s) && Enabled(s, a) && j < |s.workers| && j != a.k && s.workers[j].pc == SWITCH
    ensures Apply(s, a).workers[j] == s.workers[j] && Apply(s, a).Of(s.workers[j].fiber) == s.Of(s.workers[j].fiber)
  {
    assert WorkerOk(s, j) && HeldHere(s, j);
    if a.Poll? {
      if s.queues[a.k] != [] { assert s.queues[a.k][0] in s.queues[a.k] && InQueue(s, a.k, s.queues[a.k][0]); }
    }
    else if a.Fire? || a.Count? || a.ReadTotal? || a.EndIdle? || a.Wake? || a.Check? || a.TryWait? {}
    else { OtherHeldStays(s, a, j); }
  }

  lemma OtherHeldStays(s: State, a: Step, j: Wid)
    requires Inv(s) && Enabled(s, a) && j < |s.workers| && j != a.k && s.workers[j].pc == SWITCH
    requires a.Start? || a.AddChild? || a.Add? || a.WaitOn? || a.Sleep? || a.Yield? || a.End? || a.Switch?
    ensures Apply(s, a).workers[j] == s.workers[j] && Apply(s, a).Of(s.workers[j].fiber) == s.Of(s.workers[j].fiber)
  {
    assert WorkerOk(s, j) && WorkerOk(s, a.k);
  }

  lemma SleepersStay(s: State, a: Step)
    requires Inv(s) && SleepersOk(s) && Enabled(s, a)
    ensures SleepersOk(Apply(s, a))
  {
    OwnSleeper(s, a);
    forall j: nat ensures Sleeper(Apply(s, a), j) {
      if j < |s.workers| && j != a.k { OtherSleeper(s, a, j); }
    }
  }

  lemma OwnSleeper(s: State, a: Step)
    requires Inv(s) && Enabled(s, a)
    ensures Sleeper(Apply(s, a), a.k) && |Apply(s, a).workers| == |s.workers|
  {
    assert WorkerOk(s, a.k) && HeldHere(s, a.k);
  }

  lemma OtherSleeper(s: State, a: Step, j: Wid)
    requires Inv(s) && SleepersOk(s) && Enabled(s, a) && j < |s.workers| && j != a.k
    ensures Sleeper(Apply(s, a), j)
  {
    assert Sleeper(s, j);
    if s.workers[j].pc == SWITCH { HeldStays(s, a, j); }
  }

  lemma StepAwaited(s: State, a: Step)
    requires Inv(s) && AllAwaited(s) && SleepersOk(s) && Enabled(s, a)
    ensures AllAwaited(Apply(s, a))
  {
    match a
    case Poll(k) => PollAwaited(s, k);
    case Fire(k, f, timer) => FireAwaited(s, k, f, timer);
    case Start(k) => StartAwaited(s, k);
    case Wake(k, b) => WakeAwaited(s, k, b);
    case Check(k) => CheckAwaited(s, k);
    case Add(k) => AddAwaited(s, k);
    case Switch(k) => SwitchAwaited(s, k);
    case Count(_, _, _) => HeldAwaited(s, a);
    case AddChild(_) => HeldAwaited(s, a);
    case WaitOn(_, _, _, _) => HeldAwaited(s, a);
    case Sleep(_, _, _) => HeldAwaited(s, a);
    case End(_) => HeldAwaited(s, a);
    case _ => MovesAwaited(s, a);
  }

  lemma InitAwaited(s: State)
    requires Init(s)
    ensures AllAwaited(s) && SleepersOk(s)
  {
    forall f: nat ensures Awaited(s, f) {}
    forall k: nat ensures Sleeper(s, k) {}
  }

  lemma {:induction false} RunAwaited(ss: seq<State>, steps: seq<Step>, n: nat)
    requires CarefulRun(ss, steps) && n <= |steps|
    ensures Inv(ss[n]) && AllAwaited(ss[n]) && SleepersOk(ss[n])
  {
    RunKeeps(ss, steps, n);
    if n == 0 {
      InitAwaited(ss[0]);
    } else {
      RunAwaited(ss, steps, n - 1);
      NextAwaited(ss, steps, n - 1);
    }
  }

  lemma NextAwaited(ss: seq<State>, steps: seq<Step>, m: nat)
    requires CarefulRun(ss, steps) && m < |steps| && Inv(ss[m]) && AllAwaited(ss[m]) && SleepersOk(ss[m])
    ensures AllAwaited(ss[m + 1]) && SleepersOk(ss[m + 1])
  {
    assert StepsTo(ss[m], steps[m], ss[m + 1]);
    StepAwaited(ss[m], steps[m]);
    SleepersStay(ss[m], steps[m]);
  }

  // Nobody is forgotten: a fiber that hangs has something to come that resumes
  // it, or is being resumed.
  lemma NobodyIsForgotten(s: State, f: Fid)
    requires CarefullyReachable(s) && f in s.fibers && s.fibers[f].loc == Hung
    ensures || (exists b :: b in s.gates && f in s.gates[b].line)
            || s.fibers[f].cont.timer || s.fibers[f].cont.fds
            || (exists k :: 0 <= k < |s.workers| && s.workers[k].pc in {WAKING, ADDING} && s.workers[k].other == f)
  {
    var ss, steps :| CarefulRun(ss, steps) && ss[|steps|] == s;
    RunAwaited(ss, steps, |steps|);
    assert Awaited(s, f);
    if InHand(s, f) { var k :| Resumes(s, k, f); }
  }
}
