/**
 * `join(n)` when no fiber waits on a blocker with a timeout: sleeps, descriptors
 * and plain waits.  Every resumption is then in time, so no worker leaves early.
 */
module UntimedRuns {
  import opened Base
  import opened RunQueue
  import opened Workers
  import opened WorkerAffinity
  import opened WorkerRuns

  predicate Untimed(a: Step) {
    a.WaitOn? ==> !a.timed
  }

  // A fiber on a worker's thread is the one that worker holds, and only sleepers
  // and those just woken have a timer or descriptors.
  ghost predicate PlainFiber(s: State, f: Fid) {
    f in s.fibers ==>
      var x := s.fibers[f];
      && x.cont.timed.None?
      && (x.cont != PLAIN ==> x.state in {WAITING, RUNNABLE})
      && (x.loc.OnThread? ==> x.loc.k < |s.workers| && Holds(s.workers[x.loc.k]) && s.workers[x.loc.k].fiber == f)
  }

  predicate Resumes(s: State, k: Wid) {
    k < |s.workers| && s.workers[k].pc in {WAKING, ADDING}
  }

  // A fiber taken from a line hangs until its waker queues it; an event is for
  // a fiber of the worker's own.
  ghost predicate PlainWaker(s: State, k: Wid) {
    Resumes(s, k) ==>
      var f := s.workers[k].other;
      if s.workers[k].back == RUNNING then
        && s.Of(f).loc == Hung && s.Of(f).state == BLOCKED
        && forall b: Bid {:trigger InLine(s, b, f)} :: !InLine(s, b, f)
      else s.Of(f).bound == Some(k) && s.Of(f).state in {WAITING, RUNNABLE}
  }

  ghost predicate WakeOnce(s: State, j: Wid, k: Wid) {
    Resumes(s, j) && Resumes(s, k) && s.workers[j].back == RUNNING == s.workers[k].back && s.workers[j].other == s.workers[k].other ==> j == k
  }

  ghost predicate Plain(s: State) {
    && (forall f {:trigger PlainFiber(s, f)} :: PlainFiber(s, f))
    && (forall k {:trigger PlainWaker(s, k)} :: PlainWaker(s, k))
    && (forall j, k {:trigger WakeOnce(s, j, k)} :: WakeOnce(s, j, k))
  }

  // Worker `k` moves on and at most one fiber changes, which is its own.
  lemma OwnStep(s: State, t: State, k: Wid, f: Fid)
    requires Inv(s) && Plain(s) && k < |s.workers| == |t.workers| && !Resumes(t, k)
    requires forall j :: 0 <= j < |s.workers| && j != k ==> t.workers[j] == s.workers[j]
    requires t.fibers == s.fibers || t.fibers == s.fibers[f := t.Of(f)]
    requires t.fibers != s.fibers && f in s.fibers ==> s.fibers[f].loc != Hung && BoundTo(s.fibers[f], k)
    requires Holds(s.workers[k]) && (s.workers[k].fiber != f || t.fibers == s.fibers) ==>
               Holds(t.workers[k]) && t.workers[k].fiber == s.workers[k].fiber
    requires PlainFiber(t, f)
    requires forall b: Bid, g: Fid {:trigger InLine(t, b, g)} :: InLine(t, b, g) ==> InLine(s, b, g) || (g == f && t.fibers != s.fibers && f in s.fibers)
    ensures Plain(t)
  {
    forall g: nat ensures PlainFiber(t, g) { assert PlainFiber(s, g); }
    forall j: nat ensures PlainWaker(t, j) { assert PlainWaker(s, j); }
    forall i: nat, j: nat ensures WakeOnce(t, i, j) { assert WakeOnce(s, i, j); }
  }

  lemma FirePlain(s: State, k: Wid, f: Fid, timer: bool)
    requires Inv(s) && Plain(s) && Enabled(s, Fire(k, f, timer))
    ensures Plain(DoFire(s, k, f, timer))
  {
    var t := DoFire(s, k, f, timer);
    assert PlainFiber(s, f);
    assert forall b: Bid, h: Fid {:trigger InLine(t, b, h)} :: InLine(t, b, h) ==> InLine(s, b, h);
    forall g: nat ensures PlainFiber(t, g) { assert PlainFiber(s, g); }
    forall j: nat ensures PlainWaker(t, j) { assert PlainWaker(s, j); }
    forall i: nat, j: nat ensures WakeOnce(t, i, j) { assert WakeOnce(s, i, j); }
  }

  lemma WakePlain(s: State, k: Wid, b0: Bid)
    requires Inv(s) && Plain(s) && s.At(k, RUNNING) && b0 in s.gates && s.gates[b0].line != []
    ensures Plain(DoWake(s, k, b0))
  {
    var f, t := s.gates[b0].line[0], DoWake(s, k, b0);
    assert LineOk(s, b0) && InLine(s, b0, f) && InLineOk(s, b0, f) && PlainFiber(s, f);
    forall b: Bid, h: Fid {:trigger InLine(t, b, h)} | InLine(t, b, h) ensures InLine(s, b, h) && h != f {
      assert InLineOk(s, b, h) && InLine(s, b, h);
    }
    forall g: nat ensures PlainFiber(t, g) { assert PlainFiber(s, g); }
    forall j: nat ensures PlainWaker(t, j) { assert PlainWaker(s, j); }
    forall i: nat, j: nat ensures WakeOnce(t, i, j) { assert WakeOnce(s, i, j) && PlainWaker(s, i) && PlainWaker(s, j); }
  }

  lemma CheckInTime(s: State, k: Wid)
    requires Inv(s) && Plain(s) && s.At(k, WAKING)
    ensures InTime(s, s.workers[k].other)
  {
    var f := s.workers[k].other;
    assert PlainWaker(s, k) && PlainFiber(s, f) && FiberOk(s, f) && HeldHere(s, k) && WorkerOk(s, k);
    var on := match s.Of(f).loc case OnThread(j) => j case _ => k;
    assert HeldHere(s, on) && WorkerOk(s, on);
    if IsHung(s.Of(f).state) {
      forall j: nat ensures !AddedBy(s, j, f) { assert PlainWaker(s, j) && WakeOnce(s, j, k) && HeldHere(s, j); }
      forall b: Bid {:trigger InLine(s, b, f)} | InLine(s, b, f) ensures s.Of(f).flag && s.Of(f).cont.timed == Some(b) {
        assert InLineOk(s, b, f);
      }
    }
  }

  lemma CheckPlain(s: State, k: Wid)
    requires Inv(s) && Plain(s) && s.At(k, WAKING)
    ensures Plain(DoCheck(s, k))
  {
    var t := DoCheck(s, k);
    assert HeldHere(s, k);
    assert forall b: Bid, h: Fid {:trigger InLine(t, b, h)} :: InLine(t, b, h) ==> InLine(s, b, h);
    forall g: nat ensures PlainFiber(t, g) { assert PlainFiber(s, g); }
    forall j: nat ensures PlainWaker(t, j) { assert PlainWaker(s, j); }
    forall i: nat, j: nat ensures WakeOnce(t, i, j) { assert WakeOnce(s, i, j); }
  }

  lemma AddPlain(s: State, k: Wid)
    requires Inv(s) && Plain(s) && s.At(k, ADDING)
    ensures Plain(DoAdd(s, k))
  {
    var f, t := s.workers[k].other, DoAdd(s, k);
    assert PlainWaker(s, k) && WorkerOk(s, k) && HeldHere(s, k) && OneHome(s, f);
    assert forall b: Bid, h: Fid {:trigger InLine(t, b, h)} :: InLine(t, b, h) ==> InLine(s, b, h);
    forall g: nat ensures PlainFiber(t, g) { assert PlainFiber(s, g); }
    forall j: nat ensures PlainWaker(t, j) { assert PlainWaker(s, j) && WakeOnce(s, j, k) && HeldHere(s, j); }
    forall i: nat, j: nat ensures WakeOnce(t, i, j) { assert WakeOnce(s, i, j); }
  }

  lemma PollPlain(s: State, k: Wid)
    requires Inv(s) && Plain(s) && s.At(k, POLL)
    ensures Plain(DoPoll(s, k))
  {
    var t := DoPoll(s, k);
    if s.queues[k] != [] {
      var f := s.queues[k][0];
      assert f in s.queues[k] && InQueue(s, k, f) && QueuedHere(s, k, f) && PlainFiber(s, f);
      assert forall b: Bid, h: Fid {:trigger InLine(t, b, h)} :: InLine(t, b, h) ==> InLine(s, b, h);
      OwnStep(s, t, k, f);
    } else {
      MovePlain(s, t, k);
    }
  }

  // Nothing but the worker itself and tokens change.
  lemma MovePlain(s: State, t: State, k: Wid)
    requires Inv(s) && Plain(s) && k < |s.workers| == |t.workers| && t.fibers == s.fibers && !Resumes(t, k)
    requires forall j :: 0 <= j < |s.workers| && j != k ==> t.workers[j] == s.workers[j]
    requires Holds(s.workers[k]) ==> Holds(t.workers[k]) && t.workers[k].fiber == s.workers[k].fiber
    requires t.gates.Keys == s.gates.Keys && forall b :: b in t.gates ==> t.gates[b].line == s.gates[b].line
    ensures Plain(t)
  {
    assert PlainFiber(s, 0);
    assert forall b: Bid, h: Fid {:trigger InLine(t, b, h)} :: InLine(t, b, h) ==> InLine(s, b, h);
    OwnStep(s, t, k, 0);
  }

  lemma StartPlain(s: State, k: Wid)
    requires Inv(s) && Plain(s) && s.At(k, FOUND)
    ensures Plain(DoStart(s, k))
  {
    var f, t := s.workers[k].fiber, DoStart(s, k);
    assert WorkerOk(s, k) && HeldHere(s, k) && PlainFiber(s, f);
    assert forall b: Bid, h: Fid {:trigger InLine(t, b, h)} :: InLine(t, b, h) ==> InLine(s, b, h);
    OwnStep(s, t, k, f);
  }

  lemma ChildPlain(s: State, a: Step)
    requires Inv(s) && Plain(s) && Enabled(s, a) && (a.Count? || a.AddChild?)
    ensures Plain(Apply(s, a))
  {
    var f, t := if a.Count? then a.g else s.workers[a.k].other, Apply(s, a);
    assert WorkerOk(s, a.k) && HeldHere(s, a.k) && PlainFiber(s, f);
    assert forall b: Bid, h: Fid {:trigger InLine(t, b, h)} :: InLine(t, b, h) ==> InLine(s, b, h);
    OwnStep(s, t, a.k, f);
  }

  // The running fiber waits, sleeps or ends.
  lemma MarkPlain(s: State, a: Step)
    requires Inv(s) && Plain(s) && Enabled(s, a) && Untimed(a) && (a.WaitOn? || a.Sleep? || a.End?)
    ensures Plain(Apply(s, a))
  {
    var f, t := s.workers[a.k].fiber, Apply(s, a);
    assert WorkerOk(s, a.k) && HeldHere(s, a.k) && PlainFiber(s, f);
    assert forall b: Bid, h: Fid {:trigger InLine(t, b, h)} :: InLine(t, b, h) ==> InLine(s, b, h);
    OwnStep(s, t, a.k, f);
  }

  lemma SwitchPlain(s: State, k: Wid)
    requires Inv(s) && Plain(s) && s.At(k, SWITCH)
    ensures Plain(DoSwitch(s, k))
  {
    var f, t := s.workers[k].fiber, DoSwitch(s, k);
    assert WorkerOk(s, k) && FiberOk(s, f) && HeldHere(s, k) && PlainFiber(s, f);
    assert forall b: Bid, h: Fid {:trigger InLine(t, b, h)} :: InLine(t, b, h) ==> InLine(s, b, h) || h == f;
    OwnStep(s, t, k, f);
  }

  lemma MovesPlain(s: State, a: Step)
    requires Inv(s) && Plain(s) && Enabled(s, a)
    requires a.ReadTotal? || a.EndIdle? || a.TryWait? || a.Yield? || (a.Wake? && s.gates[a.b].line == [])
    ensures Plain(Apply(s, a))
  {
    MovePlain(s, Apply(s, a), a.k);
  }

  lemma StepPlain(s: State, a: Step)
    requires Inv(s) && Plain(s) && Enabled(s, a) && Untimed(a)
    ensures Careful(s, a) && Plain(Apply(s, a))
  {
    match a
    case ReadTotal(_) => MovesPlain(s, a);
    case Poll(k) => PollPlain(s, k);
    case EndIdle(_) => MovesPlain(s, a);
    case Fire(k, f, timer) => FirePlain(s, k, f, timer);
    case Start(k) => StartPlain(s, k);
    case Count(_, _, _) => ChildPlain(s, a);
    case AddChild(_) => ChildPlain(s, a);
    case Wake(k, b) => if s.gates[b].line != [] { WakePlain(s, k, b); } else { MovesPlain(s, a); }
    case Check(k) => CheckInTime(s, k); CheckPlain(s, k);
    case Add(k) => AddPlain(s, k);
    case TryWait(_, _) => MovesPlain(s, a);
    case WaitOn(_, _, _, _) => MarkPlain(s, a);
    case Sleep(_, _, _) => MarkPlain(s, a);
    case Yield(_) => MovesPlain(s, a);
    case End(_) => MarkPlain(s, a);
    case Switch(k) => SwitchPlain(s, k);
  }

  // Without timeouts every look is in time.
  lemma UntimedStep(s: State, a: Step)
    requires Inv(s) && Plain(s) && Enabled(s, a) && Untimed(a)
    ensures Careful(s, a) && Inv(Apply(s, a)) && Plain(Apply(s, a))
  {
    StepPlain(s, a);
    StepKeepsIff(s, a);
  }

  ghost predicate UntimedRun(ss: seq<State>, steps: seq<Step>) {
    Run(ss, steps) && forall i {:trigger steps[i]} :: 0 <= i < |steps| ==> Untimed(steps[i])
  }

  lemma {:induction false} UntimedKeeps(ss: seq<State>, steps: seq<Step>, n: nat)
    requires UntimedRun(ss, steps) && n <= |steps|
    ensures Inv(ss[n]) && Plain(ss[n])
  {
    if n == 0 {
      InitPlain(ss[0]);
    } else {
      UntimedKeeps(ss, steps, n - 1);
      assert StepsTo(ss[n - 1], steps[n - 1], ss[n]);
      UntimedStep(ss[n - 1], steps[n - 1]);
    }
  }

  lemma InitPlain(s: State)
    requires Init(s)
    ensures Inv(s) && Plain(s)
  {
    InitInv(s);
    forall f: nat ensures PlainFiber(s, f) {}
    forall k: nat ensures PlainWaker(s, k) {}
    forall j: nat, k: nat ensures WakeOnce(s, j, k) {}
  }

  // So a run without timeouts on blockers ends in a state that ExitIsSafe covers.
  lemma UntimedIsCareful(ss: seq<State>, steps: seq<Step>)
    requires UntimedRun(ss, steps)
    ensures CarefullyReachable(ss[|steps|])
  {
    forall i {:trigger steps[i]} | 0 <= i < |steps| ensures Careful(ss[i], steps[i]) {
      UntimedKeeps(ss, steps, i);
      assert StepsTo(ss[i], steps[i], ss[i + 1]);
      UntimedStep(ss[i], steps[i]);
    }
    assert CarefulRun(ss, steps);
  }
}
