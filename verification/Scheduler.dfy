/**
 * The scheduler object of the single-threaded `join()`, changed in place: run
 * queue, fiber table, counters, and the I/O waiter's timers and descriptors.
 * Each method is tied to its function in JoinLoop.
 */
module Scheduler {
  import opened Base
  import opened Blocker
  import opened RunQueue
  import opened JoinLoop
  import JoinRuns

  class EFiberScheduler {
    var defaultTaskQueue: seq<Fid>
    var fibers: map<Fid, FiberRec>
    var blockers: map<Bid, Gate<Fid>>
    var timers: map<TimerId, Fid>
    var pending: map<TimerId, Fid>
    var events: map<Fd, Fid>
    var nextTimer: TimerId
    var totalFiberCounter: int
    var waiters: int

    ghost function Value(): View
      reads this
    {
      View(defaultTaskQueue, fibers, blockers, timers, pending, events, nextTimer, totalFiberCounter, waiters)
    }

    function Rec(f: Fid): FiberRec
      reads this`fibers
    {
      if f in fibers then fibers[f] else FiberRec(NEW, PLAIN, false)
    }

    constructor (blockers: map<Bid, Gate<Fid>>)
      ensures Value() == View([], map[], blockers, map[], map[], map[], 0, 0, 0)
    {
      defaultTaskQueue, fibers, this.blockers := [], map[], blockers;
      timers, pending, events, nextTimer := map[], map[], map[], 0;
      totalFiberCounter, waiters := 0, 0;
    }

    method Schedule(g: Fid)
      modifies this
      ensures Value() == DoSchedule(old(Value()), g)
    {
      if g !in fibers {
        totalFiberCounter := totalFiberCounter + 1;
        fibers := fibers[g := FiberRec(RUNNABLE, PLAIN, false)];
        defaultTaskQueue := defaultTaskQueue + [g];
      }
    }

    method SwapIn(f: Fid)
      modifies this`fibers, this`defaultTaskQueue
      ensures Value() == JoinLoop.SwapIn(old(Value()), f)
    {
      if Rec(f).state == WAITING || Rec(f).state == BLOCKED {
        fibers := fibers[f := Rec(f).(state := RUNNABLE)];
        defaultTaskQueue := Linked(defaultTaskQueue, f);
      }
    }

    method TimeEventProc(t: TimerId)
      modifies this`fibers, this`defaultTaskQueue, this`timers
      ensures Value() == Fire(old(Value()), t)
    {
      if t in timers {
        var f := timers[t];
        fibers := fibers[f := Rec(f).(flag := true)];
        timers := timers - {t};
        SwapIn(f);
      }
    }

    method FileEventProc(fd: Fd)
      modifies this`fibers, this`defaultTaskQueue
      ensures Value() == Process(old(Value()), FdReady(fd))
    {
      if fd in events {
        SwapIn(events[fd]);
      }
    }

    method OnceProcessEvents(es: seq<Event>)
      modifies this`fibers, this`defaultTaskQueue, this`timers
      ensures Value() == ProcessAll(old(Value()), es)
    {
      var i := 0;
      while i < |es|
        invariant 0 <= i <= |es|
        invariant ProcessAll(Value(), es[i..]) == ProcessAll(old(Value()), es)
      {
        assert es[i..][1..] == es[i + 1..];
        match es[i] {
          case TimerFires(t) => TimeEventProc(t);
          case FdReady(fd) => FileEventProc(fd);
        }
        i := i + 1;
      }
    }

    method WakeUp(b: Bid)
      modifies this`blockers, this`fibers, this`defaultTaskQueue
      ensures Value() == DoWake(old(Value()), b)
    {
      if b in blockers {
        var gate := blockers[b];
        if gate.line == [] {
          if gate.wakeup < gate.limit {
            gate := gate.(wakeup := gate.wakeup + 1);
          }
          blockers := blockers[b := gate];
        } else {
          blockers := blockers[b := gate.(line := gate.line[1..])];
          SwapIn(gate.line[0]);
        }
      }
    }

    method TryWait(b: Bid)
      modifies this`blockers
      ensures Value() == DoTake(old(Value()), b)
    {
      if b in blockers {
        var gate := blockers[b];
        blockers := blockers[b := if gate.wakeup == 0 then gate else gate.(wakeup := gate.wakeup - 1)];
      }
    }

    // setupTimer, without the flag it clears.
    method SetupTimer(f: Fid) returns (t: TimerId)
      modifies this`timers, this`pending, this`nextTimer, this`waiters
      ensures t == old(nextTimer) && Value() == JoinLoop.SetupTimer(old(Value()), f, true)
    {
      t := nextTimer;
      nextTimer := nextTimer + 1;
      timers, pending := timers[t := f], pending[t := f];
      waiters := waiters + 1;
    }

    // `wait` and the timed `tryWait` up to the yield.
    method BeginWait(f: Fid, b: Bid, timed: bool, timer: bool) returns (gone: bool)
      modifies this
      ensures gone == MustBlock(old(Value()), b)
      ensures Value() == if gone then Block(old(Value()), f, b, timed, timer) else DoTake(old(Value()), b)
    {
      if b !in blockers || blockers[b].wakeup > 0 {
        TryWait(b);
        return false;
      }
      var x := Rec(f);
      var c := Cont(Some(b), timed, None, {});
      if timer {
        var t := SetupTimer(f);
        c := c.(timer := Some(t));
      }
      fibers := fibers[f := FiberRec(BLOCKED, c, x.flag && !timer)];
      return true;
    }

    // A sleep, or a wait for descriptors: timer, descriptors, then WAITING.
    method WaitFor(f: Fid, fds: set<Fd>, timed: bool, timer: bool)
      modifies this
      ensures Value() == Await(old(Value()), f, fds, timed, timer)
    {
      var x := Rec(f);
      var c := Cont(None, timed, None, fds);
      if timer {
        var t := SetupTimer(f);
        c := c.(timer := Some(t));
      }
      events := events + (map d | d in fds :: f);
      waiters := waiters + |fds|;
      fibers := fibers[f := FiberRec(WAITING, c, x.flag && !timer)];
    }

    method Perform(f: Fid, a: Act) returns (gone: bool)
      modifies this
      ensures gone == Yields(old(Value()), a) && Value() == JoinLoop.Perform(old(Value()), f, a)
    {
      gone := false;
      match a {
        case Schedule(g) => Schedule(g);
        case Wake(b) => WakeUp(b);
        case TryWait(b) => TryWait(b);
        case Yield => gone := true;
        case Wait(b) => gone := BeginWait(f, b, false, false);
        case TimedWait(b, timer) => gone := BeginWait(f, b, true, timer);
        case Sleep =>
          WaitFor(f, {}, false, true);
          gone := true;
        case IoWait(fds, timer) =>
          if fds !! events.Keys && (timer || fds != {}) {
            WaitFor(f, fds, true, timer);
            gone := true;
          }
      }
    }

    method CancelTimer(t: TimerId)
      modifies this`timers, this`pending, this`waiters
      ensures timers == old(timers) - {t} && pending == old(pending) - {t} && waiters == old(waiters) - 1
    {
      timers, pending := timers - {t}, pending - {t};
      waiters := waiters - 1;
    }

    // Back from the yield.
    method Resume(f: Fid)
      modifies this
      ensures Value() == JoinLoop.Resume(old(Value()), f)
    {
      var x := Rec(f);
      if x.cont.timer.Some? {
        CancelTimer(x.cont.timer.value);
      }
      assert timers == old(timers) - TimerSet(x.cont) && pending == old(pending) - TimerSet(x.cont);
      if x.cont.timed && x.flag && x.cont.gate.Some? {
        var b := x.cont.gate.value;
        blockers := blockers[b := (if b in blockers then blockers[b] else Gate(0, 0, [])).Leave(f).0];
      }
      events := events - x.cont.fds;
      waiters := waiters - |x.cont.fds|;
      fibers := fibers[f := FiberRec(x.state, PLAIN, x.flag && !x.cont.timed)];
    }

    method RunFiber(f: Fid, acts: seq<Act>)
      modifies this
      ensures Value() == Run(old(Value()), f, acts)
    {
      var i := 0;
      while i < |acts|
        invariant 0 <= i <= |acts|
        invariant Run(Value(), f, acts[i..]) == Run(old(Value()), f, acts)
      {
        assert acts[i..][1..] == acts[i + 1..];
        var gone := Perform(f, acts[i]);
        if gone {
          return;
        }
        i := i + 1;
      }
      var x := Rec(f);
      fibers := fibers[f := x.(state := TERMINATED)];
    }

    // The scheduler's switch after the fiber gave up the thread.
    method SwapOut(f: Fid)
      modifies this
      ensures Value() == Switch(old(Value()), f)
    {
      var x := Rec(f);
      match x.state {
        case RUNNABLE => defaultTaskQueue := defaultTaskQueue + [f];
        case BLOCKED =>
          if x.cont.gate.Some? {
            var b := x.cont.gate.value;
            var gate := if b in blockers then blockers[b] else Gate(0, 0, []);
            if gate.wakeup > 0 {
              blockers := blockers[b := gate.(wakeup := gate.wakeup - 1)];
              defaultTaskQueue := defaultTaskQueue + [f];
            } else {
              blockers := blockers[b := gate.(line := gate.line + [f])];
            }
          }
        case TERMINATED => totalFiberCounter := totalFiberCounter - 1;
        case _ =>
      }
    }

    // The loop, for as many turns as the script has.  From a loop head it comes
    // to a loop head, and leaves only when every fiber has terminated.
    method Join(script: seq<Choice>) returns (done: bool)
      modifies this
      ensures Value() == Turns(old(Value()), script)
      ensures done ==> defaultTaskQueue == [] && totalFiberCounter <= 0
      ensures old(JoinRuns.AtHead(Value())) ==> JoinRuns.AtHead(Value())
      ensures old(JoinRuns.AtHead(Value())) && done ==> forall f :: f in fibers ==> fibers[f].state == TERMINATED
    {
      ghost var start := Value();
      var i := 0;
      while i < |script|
        invariant 0 <= i <= |script|
        invariant Turns(Value(), script[i..]) == Turns(start, script)
      {
        assert script[i..][1..] == script[i + 1..];
        if defaultTaskQueue == [] {
          if totalFiberCounter <= 0 {
            StaysDone(Value(), script[i..]);
            DoneMeansEnded(start, script);
            return true;
          }
          OnceProcessEvents(script[i].idle);
        } else {
          var f := defaultTaskQueue[0];
          defaultTaskQueue := defaultTaskQueue[1..];
          if waiters > 0 {
            OnceProcessEvents(script[i].busy);
          }
          Resume(f);
          RunFiber(f, script[i].acts);
          SwapOut(f);
        }
        i := i + 1;
      }
      DoneMeansEnded(start, script);
      return false;
    }
  }

  // Where the loop has come to, from a loop head.
  lemma DoneMeansEnded(v: View, script: seq<Choice>)
    ensures var w := Turns(v, script);
            JoinRuns.AtHead(v) ==>
              JoinRuns.AtHead(w) && (Exits(w) ==> forall f :: f in w.fibers ==> w.fibers[f].state == TERMINATED)
  {
    if JoinRuns.AtHead(v) {
      JoinRuns.HeadOn(v, script);
      JoinRuns.ExitMeansDone(Turns(v, script));
    }
  }

  lemma {:induction false} StaysDone(v: View, cs: seq<Choice>)
    requires Exits(v)
    ensures Turns(v, cs) == v
    decreases |cs|
  {
    if cs != [] {
      assert Turn(v, cs[0]) == v;
      StaysDone(v, cs[1..]);
    }
  }
}
