/**
 * What each thing a fiber can do comes to in `join()`, up to and including the
 * scheduler's switch when the fiber gives up the thread, and what events do.
 */
module JoinActions {
  import opened Base
  import opened Blocker
  import opened RunQueue
  import opened JoinLoop
  import opened JoinInvariant
  import opened JoinRuns

  // The dispatched fiber's part of a turn.
  function Segment(v: View, f: Fid, acts: seq<Act>): View {
    Switch(Run(v, f, acts), f)
  }

  // Nothing but the record of `f` differs.
  predicate OthersSame(v: View, w: View, f: Fid) {
    w.fibers.Keys == v.fibers.Keys + {f} && forall g :: g in v.fibers && g != f ==> w.fibers[g] == v.fibers[g]
  }

  // An action that does not give up the thread is followed by the next one.
  lemma GoesOn(v: View, f: Fid, a: Act, rest: seq<Act>)
    requires !Yields(v, a)
    ensures Segment(v, f, [a] + rest) == Segment(Perform(v, f, a), f, rest)
  {
    assert ([a] + rest)[1..] == rest;
  }

  // A fiber gives up the thread by a yield, by sleeping, or by waiting where
  // there is no token or for descriptors.
  lemma GivesUpIff(v: View, a: Act)
    ensures Yields(v, a) <==>
              || a.Yield? || a.Sleep? || (a.IoWait? && MayAwait(v, a.fds, a.timer))
              || ((a.Wait? || a.TimedWait?) && a.b in v.gates && v.gates[a.b].wakeup == 0)
  {
  }

  // A yield: to the back of the queue, whatever was to come after it.
  lemma YieldGoesLast(v: View, f: Fid, rest: seq<Act>)
    requires Running(v, f)
    ensures Segment(v, f, [Yield] + rest) == v.(runQ := v.runQ + [f])
  {
    assert ([Yield] + rest)[0] == Yield;
  }

  // The end: no longer counted, and in no queue.
  lemma EndLeaves(v: View, f: Fid)
    requires Running(v, f)
    ensures var w := Segment(v, f, []);
            w.Of(f).state == TERMINATED && w.total == v.total - 1 && w.runQ == v.runQ && OthersSame(v, w, f)
  {
  }

  // A wait without a token: last in the blocker's line, with a timer of its own
  // if one was asked for, and with no timeout left over from before.
  lemma WaitParks(v: View, f: Fid, a: Act, rest: seq<Act>)
    requires Running(v, f) && (a.Wait? || a.TimedWait?) && a.b in v.gates && v.gates[a.b].wakeup == 0
    ensures var w := Segment(v, f, [a] + rest);
            var timer := a.TimedWait? && a.timer;
            && w.Of(f).state == BLOCKED && w.Of(f).cont.timed == a.TimedWait? && (timer ==> !w.Of(f).flag)
            && w.gates == v.gates[a.b := v.gates[a.b].(line := v.gates[a.b].line + [f])]
            && w.timers == (if timer then v.timers[v.nextTimer := f] else v.timers)
            && w.Of(f).cont.timer == (if timer then Some(v.nextTimer) else None)
            && w.runQ == v.runQ && w.fds == v.fds && w.total == v.total && OthersSame(v, w, f)
  {
    assert ([a] + rest)[0] == a;
  }

  // A wait with one takes it and goes on.
  lemma WaitTakes(v: View, f: Fid, a: Act, rest: seq<Act>)
    requires (a.Wait? || a.TimedWait? || a.TryWait?) && a.b in v.gates && v.gates[a.b].wakeup > 0
    ensures Segment(v, f, [a] + rest)
         == Segment(v.(gates := v.gates[a.b := v.gates[a.b].(wakeup := v.gates[a.b].wakeup - 1)]), f, rest)
  {
    GoesOn(v, f, a, rest);
  }

  // A sleep, or a wait for descriptors: hung, with its timer and its descriptors
  // registered for it.
  lemma SleepHangs(v: View, f: Fid, a: Act, rest: seq<Act>)
    requires Running(v, f) && (a.Sleep? || (a.IoWait? && MayAwait(v, a.fds, a.timer)))
    ensures var w := Segment(v, f, [a] + rest);
            var timer := a.Sleep? || a.timer;
            var fds := if a.Sleep? then {} else a.fds;
            && w.Of(f).state == WAITING && w.Of(f).cont.fds == fds && (timer ==> !w.Of(f).flag)
            && w.timers == (if timer then v.timers[v.nextTimer := f] else v.timers)
            && w.Of(f).cont.timer == (if timer then Some(v.nextTimer) else None)
            && (forall d :: d in fds ==> d in w.fds && w.fds[d] == f)
            && (forall d :: d !in fds ==> (d in w.fds <==> d in v.fds) && (d in v.fds ==> w.fds[d] == v.fds[d]))
            && w.runQ == v.runQ && w.gates == v.gates && w.total == v.total && OthersSame(v, w, f)
  {
    assert ([a] + rest)[0] == a;
    if a.IoWait? { assert Segment(v, f, [a] + rest) == Await(v, f, a.fds, true, a.timer); }
  }

  // A wake-up: the first in line is off the line and, if it still hangs, last in
  // the queue; with nobody in line the token is kept, up to the limit.
  lemma WakeHands(v: View, f: Fid, b: Bid)
    requires Inv(v, Some(f)) && Running(v, f) && b in v.gates && v.gates[b].line != []
    ensures var g, w := v.gates[b].line[0], Perform(v, f, Wake(b));
            && w.gates == v.gates[b := v.gates[b].(line := v.gates[b].line[1..])]
            && w.Of(g).state == RUNNABLE && OnceIn(w.runQ, g) && w.Of(g).cont == v.Of(g).cont && w.Of(g).flag == v.Of(g).flag
            && w.runQ == (if v.Of(g).state == BLOCKED then v.runQ + [g] else v.runQ)
            && w.timers == v.timers && w.fds == v.fds && w.total == v.total && OthersSame(v, w, g)
  {
    var g := v.gates[b].line[0];
    PlainIsFree(v, f);
    assert InLineOk(v, b, g) && Place(v, Some(f), g) && LineOk(v, b);
    PlacedHungOut(v, Some(f));
    if Hung(v.Of(g).state) { assert v.runQ[..|v.runQ|] == v.runQ; LinkedIs(v.runQ, g, |v.runQ|); }
    WakeKeeps(v, Some(f), b);
    assert Place(Perform(v, f, Wake(b)), Some(f), g);
  }

  lemma WakeKept(v: View, f: Fid, b: Bid)
    requires b in v.gates && v.gates[b].line == []
    ensures var g := v.gates[b];
            Perform(v, f, Wake(b)) == v.(gates := v.gates[b := if g.wakeup < g.limit then g.(wakeup := g.wakeup + 1) else g])
  {
  }

  // A timer that fires: disarmed, and its fiber flagged and, if it hangs, last in
  // the queue.
  lemma TimerWakes(v: View, t: TimerId)
    requires HungOut(v) && t in v.timers
    ensures var f, w := v.timers[t], Process(v, TimerFires(t));
            && w.timers == v.timers - {t} && w.Of(f).flag && !Hung(w.Of(f).state)
            && w.runQ == (if Hung(v.Of(f).state) then v.runQ + [f] else v.runQ)
            && w.gates == v.gates && w.fds == v.fds && w.total == v.total && OthersSame(v, w, f)
  {
    ProcessEnqueues(v, TimerFires(t));
  }

  // Back on the thread: the timer is cancelled, the descriptors are given up, the
  // line is left by one that timed out in it, and a timed wait has read the flag.
  lemma ResumeGivesUp(v: View, f: Fid)
    requires Inv(v, Some(f))
    ensures var c, w := v.Of(f).cont, Resume(v, f);
            && w.Of(f).state == RUNNABLE && w.Of(f).cont == PLAIN && w.Of(f).flag == (v.Of(f).flag && !c.timed)
            && w.timers == v.timers - (if c.timer.Some? then {c.timer.value} else {}) && w.fds == v.fds - c.fds
            && w.runQ == v.runQ && w.total == v.total && OthersSame(v, w, f)
            && (forall b :: b in w.gates <==> b in v.gates)
            && (forall b :: b in v.gates ==> w.gates[b] == v.gates[b].(line := Without(v.gates[b].line, f)))
  {
    assert Place(v, Some(f), f) && Held(v, f);
    forall b | b in v.gates ensures Resume(v, f).gates[b] == v.gates[b].(line := Without(v.gates[b].line, f)) {
      assert InLineOk(v, b, f);
      WithoutIs(v.gates[b].line, f);
    }
  }
}
