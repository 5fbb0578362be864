/**
 * What undisturbed steps of one worker of `join(n)` come to: a dispatch, a child,
 * a wake-up, an event, and the ways to give up the thread.
 */
module WorkerActions {
  import opened Base
  import opened Blocker
  import opened RunQueue
  import opened Workers
  import A = WorkerAffinity
  import opened WorkerRuns

  // Nothing but the record of `f` differs.
  predicate OthersSame(s: State, t: State, f: Fid) {
    t.fibers.Keys == s.fibers.Keys + {f} && forall g :: g in s.fibers && g != f ==> t.fibers[g] == s.fibers[g]
  }

  // At the head of its loop a worker with an empty queue leaves if and only if
  // the counter stood at zero when it read it; otherwise it idles.
  lemma LeavesIff(s: State, k: Wid)
    requires s.At(k, READ) && s.queues[k] == []
    ensures var t := DoPoll(DoReadTotal(s, k), k);
            && t.At(k, if s.total <= 0 then EXITED else IDLE)
            && t.fibers == s.fibers && t.queues == s.queues && t.gates == s.gates && t.total == s.total
  {
  }

  // With fibers in the queue it takes the first; a fiber that has not ended runs
  // there, bound to the worker, with its waits taken down.
  lemma DispatchRuns(s: State, k: Wid)
    requires s.At(k, READ) && s.queues[k] != [] && s.Of(s.queues[k][0]).state != TERMINATED
    ensures var t, f := DoStart(DoPoll(DoReadTotal(s, k), k), k), s.queues[k][0];
            && t.At(k, RUNNING) && t.workers[k].fiber == f && t.queues == s.queues[k := s.queues[k][1..]]
            && t.Of(f).state == s.Of(f).state && t.Of(f).gate == s.Of(f).gate
            && t.Of(f).loc == OnThread(k) && t.Of(f).cont == PLAIN && t.Of(f).index == k
            && t.Of(f).bound == (if s.Of(f).bound.Some? then s.Of(f).bound else Some(k))
            && (t.Of(f).flag <==> s.Of(f).flag && s.Of(f).cont.timed.None? && !s.Of(f).cont.fds)
            && t.total == s.total && OthersSame(s, t, f)
            && t.gates == (if TimesOut(s.Of(f)) && s.Of(f).cont.timed.value in s.gates
                           then s.gates[s.Of(f).cont.timed.value := s.gates[s.Of(f).cont.timed.value].Leave(f).0] else s.gates)
  {
  }

  // A child is counted, and queued last by the worker that it belongs to.
  lemma ChildIsQueued(s: State, k: Wid, g: Fid, inherit: bool)
    requires Inv(s) && Enabled(s, Count(k, g, inherit))
    ensures var t := DoCount(s, k, g, inherit);
            && Enabled(t, AddChild(k))
            && var q := if inherit then k else s.balance % |s.queues|;
            && var u := DoAddChild(t, k);
            && u.At(k, RUNNING) && u.workers[k].fiber == s.workers[k].fiber && u.total == s.total + 1
            && u.Of(g).state == RUNNABLE && u.Of(g).bound == None && u.queues == s.queues[q := s.queues[q] + [g]]
            && u.balance == s.balance + ToInt(!inherit) && u.gates == s.gates && OthersSame(s, u, g)
  {
    assert A.HeldHere(s, k) && A.OneHome(s, s.workers[k].fiber);
  }

  // A wake-up: the first in line, found hung, is RUNNABLE and last in the queue
  // it is bound to, and the waker goes on.
  lemma WakeQueues(s: State, k: Wid, b: Bid)
    requires Enabled(s, Wake(k, b)) && s.gates[b].line != [] && IsHung(s.Of(s.gates[b].line[0]).state)
    requires s.Of(s.gates[b].line[0]).bound.Some? && s.Of(s.gates[b].line[0]).bound.value < |s.queues|
    ensures var g := s.gates[b].line[0];
            var q := s.Of(g).bound.value;
            var t := DoWake(s, k, b);
            && Enabled(t, Check(k))
            && var u := DoCheck(t, k);
            && Enabled(u, Add(k))
            && var v := DoAdd(u, k);
            && v.At(k, RUNNING) && v.workers[k].fiber == s.workers[k].fiber
            && v.gates == s.gates[b := s.gates[b].(line := s.gates[b].line[1..])]
            && v.Of(g).state == RUNNABLE && v.Of(g).cont == s.Of(g).cont && v.Of(g).flag == s.Of(g).flag
            && v.queues == s.queues[q := s.queues[q] + [g]] && v.total == s.total && OthersSame(s, v, g)
  {
  }

  lemma WakeStores(s: State, k: Wid, b: Bid)
    requires Enabled(s, Wake(k, b)) && s.gates[b].line == []
    ensures var g := s.gates[b];
            DoWake(s, k, b) == s.(gates := s.gates[b := if g.wakeup < g.limit then g.(wakeup := g.wakeup + 1) else g])
  {
  }

  // An event: its fiber, found hung, is RUNNABLE and last in its queue; a timer
  // is disarmed and leaves its flag.
  lemma EventQueues(s: State, k: Wid, f: Fid, timer: bool)
    requires Enabled(s, Fire(k, f, timer)) && IsHung(s.Of(f).state)
    ensures var t := DoFire(s, k, f, timer);
            && Enabled(t, Check(k))
            && var u := DoCheck(t, k);
            && Enabled(u, Add(k))
            && var v := DoAdd(u, k);
            && v.workers[k].pc == s.workers[k].pc && v.workers[k].fiber == s.workers[k].fiber
            && v.Of(f).state == RUNNABLE && v.Of(f).flag == (s.Of(f).flag || timer)
            && v.Of(f).cont == s.Of(f).cont.(timer := s.Of(f).cont.timer && !timer)
            && v.queues == s.queues[k := s.queues[k] + [f]] && v.gates == s.gates && v.total == s.total && OthersSame(s, v, f)
  {
  }

  // A worker that finds its fiber resumed already does nothing more.
  lemma LateCheckDoesNothing(s: State, k: Wid)
    requires Enabled(s, Check(k)) && !IsHung(s.Of(s.workers[k].other).state)
    ensures DoCheck(s, k) == Goto(s, k, s.workers[k].back)
  {
  }

  // A wait without a token: last in the blocker's line, with a timer if one was
  // asked for, and the worker is free.
  lemma WaitParksHere(s: State, k: Wid, b: Bid, timed: bool, timer: bool)
    requires Enabled(s, WaitOn(k, b, timed, timer)) && s.gates[b].wakeup == 0
    ensures var f, t := s.workers[k].fiber, DoWaitOn(s, k, b, timed, timer);
            && Enabled(t, Switch(k))
            && var u := DoSwitch(t, k);
            && u.At(k, READ) && u.Of(f).state == BLOCKED && u.Of(f).loc == Hung && u.Of(f).gate == Some(b)
            && u.Of(f).cont == Cont(if timed then Some(b) else None, timer, false) && (timer ==> !u.Of(f).flag)
            && u.gates == s.gates[b := s.gates[b].(line := s.gates[b].line + [f])]
            && u.queues == s.queues && u.total == s.total && OthersSame(s, u, f)
  {
  }

  // A wait with one, and an attempt, take it and go on.
  lemma WaitTakesHere(s: State, k: Wid, b: Bid, timed: bool, timer: bool)
    requires Enabled(s, WaitOn(k, b, timed, timer)) && s.gates[b].wakeup > 0
    ensures DoWaitOn(s, k, b, timed, timer) == s.(gates := s.gates[b := s.gates[b].(wakeup := s.gates[b].wakeup - 1)])
    ensures DoTryWait(s, b) == DoWaitOn(s, k, b, timed, timer)
  {
  }

  // A sleep, or a wait for descriptors.
  lemma SleepHangsHere(s: State, k: Wid, timer: bool, fds: bool)
    requires Enabled(s, Sleep(k, timer, fds))
    ensures var f, t := s.workers[k].fiber, DoSleep(s, k, timer, fds);
            && Enabled(t, Switch(k))
            && var u := DoSwitch(t, k);
            && u.At(k, READ) && u.Of(f).state == WAITING && u.Of(f).loc == Hung
            && u.Of(f).cont == Cont(None, timer, fds) && (timer ==> !u.Of(f).flag)
            && u.queues == s.queues && u.gates == s.gates && u.total == s.total && OthersSame(s, u, f)
  {
  }

  // The end: no longer counted.
  lemma EndLeavesHere(s: State, k: Wid)
    requires Enabled(s, End(k))
    ensures var f, t := s.workers[k].fiber, DoEnd(s, k);
            && Enabled(t, Switch(k))
            && var u := DoSwitch(t, k);
            && u.At(k, READ) && u.Of(f).state == TERMINATED && u.Of(f).loc == Gone && u.total == s.total - 1
            && u.queues == s.queues && u.gates == s.gates && OthersSame(s, u, f)
  {
  }
}
