/**
 * Which fibers there are in a run of `join()`: those scheduled before it and
 * those its fibers schedule, and no others.
 */
module JoinFibers {
  import opened Base
  import opened Blocker
  import opened RunQueue
  import opened JoinLoop
  import opened JoinInvariant
  import opened JoinRuns

  // A new fiber is counted and goes to the back of the queue; nothing else
  // changes.
  lemma ScheduleIs(v: View, g: Fid)
    requires g !in v.fibers
    ensures var w := DoSchedule(v, g);
            && g in w.fibers && w.fibers[g] == FiberRec(RUNNABLE, PLAIN, false) && w.runQ == v.runQ + [g]
            && w.total == v.total + 1 && w.waiters == v.waiters && w.fibers.Keys == v.fibers.Keys + {g}
            && forall f :: f in v.fibers ==> w.fibers[f] == v.fibers[f]
  {
  }

  // The actions that the fiber gets to perform before it gives up the thread.
  function Performed(v: View, f: Fid, acts: seq<Act>): seq<Act>
    decreases |acts|
  {
    if acts == [] then []
    else if Yields(v, acts[0]) then [acts[0]]
    else [acts[0]] + Performed(Perform(v, f, acts[0]), f, acts[1..])
  }

  function Scheduled(acts: seq<Act>): set<Fid> {
    set i | 0 <= i < |acts| && acts[i].Schedule? :: acts[i].g
  }

  // The fibers scheduled in a turn, and in all turns of a script.
  function TurnSchedules(v: View, c: Choice): set<Fid> {
    if v.runQ == [] then {}
    else Scheduled(Performed(Resume(Poll(v, c.busy), v.runQ[0]), v.runQ[0], c.acts))
  }

  function ScriptSchedules(v: View, cs: seq<Choice>): set<Fid>
    decreases |cs|
  {
    if cs == [] then {} else TurnSchedules(v, cs[0]) + ScriptSchedules(Turn(v, cs[0]), cs[1..])
  }

  lemma ScheduledOne(a: Act)
    ensures Scheduled([a]) == if a.Schedule? then {a.g} else {}
  {
    if a.Schedule? { assert [a][0] == a; }
  }

  lemma WakeKnows(v: View, f: Fid, b: Bid)
    requires Inv(v, Some(f))
    ensures DoWake(v, b).fibers.Keys == v.fibers.Keys
  {
    if b in v.gates && v.gates[b].line != [] {
      assert InLineOk(v, b, v.gates[b].line[0]);
    }
  }

  lemma PerformKnows(v: View, f: Fid, a: Act)
    requires Inv(v, Some(f)) && Running(v, f)
    ensures Perform(v, f, a).fibers.Keys == v.fibers.Keys + Scheduled([a])
  {
    ScheduledOne(a);
    if a.Wake? { WakeKnows(v, f, a.b); }
    else if !a.Schedule? { WaitKnows(v, f, a); }
  }

  lemma WaitKnows(v: View, f: Fid, a: Act)
    requires f in v.fibers && !a.Wake? && !a.Schedule?
    ensures Perform(v, f, a).fibers.Keys == v.fibers.Keys
  {
  }

  lemma ScheduledSplit(a: Act, acts: seq<Act>)
    ensures Scheduled([a] + acts) == Scheduled([a]) + Scheduled(acts)
  {
    var all := [a] + acts;
    assert all[0] == a;
    forall g | g in Scheduled(acts) ensures g in Scheduled(all) {
      var i :| 0 <= i < |acts| && acts[i].Schedule? && acts[i].g == g;
      assert all[i + 1] == acts[i];
    }
    forall g | g in Scheduled(all) ensures g in Scheduled([a]) + Scheduled(acts) {
      var i :| 0 <= i < |all| && all[i].Schedule? && all[i].g == g;
      if i == 0 { assert [a][0] == a; } else { assert acts[i - 1] == all[i]; }
    }
    forall g | g in Scheduled([a]) ensures g in Scheduled(all) {
      assert all[0].Schedule? && all[0].g == g;
    }
  }

  lemma {:induction false} RunKnows(v: View, f: Fid, acts: seq<Act>)
    requires Inv(v, Some(f)) && Running(v, f)
    ensures Run(v, f, acts).fibers.Keys == v.fibers.Keys + Scheduled(Performed(v, f, acts))
    decreases |acts|
  {
    if acts != [] {
      PerformKnows(v, f, acts[0]);
      if !Yields(v, acts[0]) {
        PerformKeeps(v, f, acts[0]);
        RunKnows(Perform(v, f, acts[0]), f, acts[1..]);
        ScheduledSplit(acts[0], Performed(Perform(v, f, acts[0]), f, acts[1..]));
      }
    }
  }

  lemma {:induction false} EventsKnow(v: View, r: Option<Fid>, es: seq<Event>)
    requires Inv(v, r)
    ensures ProcessAll(v, es).fibers.Keys == v.fibers.Keys
    decreases |es|
  {
    if es != [] {
      ProcessKnows(v, r, es[0]);
      ProcessKeeps(v, r, es[0]);
      EventsKnow(Process(v, es[0]), r, es[1..]);
    }
  }

  lemma ProcessKnows(v: View, r: Option<Fid>, e: Event)
    requires Inv(v, r)
    ensures Process(v, e).fibers.Keys == v.fibers.Keys
  {
    if e.TimerFires? { assert TimerOk(v, e.t); } else { assert FdOk(v, e.fd); }
  }

  lemma TurnKnows(v: View, c: Choice)
    requires Inv(v, None)
    ensures Turn(v, c).fibers.Keys == v.fibers.Keys + TurnSchedules(v, c)
  {
    if v.runQ == [] {
      EventsKnow(v, None, c.idle);
    } else {
      PollKnows(v, c.busy);
      PollKeeps(v, c.busy);
      DispatchKnows(Poll(v, c.busy), v.runQ[0], c.acts);
    }
  }

  lemma PollKnows(v: View, busy: seq<Event>)
    requires Inv(v, None) && v.runQ != []
    ensures Poll(v, busy).fibers.Keys == v.fibers.Keys
  {
    PollInv(v);
    EventsKnow(v.(runQ := v.runQ[1..]), Some(v.runQ[0]), busy);
  }

  lemma DispatchKnows(v: View, f: Fid, acts: seq<Act>)
    requires Inv(v, Some(f))
    ensures Dispatch(v, f, acts).fibers.Keys == v.fibers.Keys + Scheduled(Performed(Resume(v, f), f, acts))
  {
    ResumeKeeps(v, f);
    assert Place(v, Some(f), f) && QueueOk(v, Some(f));
    RunKnows(Resume(v, f), f, acts);
    SwitchKnows(Run(Resume(v, f), f, acts), f);
  }

  lemma SwitchKnows(v: View, f: Fid)
    ensures Switch(v, f).fibers == v.fibers
  {
  }

  lemma {:induction false} TurnsKnow(v: View, cs: seq<Choice>)
    requires Inv(v, None)
    ensures Turns(v, cs).fibers.Keys == v.fibers.Keys + ScriptSchedules(v, cs)
    decreases |cs|
  {
    if cs != [] {
      TurnKnows(v, cs[0]);
      TurnKeeps(v, cs[0]);
      TurnsKnow(Turn(v, cs[0]), cs[1..]);
    }
  }

  lemma {:induction false} LaunchKnows(gates: map<Bid, Gate<Fid>>, fs: seq<Fid>)
    ensures Launch(gates, fs).fibers.Keys == set f | f in fs
  {
    if fs != [] {
      LaunchKnows(gates, fs[..|fs| - 1]);
      assert fs == fs[..|fs| - 1] + [fs[|fs| - 1]];
    }
  }

  lemma HeadKnows(gates: map<Bid, Gate<Fid>>, fs: seq<Fid>, cs: seq<Choice>)
    requires Fresh(gates)
    ensures var v := Turns(Launch(gates, fs), cs);
            v.fibers.Keys == (set f | f in fs) + ScriptSchedules(Launch(gates, fs), cs)
  {
    LaunchInv(gates, fs);
    LaunchKnows(gates, fs);
    TurnsKnow(Launch(gates, fs), cs);
  }

  lemma AllTerminated(v: View, known: set<Fid>)
    requires AtHead(v) && v.fibers.Keys == known
    ensures Exits(v) <==> forall f :: f in known ==> v.Of(f).state == TERMINATED
  {
    ExitMeansDone(v);
  }

  // No fiber is dropped, and none is made up: the fibers of a loop head are
  // exactly those scheduled before `join()` and those scheduled in its turns, and
  // when the loop ends each of them has terminated.
  lemma NobodyIsDropped(gates: map<Bid, Gate<Fid>>, fs: seq<Fid>, cs: seq<Choice>)
    requires Fresh(gates)
    ensures var v := Turns(Launch(gates, fs), cs);
            && v.fibers.Keys == (set f | f in fs) + ScriptSchedules(Launch(gates, fs), cs)
            && (Exits(v) <==> forall f :: f in v.fibers ==> v.Of(f).state == TERMINATED)
  {
    var v, known := Turns(Launch(gates, fs), cs), (set f | f in fs) + ScriptSchedules(Launch(gates, fs), cs);
    HeadKnows(gates, fs, cs);
    assert AtHead(v);
    AllTerminated(v, known);
  }
}
