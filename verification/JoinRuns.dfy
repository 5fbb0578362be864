/**
 * Every turn of the single-threaded loop keeps every fiber in its place; what
 * follows for whole runs.
 */
module JoinRuns {
  import opened Base
  import opened Blocker
  import opened RunQueue
  import opened JoinLoop
  import opened JoinInvariant

  // --- giving up the thread ---

  lemma YieldKeeps(v: View, f: Fid)
    requires Inv(v, Some(f)) && Running(v, f)
    ensures Inv(Switch(v, f), None)
  {
    var w := Switch(v, f);
    assert Place(v, Some(f), f);
    DistinctConcat(v.runQ, [f]);
    SameAlive(v, w);
    RegisteredSame(v, w);
    forall g ensures Place(w, None, g) { assert Place(v, Some(f), g); }
    forall b ensures LineOk(w, b) { assert LineOk(v, b); }
    forall b, g ensures InLineOk(w, b, g) { assert InLineOk(v, b, g); }
  }

  lemma TerminateKeeps(v: View, f: Fid)
    requires Inv(v, Some(f)) && Running(v, f)
    ensures Inv(Switch(Run(v, f, []), f), None)
  {
    var w := Switch(Run(v, f, []), f);
    TerminateCounts(v, f, w);
    forall g ensures Place(w, None, g) { assert Place(v, Some(f), g); }
    TerminateRest(v, f, w);
  }

  lemma TerminateCounts(v: View, f: Fid, w: View)
    requires CountsOk(v) && Running(v, f)
    requires w == v.Put(f, v.fibers[f].(state := TERMINATED)).(total := v.total - 1)
    ensures CountsOk(w)
  {
    assert Alive(v) == Alive(w) + {f};
  }

  lemma TerminateRest(v: View, f: Fid, w: View)
    requires Lined(v) && Registered(v) && Running(v, f)
    requires w == v.Put(f, v.fibers[f].(state := TERMINATED)).(total := v.total - 1)
    ensures Lined(w) && Registered(w)
  {
    PlainIsFree(v, f);
    forall b ensures LineOk(w, b) { assert LineOk(v, b); }
    forall b, g ensures InLineOk(w, b, g) { assert InLineOk(v, b, g); }
    forall g ensures Held(w, g) { assert Held(v, g); }
    forall t: nat ensures TimerOk(w, t) { assert TimerOk(v, t); }
    forall d ensures FdOk(w, d) { assert FdOk(v, d); }
  }

  lemma BlockLines(v: View, f: Fid, b: Bid, timed: bool, timer: bool)
    requires Inv(v, Some(f)) && Running(v, f) && MustBlock(v, b)
    ensures Lined(Switch(Block(v, f, b, timed, timer), f))
  {
    var w := Switch(Block(v, f, b, timed, timer), f);
    PlainIsFree(v, f);
    assert LineOk(v, b);
    DistinctConcat(v.gates[b].line, [f]);
    forall c ensures LineOk(w, c) { assert LineOk(v, c); }
    forall c, g ensures InLineOk(w, c, g) { assert InLineOk(v, c, g); }
  }

  lemma NextTimerIsNew(v: View)
    requires Registered(v)
    ensures v.nextTimer !in v.pending && v.nextTimer !in v.timers
  {
    assert TimerOk(v, v.nextTimer);
  }

  lemma BlockRegisters(v: View, f: Fid, b: Bid, timed: bool, timer: bool)
    requires Inv(v, Some(f)) && Running(v, f) && MustBlock(v, b) && (timer ==> timed)
    ensures Registered(Switch(Block(v, f, b, timed, timer), f))
  {
    var w := Switch(Block(v, f, b, timed, timer), f);
    PlainIsFree(v, f);
    NextTimerIsNew(v);
    forall g ensures Held(w, g) { assert Held(v, g); }
    forall t: nat ensures TimerOk(w, t) { assert TimerOk(v, t); }
    forall d ensures FdOk(w, d) { assert FdOk(v, d); }
  }

  lemma BlockCounts(v: View, f: Fid, b: Bid, timed: bool, timer: bool)
    requires CountsOk(v) && Running(v, f) && MustBlock(v, b) && v.nextTimer !in v.pending
    ensures CountsOk(Switch(Block(v, f, b, timed, timer), f))
  {
    var w := Switch(Block(v, f, b, timed, timer), f);
    SameAlive(v, w);
    assert w.pending.Keys == v.pending.Keys + if timer then {v.nextTimer} else {};
  }

  lemma BlockKeeps(v: View, f: Fid, b: Bid, timed: bool, timer: bool)
    requires Inv(v, Some(f)) && Running(v, f) && MustBlock(v, b) && (timer ==> timed)
    ensures Inv(Switch(Block(v, f, b, timed, timer), f), None)
  {
    var w := Switch(Block(v, f, b, timed, timer), f);
    BlockLines(v, f, b, timed, timer);
    BlockRegisters(v, f, b, timed, timer);
    NextTimerIsNew(v);
    BlockCounts(v, f, b, timed, timer);
    assert Place(v, Some(f), f);
    forall g ensures Place(w, None, g) { assert Place(v, Some(f), g); }
  }

  lemma AwaitRegisters(v: View, f: Fid, fds: set<Fd>, timed: bool, timer: bool)
    requires Lined(v) && Registered(v) && Running(v, f) && MayAwait(v, fds, timer)
    ensures Registered(Await(v, f, fds, timed, timer))
  {
    var w := Await(v, f, fds, timed, timer);
    PlainIsFree(v, f);
    NextTimerIsNew(v);
    forall g ensures Held(w, g) { assert Held(v, g); }
    forall t: nat ensures TimerOk(w, t) { assert TimerOk(v, t); }
    AwaitFds(v, f, fds, timed, timer);
  }

  lemma AwaitFds(v: View, f: Fid, fds: set<Fd>, timed: bool, timer: bool)
    requires Lined(v) && Registered(v) && Running(v, f)
    ensures var w := Await(v, f, fds, timed, timer); forall d {:trigger FdOk(w, d)} :: FdOk(w, d)
  {
    var w := Await(v, f, fds, timed, timer);
    PlainIsFree(v, f);
    forall d ensures FdOk(w, d) { assert FdOk(v, d); }
  }

  lemma AwaitPlaces(v: View, f: Fid, fds: set<Fd>, timed: bool, timer: bool)
    requires Placed(v, Some(f)) && Lined(v) && Registered(v) && Running(v, f) && MayAwait(v, fds, timer)
    ensures Placed(Await(v, f, fds, timed, timer), None) && Lined(Await(v, f, fds, timed, timer))
  {
    var w := Await(v, f, fds, timed, timer);
    PlainIsFree(v, f);
    assert Place(v, Some(f), f);
    forall g ensures Place(w, None, g) { assert Place(v, Some(f), g); }
    forall b ensures LineOk(w, b) { assert LineOk(v, b); }
    forall b, g ensures InLineOk(w, b, g) { assert InLineOk(v, b, g); }
  }

  lemma AwaitKeys(v: View, f: Fid, fds: set<Fd>, timed: bool, timer: bool)
    ensures Await(v, f, fds, timed, timer).fds.Keys == v.fds.Keys + fds
    ensures Await(v, f, fds, timed, timer).pending.Keys == v.pending.Keys + if timer then {v.nextTimer} else {}
  {
  }

  lemma AwaitCounts(v: View, f: Fid, fds: set<Fd>, timed: bool, timer: bool)
    requires CountsOk(v) && Running(v, f) && fds !! v.fds.Keys && v.nextTimer !in v.pending
    ensures CountsOk(Await(v, f, fds, timed, timer))
  {
    SameAlive(v, Await(v, f, fds, timed, timer));
    AwaitKeys(v, f, fds, timed, timer);
    CardPlus(v.fds.Keys, fds);
    CardPlus(v.pending.Keys, if timer then {v.nextTimer} else {});
  }

  lemma AwaitKeeps(v: View, f: Fid, fds: set<Fd>, timed: bool, timer: bool)
    requires Inv(v, Some(f)) && Running(v, f) && MayAwait(v, fds, timer)
    ensures Inv(Switch(Await(v, f, fds, timed, timer), f), None)
  {
    NextTimerIsNew(v);
    AwaitRegisters(v, f, fds, timed, timer);
    AwaitPlaces(v, f, fds, timed, timer);
    AwaitCounts(v, f, fds, timed, timer);
    var w := Await(v, f, fds, timed, timer);
    assert Switch(w, f) == w;
  }

  // --- a segment, a turn, a run ---

  lemma PerformKeeps(v: View, f: Fid, a: Act)
    requires Inv(v, Some(f)) && Running(v, f) && !Yields(v, a)
    ensures Inv(Perform(v, f, a), Some(f)) && Running(Perform(v, f, a), f)
  {
    match a
    case Schedule(g) => ScheduleKeeps(v, Some(f), g);
    case Wake(b) => WakeKeeps(v, Some(f), b);
    case TryWait(b) => TakeKeeps(v, Some(f), b);
    case Wait(b) => TakeKeeps(v, Some(f), b);
    case TimedWait(b, timer) => TakeKeeps(v, Some(f), b);
    case IoWait(fds, timer) =>
  }

  lemma {:induction false} RunKeeps(v: View, f: Fid, acts: seq<Act>)
    requires Inv(v, Some(f)) && Running(v, f)
    ensures Inv(Switch(Run(v, f, acts), f), None)
    decreases |acts|
  {
    if acts == [] {
      TerminateKeeps(v, f);
    } else if Yields(v, acts[0]) {
      match acts[0]
      case Yield => YieldKeeps(v, f);
      case Wait(b) => BlockKeeps(v, f, b, false, false);
      case TimedWait(b, timer) => BlockKeeps(v, f, b, true, timer);
      case Sleep => AwaitKeeps(v, f, {}, false, true);
      case IoWait(fds, timer) => AwaitKeeps(v, f, fds, true, timer);
    } else {
      PerformKeeps(v, f, acts[0]);
      RunKeeps(Perform(v, f, acts[0]), f, acts[1..]);
    }
  }

  lemma PollInv(v: View)
    requires Inv(v, None) && v.runQ != []
    ensures Inv(v.(runQ := v.runQ[1..]), Some(v.runQ[0]))
  {
    var f, w := v.runQ[0], v.(runQ := v.runQ[1..]);
    assert v.runQ == [f] + w.runQ && f in v.runQ;
    SameAlive(v, w);
    RegisteredSame(v, w);
    forall g ensures Place(w, Some(f), g) { assert Place(v, None, g); }
    forall b ensures LineOk(w, b) { assert LineOk(v, b); }
    forall b, g ensures InLineOk(w, b, g) { assert InLineOk(v, b, g); }
  }

  lemma PollKeeps(v: View, busy: seq<Event>)
    requires Inv(v, None) && v.runQ != []
    ensures Inv(Poll(v, busy), Some(v.runQ[0]))
  {
    PollInv(v);
    ProcessAllKeeps(v.(runQ := v.runQ[1..]), Some(v.runQ[0]), busy);
  }

  lemma DispatchKeeps(v: View, f: Fid, acts: seq<Act>)
    requires Inv(v, Some(f))
    ensures Inv(Dispatch(v, f, acts), None)
  {
    ResumeKeeps(v, f);
    RunKeeps(Resume(v, f), f, acts);
  }

  lemma TurnKeeps(v: View, c: Choice)
    requires Inv(v, None)
    ensures Inv(Turn(v, c), None)
  {
    if v.runQ != [] {
      PollKeeps(v, c.busy);
      DispatchKeeps(Poll(v, c.busy), v.runQ[0], c.acts);
    } else {
      ProcessAllKeeps(v, None, c.idle);
    }
  }

  lemma {:induction false} TurnsKeep(v: View, cs: seq<Choice>)
    requires Inv(v, None)
    ensures Inv(Turns(v, cs), None)
    decreases |cs|
  {
    if cs != [] {
      TurnKeeps(v, cs[0]);
      TurnsKeep(Turn(v, cs[0]), cs[1..]);
    }
  }

  // The scheduler before `join()`: no fiber has run, and `fs` were scheduled in
  // this order.
  function Launch(gates: map<Bid, Gate<Fid>>, fs: seq<Fid>): View {
    if fs == [] then View([], map[], gates, map[], map[], map[], 0, 0, 0)
    else DoSchedule(Launch(gates, fs[..|fs| - 1]), fs[|fs| - 1])
  }

  ghost predicate Fresh(gates: map<Bid, Gate<Fid>>) {
    forall b :: b in gates ==> gates[b].line == []
  }

  lemma {:induction false} LaunchInv(gates: map<Bid, Gate<Fid>>, fs: seq<Fid>)
    requires Fresh(gates)
    ensures Inv(Launch(gates, fs), None)
  {
    if fs != [] {
      LaunchInv(gates, fs[..|fs| - 1]);
      ScheduleKeeps(Launch(gates, fs[..|fs| - 1]), None, fs[|fs| - 1]);
    } else {
      var v := Launch(gates, fs);
      forall f ensures Place(v, None, f) {}
      forall b ensures LineOk(v, b) {}
      forall b, f ensures InLineOk(v, b, f) {}
      forall f ensures Held(v, f) {}
      forall t: nat ensures TimerOk(v, t) {}
      forall d ensures FdOk(v, d) {}
    }
  }

  // The views at the head of the loop, over every script.
  ghost predicate AtHead(v: View) {
    exists gates: map<Bid, Gate<Fid>>, fs: seq<Fid>, cs: seq<Choice> {:trigger Turns(Launch(gates, fs), cs)} ::
      Fresh(gates) && v == Turns(Launch(gates, fs), cs)
  }

  lemma HeadInv(v: View)
    requires AtHead(v)
    ensures Inv(v, None)
  {
    var gates: map<Bid, Gate<Fid>>, fs: seq<Fid>, cs: seq<Choice> :| Fresh(gates) && v == Turns(Launch(gates, fs), cs);
    LaunchInv(gates, fs);
    TurnsKeep(Launch(gates, fs), cs);
  }

  lemma {:induction false} TurnsOn(v: View, cs: seq<Choice>, ds: seq<Choice>)
    ensures Turns(Turns(v, cs), ds) == Turns(v, cs + ds)
    decreases |cs|
  {
    if cs == [] {
      assert cs + ds == ds;
    } else {
      FirstTurn(v, cs[0], cs[1..]);
      FirstTurn(v, cs[0], cs[1..] + ds);
      assert cs == [cs[0]] + cs[1..] && cs + ds == [cs[0]] + (cs[1..] + ds);
      TurnsOn(Turn(v, cs[0]), cs[1..], ds);
    }
  }

  lemma FirstTurn(v: View, c: Choice, cs: seq<Choice>)
    ensures Turns(v, [c] + cs) == Turns(Turn(v, c), cs)
  {
    assert ([c] + cs)[1..] == cs;
  }

  // Any further turns lead to a loop head again.
  lemma HeadOn(v: View, ds: seq<Choice>)
    requires AtHead(v)
    ensures AtHead(Turns(v, ds))
  {
    var gates: map<Bid, Gate<Fid>>, fs: seq<Fid>, cs: seq<Choice> :| Fresh(gates) && v == Turns(Launch(gates, fs), cs);
    TurnsOn(Launch(gates, fs), cs, ds);
  }

  predicate OnceIn(s: seq<Fid>, f: Fid) {
    f in s && Distinct(s)
  }

  predicate InLine(v: View, b: Bid, f: Fid) {
    b in v.gates && f in v.gates[b].line
  }

  // At every loop head a live fiber is in the run queue exactly once, or in the
  // line of exactly one blocker, or waits for a timer that has yet to fire or a
  // registered descriptor; a fiber that timed out in a line is still in that one
  // line at most, and only until it runs.
  lemma EveryFiberHasItsPlace(v: View, f: Fid)
    requires AtHead(v) && f in v.fibers
    ensures v.fibers[f].state == RUNNABLE <==> OnceIn(v.runQ, f)
    ensures v.fibers[f].state == BLOCKED ==> exists b :: InLine(v, b, f) && OnceIn(v.gates[b].line, f)
    ensures forall b, c :: InLine(v, b, f) && InLine(v, c, f) ==> b == c
    ensures forall b :: InLine(v, b, f) ==>
              v.fibers[f].state == BLOCKED || (v.fibers[f].state == RUNNABLE && v.fibers[f].flag && v.fibers[f].cont.timed)
    ensures v.fibers[f].state == WAITING ==>
              (exists t :: t in v.timers && v.timers[t] == f) || (exists d :: d in v.fds && v.fds[d] == f)
    ensures v.fibers[f].state in {RUNNABLE, BLOCKED, WAITING, TERMINATED}
  {
    HeadInv(v);
    assert Place(v, None, f) && Held(v, f);
    var c := v.fibers[f].cont;
    if v.fibers[f].state == BLOCKED {
      assert LineOk(v, c.gate.value) && InLine(v, c.gate.value, f);
    }
    if v.fibers[f].state == WAITING {
      if c.timer.Some? {
        assert TimerOk(v, c.timer.value);
      } else {
        var d :| d in c.fds;
        assert d in v.fds;
      }
    }
    forall b, c | InLine(v, b, f) && InLine(v, c, f) ensures b == c { assert InLineOk(v, b, f) && InLineOk(v, c, f); }
    forall b | InLine(v, b, f)
      ensures v.fibers[f].state == BLOCKED || (v.fibers[f].state == RUNNABLE && v.fibers[f].flag && v.fibers[f].cont.timed)
    {
      assert InLineOk(v, b, f);
    }
  }

  // Whenever the scheduler is about to park a fiber, the blocker has no token:
  // the branch that grants the token at once and queues the fiber again, still
  // marked BLOCKED, is never taken.
  lemma {:induction false} NeverGrantedAtOnce(v: View, f: Fid, acts: seq<Act>)
    requires Inv(v, Some(f)) && Running(v, f)
    ensures var w := Run(v, f, acts);
            w.Of(f).state == BLOCKED ==> w.Of(f).cont.gate.Some? && w.GateOf(w.Of(f).cont.gate.value).SwapOut(f).1
    decreases |acts|
  {
    if acts != [] && !Yields(v, acts[0]) {
      PerformKeeps(v, f, acts[0]);
      NeverGrantedAtOnce(Perform(v, f, acts[0]), f, acts[1..]);
    }
  }

  lemma SwapOutAlwaysParks(v: View, c: Choice)
    requires AtHead(v) && v.runQ != []
    ensures var f := v.runQ[0];
            var w := Run(Resume(Poll(v, c.busy), f), f, c.acts);
            w.Of(f).state == BLOCKED ==> w.Of(f).cont.gate.Some? && w.GateOf(w.Of(f).cont.gate.value).SwapOut(f).1
  {
    HeadInv(v);
    PollKeeps(v, c.busy);
    ResumeKeeps(Poll(v, c.busy), v.runQ[0]);
    NeverGrantedAtOnce(Resume(Poll(v, c.busy), v.runQ[0]), v.runQ[0], c.acts);
  }

  // A thread outside the scheduler can store tokens between a fiber's mark and
  // its swap-out.
  function TokensCome(v: View, b: Bid, tokens: nat): View {
    v.PutGate(b, v.GateOf(b).(wakeup := tokens))
  }

  // Then states and places go on agreeing if and only if none came.
  lemma SwapOutAgreesIff(v: View, f: Fid, b: Bid, timed: bool, timer: bool, tokens: nat)
    requires Inv(v, Some(f)) && Running(v, f) && MustBlock(v, b) && (timer ==> timed)
    requires tokens > 0 ==> v.gates[b].line == []
    ensures Inv(Switch(TokensCome(Block(v, f, b, timed, timer), b, tokens), f), None) <==> tokens == 0
  {
    var w := Block(v, f, b, timed, timer);
    if tokens == 0 {
      assert TokensCome(w, b, 0) == w;
      BlockKeeps(v, f, b, timed, timer);
    } else {
      assert !Place(Switch(TokensCome(w, b, tokens), f), None, f);
    }
  }

  // And if one came, the fiber is queued and hung at once.  When its own timer
  // fires while other fibers have come to stand behind it, all of those are cut
  // off from the queue.
  lemma TimerCutsOff(v: View, f: Fid, b: Bid, tokens: nat, behind: seq<Fid>)
    requires MustBlock(v, b) && tokens > 0 && f !in v.runQ
    ensures var w := Switch(TokensCome(Block(v, f, b, true, true), b, tokens), f);
            && w.runQ == v.runQ + [f] && w.Of(f).state == BLOCKED
            && Fire(w.(runQ := w.runQ + behind), v.nextTimer).runQ == v.runQ + [f]
  {
    var w := Switch(TokensCome(Block(v, f, b, true, true), b, tokens), f);
    var q := v.runQ + [f] + behind;
    assert q[..|v.runQ|] == v.runQ;
    LinkedIs(q, f, |v.runQ|);
    assert w.runQ + behind == q;
  }

  // --- one wake-up, however many causes ---

  function Target(v: View, e: Event): Option<Fid> {
    match e
    case TimerFires(t) => if t in v.timers then Some(v.timers[t]) else None
    case FdReady(d) => if d in v.fds then Some(v.fds[d]) else None
  }

  predicate Hit(v: View, es: seq<Event>, f: Fid) {
    exists i :: 0 <= i < |es| && Target(v, es[i]) == Some(f)
  }

  // What the placement invariant says of hung fibers.
  predicate HungOut(v: View) {
    forall f :: f in v.runQ ==> !Hung(v.Of(f).state)
  }

  lemma PlacedHungOut(v: View, r: Option<Fid>)
    requires Placed(v, r)
    ensures HungOut(v)
  {
    forall f | f in v.runQ ensures !Hung(v.Of(f).state) { assert Place(v, r, f); }
  }

  lemma ProcessIs(v: View, e: Event)
    ensures var w := Process(v, e);
            && w.fds == v.fds
            && (forall t :: t in w.timers ==> t in v.timers && w.timers[t] == v.timers[t])
            && (forall t :: t in v.timers && t !in w.timers ==> Target(v, e) == Some(v.timers[t]))
            && (forall g: nat :: Hung(w.Of(g).state) <==> Hung(v.Of(g).state) && Target(v, e) != Some(g))
  {
    if e.FdReady? {
      if e.fd in v.fds { SwapInIs(v, v.fds[e.fd]); }
    } else if e.t in v.timers {
      SwapInIs(Flagged(v, e.t), v.timers[e.t]);
    }
  }

  // A timer that fires, before the wake-up.
  function Flagged(v: View, t: TimerId): View
    requires t in v.timers
  {
    var f := v.timers[t];
    v.Put(f, v.Of(f).(flag := true)).(timers := v.timers - {t})
  }

  lemma SwapInIs(v: View, f: Fid)
    ensures var w := SwapIn(v, f);
            w.fds == v.fds && w.timers == v.timers && forall g: nat :: Hung(w.Of(g).state) <==> Hung(v.Of(g).state) && g != f
  {
  }

  // A hung fiber that an event hits goes to the back of the queue.
  lemma ProcessEnqueues(v: View, e: Event)
    requires HungOut(v)
    ensures HungOut(Process(v, e))
    ensures var t := Target(v, e);
            Process(v, e).runQ == if t.Some? && Hung(v.Of(t.value).state) then v.runQ + [t.value] else v.runQ
  {
    if e.FdReady? {
      if e.fd in v.fds { SwapInEnqueues(v, v.fds[e.fd]); }
    } else if e.t in v.timers {
      assert forall g: nat :: Flagged(v, e.t).Of(g).state == v.Of(g).state;
      SwapInEnqueues(Flagged(v, e.t), v.timers[e.t]);
    }
  }

  lemma SwapInEnqueues(v: View, f: Fid)
    requires HungOut(v)
    ensures HungOut(SwapIn(v, f)) && SwapIn(v, f).runQ == if Hung(v.Of(f).state) then v.runQ + [f] else v.runQ
  {
    if Hung(v.Of(f).state) {
      assert v.runQ[..|v.runQ|] == v.runQ;
      LinkedIs(v.runQ, f, |v.runQ|);
      forall g | g in SwapIn(v, f).runQ ensures !Hung(SwapIn(v, f).Of(g).state) { assert g != f ==> g in v.runQ; }
    }
  }

  // Any number of timers and descriptors that fire together enqueue each fiber
  // they hit once, and only fibers that were hung.
  lemma {:induction false} EventsEnqueueOnce(v: View, es: seq<Event>)
    requires HungOut(v)
    ensures var q := ProcessAll(v, es).runQ;
            && v.runQ <= q && Distinct(q[|v.runQ|..])
            && (forall f :: f in q[|v.runQ|..] <==> Hung(v.Of(f).state) && Hit(v, es, f))
    decreases |es|
  {
    if es != [] {
      var w := Process(v, es[0]);
      ProcessIs(v, es[0]);
      ProcessEnqueues(v, es[0]);
      EventsEnqueueOnce(w, es[1..]);
      var q := ProcessAll(v, es).runQ;
      var first, later := w.runQ[|v.runQ|..], q[|w.runQ|..];
      SuffixSplit(v.runQ, w.runQ, q);
      DistinctConcat(first, later);
      forall f: nat ensures f in q[|v.runQ|..] <==> Hung(v.Of(f).state) && Hit(v, es, f) {
        HitSplit(v, es, f);
      }
    }
  }

  lemma SuffixSplit<T>(a: seq<T>, b: seq<T>, c: seq<T>)
    requires a <= b <= c
    ensures a <= c && c[|a|..] == b[|a|..] + c[|b|..]
  {
  }

  lemma HitSplit(v: View, es: seq<Event>, f: Fid)
    requires es != []
    ensures Hit(v, es, f) <==> Target(v, es[0]) == Some(f) || (Target(v, es[0]) != Some(f) && Hit(Process(v, es[0]), es[1..], f))
  {
    var w := Process(v, es[0]);
    ProcessIs(v, es[0]);
    if Target(v, es[0]) != Some(f) {
      forall i | 1 <= i < |es| ensures Target(v, es[i]) == Some(f) <==> Target(w, es[1..][i - 1]) == Some(f) {}
      if Hit(v, es, f) {
        var i :| 0 <= i < |es| && Target(v, es[i]) == Some(f);
        assert Target(w, es[1..][i - 1]) == Some(f);
      }
    }
  }

  // --- what an empty queue and a zero count mean ---

  // The loop ends if and only if every fiber has terminated; then nothing is
  // left in a line, no timer is set up and no descriptor is registered.
  lemma ExitMeansDone(v: View)
    requires AtHead(v)
    ensures Exits(v) <==> forall f :: f in v.fibers ==> v.fibers[f].state == TERMINATED
    ensures Exits(v) ==> v.pending == map[] && v.timers == map[] && v.fds == map[] && v.waiters == 0
    ensures Exits(v) ==> forall b, f :: !InLine(v, b, f)
  {
    HeadInv(v);
    if Exits(v) {
      assert Alive(v) == {};
      forall f | f in v.fibers ensures v.fibers[f].state == TERMINATED && v.fibers[f].cont == PLAIN {
        assert f !in Alive(v) && Place(v, None, f);
      }
      NothingLeft(v);
    } else if Alive(v) != {} {
      var f :| f in Alive(v);
      assert v.fibers[f].state != TERMINATED;
    } else {
      assert v.runQ != [] && v.runQ[0] in v.runQ;
      assert Place(v, None, v.runQ[0]);
    }
  }

  lemma NothingLeft(v: View)
    requires Lined(v) && Registered(v)
    requires forall f :: f in v.fibers ==> v.fibers[f].state == TERMINATED && v.fibers[f].cont == PLAIN
    ensures v.pending == map[] && v.timers == map[] && v.fds == map[]
    ensures forall b, f :: !InLine(v, b, f)
  {
    forall t: nat ensures t !in v.pending && t !in v.timers { assert TimerOk(v, t); }
    forall d: nat ensures d !in v.fds { assert FdOk(v, d); }
    forall b, f ensures !InLine(v, b, f) { assert InLineOk(v, b, f); }
  }

  // While the loop has something to wait for, some fiber is hung.
  lemma IdleMeansHung(v: View)
    requires AtHead(v) && v.runQ == [] && v.total > 0
    ensures exists f :: f in v.fibers && Hung(v.fibers[f].state)
  {
    HeadInv(v);
    var f :| f in Alive(v);
    assert Place(v, None, f);
  }

  // Without waiters there is no event to look for: skipping the look before a
  // dispatch misses nothing.
  lemma {:induction false} NothingMissed(v: View, r: Option<Fid>, es: seq<Event>)
    requires Inv(v, r) && v.waiters <= 0
    ensures ProcessAll(v, es) == v
    decreases |es|
  {
    assert v.pending.Keys == {} && v.fds.Keys == {};
    if es != [] {
      if es[0].TimerFires? { assert TimerOk(v, es[0].t); }
      NothingMissed(v, r, es[1..]);
    }
  }

  // --- fairness ---

  lemma PerformAppends(v: View, f: Fid, a: Act)
    requires Placed(v, Some(f)) && Lined(v)
    ensures v.runQ <= Perform(v, f, a).runQ
  {
    if a.Wake? && a.b in v.gates && v.gates[a.b].line != [] {
      var g := v.gates[a.b].line[0];
      PlacedHungOut(v, Some(f));
      if Hung(v.Of(g).state) { LinkedIs(v.runQ, g, |v.runQ|); }
    }
  }

  lemma {:induction false} RunAppends(v: View, f: Fid, acts: seq<Act>)
    requires Inv(v, Some(f)) && Running(v, f)
    ensures v.runQ <= Run(v, f, acts).runQ
    decreases |acts|
  {
    if acts != [] {
      PerformAppends(v, f, acts[0]);
      if !Yields(v, acts[0]) {
        PerformKeeps(v, f, acts[0]);
        RunAppends(Perform(v, f, acts[0]), f, acts[1..]);
      }
    }
  }

  lemma SwitchAppends(v: View, f: Fid)
    ensures v.runQ <= Switch(v, f).runQ
  {
  }

  lemma DispatchAppends(v: View, f: Fid, acts: seq<Act>)
    requires Inv(v, Some(f))
    ensures v.runQ <= Dispatch(v, f, acts).runQ
  {
    ResumeKeeps(v, f);
    RunAppends(Resume(v, f), f, acts);
    SwitchAppends(Run(Resume(v, f), f, acts), f);
  }

  lemma PollAppends(v: View, busy: seq<Event>)
    requires Inv(v, None) && v.runQ != []
    ensures v.runQ[1..] <= Poll(v, busy).runQ
  {
    PlacedHungOut(v, None);
    EventsEnqueueOnce(v.(runQ := v.runQ[1..]), busy);
  }

  // A turn takes the first fiber and adds behind the others.
  lemma TurnOrder(v: View, c: Choice)
    requires Inv(v, None) && v.runQ != []
    ensures v.runQ[1..] <= Turn(v, c).runQ
  {
    PollAppends(v, c.busy);
    PollKeeps(v, c.busy);
    DispatchAppends(Poll(v, c.busy), v.runQ[0], c.acts);
  }

  predicate StandsBehind(q: seq<Fid>, n: nat, f: Fid) {
    n <= |q| && f in q[n..]
  }

  // No event is missed: a fiber that hangs at a loop head and is hit by an event
  // of the coming turn, while the loop idles or before it dispatches another, is
  // RUNNABLE after the turn and once in the queue, behind all that stood there.
  lemma EventsWake(v: View, c: Choice, f: Fid)
    requires AtHead(v) && Hung(v.Of(f).state)
    requires if v.runQ != [] then Hit(v, c.busy, f) else v.total > 0 && Hit(v, c.idle, f)
    ensures var w := Turn(v, c);
            && w.Of(f).state == RUNNABLE && OnceIn(w.runQ, f)
            && (v.runQ == [] || (v.runQ[1..] <= w.runQ && f !in v.runQ && StandsBehind(w.runQ, |v.runQ| - 1, f)))
  {
    HeadInv(v);
    PlacedHungOut(v, None);
    TurnKeeps(v, c);
    if v.runQ == [] {
      EventsEnqueueOnce(v, c.idle);
      assert Turn(v, c).runQ == ProcessAll(v, c.idle).runQ[|v.runQ|..];
    } else {
      TurnOrder(v, c);
      WaitersCount(v, c.busy, f);
      PolledWakes(v, c, f);
    }
    assert Place(Turn(v, c), None, f);
  }

  // A fiber that an event can hit has a timer or a descriptor that counts.
  lemma WaitersCount(v: View, es: seq<Event>, f: Fid)
    requires Inv(v, None) && Hit(v, es, f)
    ensures v.waiters > 0
  {
    var i :| 0 <= i < |es| && Target(v, es[i]) == Some(f);
    if es[i].TimerFires? { assert TimerOk(v, es[i].t) && es[i].t in v.pending.Keys; } else { assert es[i].fd in v.fds.Keys; }
  }

  lemma PolledWakes(v: View, c: Choice, f: Fid)
    requires Inv(v, None) && v.runQ != [] && v.waiters > 0 && Hung(v.Of(f).state) && Hit(v, c.busy, f)
    ensures StandsBehind(Turn(v, c).runQ, |v.runQ| - 1, f)
  {
    var v1, w := v.(runQ := v.runQ[1..]), Poll(v, c.busy);
    PlacedHungOut(v, None);
    HitSame(v, v1, c.busy, f);
    EventsEnqueueOnce(v1, c.busy);
    assert f in w.runQ[|v1.runQ|..];
    PollKeeps(v, c.busy);
    DispatchAppends(w, v.runQ[0], c.acts);
    var i :| 0 <= i < |w.runQ| - |v1.runQ| && w.runQ[|v1.runQ|..][i] == f;
    assert Turn(v, c).runQ[|v.runQ| - 1..][i] == f;
  }

  lemma HitSame(v: View, w: View, es: seq<Event>, f: Fid)
    requires Hit(v, es, f) && w.timers == v.timers && w.fds == v.fds
    ensures Hit(w, es, f)
  {
    var i :| 0 <= i < |es| && Target(v, es[i]) == Some(f);
    assert Target(w, es[i]) == Some(f);
  }

  // The fibers dispatched by the turns of a script, in order.
  function Dispatched(v: View, cs: seq<Choice>): seq<Fid>
    decreases |cs|
  {
    if cs == [] then []
    else (if v.runQ == [] then [] else [v.runQ[0]]) + Dispatched(Turn(v, cs[0]), cs[1..])
  }

  lemma FirstDispatched(v: View, c: Choice, cs: seq<Choice>)
    requires v.runQ != []
    ensures Dispatched(v, [c] + cs) == [v.runQ[0]] + Dispatched(Turn(v, c), cs)
  {
    assert ([c] + cs)[1..] == cs;
  }

  lemma TurnKeepsOrder(v: View, c: Choice)
    requires Inv(v, None) && v.runQ != []
    ensures Inv(Turn(v, c), None) && v.runQ[1..] <= Turn(v, c).runQ
  {
    TurnKeeps(v, c);
    TurnOrder(v, c);
  }

  lemma {:induction false} QueueOrder(v: View, cs: seq<Choice>)
    requires Inv(v, None) && |cs| <= |v.runQ|
    ensures Dispatched(v, cs) == v.runQ[..|cs|]
    decreases |cs|
  {
    if cs != [] {
      TurnKeepsOrder(v, cs[0]);
      FirstDispatched(v, cs[0], cs[1..]);
      assert cs == [cs[0]] + cs[1..];
      QueueOrder(Turn(v, cs[0]), cs[1..]);
      PrefixOrder(v.runQ, Turn(v, cs[0]).runQ, |cs|);
    }
  }

  lemma PrefixOrder<T>(q: seq<T>, r: seq<T>, n: nat)
    requires 0 < n <= |q| && q[1..] <= r
    ensures [q[0]] + r[..n - 1] == q[..n]
  {
    assert r[..n - 1] == q[1..][..n - 1];
  }

  // Fairness: the next turns dispatch exactly the fibers now in the queue, in
  // queue order, whatever is woken, yields or is scheduled meanwhile.  So before
  // a queued fiber runs, every other fiber runs at most once, and it runs within
  // as many turns as there are live fibers.
  lemma Fairness(v: View, cs: seq<Choice>, k: nat)
    requires AtHead(v) && k < |v.runQ| && |cs| == k + 1
    ensures Dispatched(v, cs) == v.runQ[..k + 1] && Distinct(Dispatched(v, cs))
    ensures k < v.total
  {
    HeadQueue(v);
    HeadInv(v);
    QueueOrder(v, cs);
    PrefixDistinct(v.runQ, k + 1);
  }

  lemma PrefixDistinct<T>(s: seq<T>, n: nat)
    requires Distinct(s) && n <= |s|
    ensures Distinct(s[..n])
  {
  }

  lemma HeadQueue(v: View)
    requires AtHead(v)
    ensures Distinct(v.runQ) && |v.runQ| <= v.total
  {
    HeadInv(v);
    QueueIsAlive(v);
  }

  lemma QueueIsAlive(v: View)
    requires Inv(v, None)
    ensures |v.runQ| <= |Alive(v)|
  {
    forall f | f in v.runQ ensures f in Alive(v) { assert Place(v, None, f); }
    QueueFits(v.runQ, Alive(v));
  }

  lemma {:induction false} QueueFits(s: seq<Fid>, a: set<Fid>)
    requires Distinct(s) && forall f :: f in s ==> f in a
    ensures |s| <= |a|
  {
    if s != [] {
      var n := |s| - 1;
      QueueFits(s[..n], a - {s[n]});
    }
  }
}
