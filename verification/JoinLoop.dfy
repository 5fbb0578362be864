/**
 * The single-threaded scheduler: one turn of the loop in `join()` at a time,
 * with fibers that wake each other through blockers, timers and descriptors.
 *
 * What a fiber does when it is dispatched, and which timers and descriptors
 * fire, is chosen by a script; everything below holds for every script.
 */
module JoinLoop {
  import opened Base
  import opened Blocker
  import opened RunQueue

  type Fid = nat
  type Bid = nat
  type TimerId = nat
  type Fd = nat

  // What a sleeping fiber has set up and will take down when it runs again:
  // the blocker it waits on, its timer, its descriptors, and whether it will
  // look at the timeout flag.
  datatype Cont = Cont(gate: Option<Bid>, timed: bool, timer: Option<TimerId>, fds: set<Fd>)

  const PLAIN := Cont(None, false, None, {})

  datatype FiberRec = FiberRec(state: FiberState, cont: Cont, flag: bool)

  datatype View = View(
    runQ: seq<Fid>,
    fibers: map<Fid, FiberRec>,
    gates: map<Bid, Gate<Fid>>,
    timers: map<TimerId, Fid>,    // timers set up, not fired and not cancelled
    pending: map<TimerId, Fid>,   // timers set up and not cancelled
    fds: map<Fd, Fid>,            // registered descriptors and whom they wake
    nextTimer: TimerId,
    total: int,                   // totalFiberCounter
    waiters: int)                 // EIoWaiter::waiters
  {
    function Of(f: Fid): FiberRec {
      if f in fibers then fibers[f] else FiberRec(NEW, PLAIN, false)
    }

    function GateOf(b: Bid): Gate<Fid> {
      if b in gates then gates[b] else Gate(0, 0, [])
    }

    function Put(f: Fid, x: FiberRec): View {
      this.(fibers := fibers[f := x])
    }

    function PutGate(b: Bid, g: Gate<Fid>): View {
      this.(gates := gates[b := g])
    }
  }

  datatype Event = TimerFires(t: TimerId) | FdReady(fd: Fd)

  datatype Act =
    | Schedule(g: Fid)
    | Wake(b: Bid)
    | TryWait(b: Bid)
    | Yield
    | Wait(b: Bid)
    | TimedWait(b: Bid, timer: bool)
    | Sleep
    | IoWait(fds: set<Fd>, timer: bool)

  // One turn of the loop: the events found when there is nothing to run, the
  // events found before a dispatch, and what the dispatched fiber does until it
  // gives up the thread (it ends if it runs out of things to do).
  datatype Choice = Choice(idle: seq<Event>, busy: seq<Event>, acts: seq<Act>)

  // --- wake-ups ---

  predicate Hung(s: FiberState) {
    s == WAITING || s == BLOCKED
  }

  // The wake-up of a hung fiber, as the linked queue takes it.
  function SwapIn(v: View, f: Fid): View {
    if Hung(v.Of(f).state) then v.Put(f, v.Of(f).(state := RUNNABLE)).(runQ := Linked(v.runQ, f)) else v
  }

  // timeEventProc: the flag first, then the wake-up.
  function Fire(v: View, t: TimerId): View {
    if t !in v.timers then v else
      var f := v.timers[t];
      SwapIn(v.Put(f, v.Of(f).(flag := true)).(timers := v.timers - {t}), f)
  }

  function Process(v: View, e: Event): View {
    match e
    case TimerFires(t) => Fire(v, t)
    case FdReady(fd) => if fd in v.fds then SwapIn(v, v.fds[fd]) else v
  }

  function ProcessAll(v: View, es: seq<Event>): View
    decreases |es|
  {
    if es == [] then v else ProcessAll(Process(v, es[0]), es[1..])
  }

  // --- what a running fiber does ---

  function WithTimer(m: map<TimerId, Fid>, t: TimerId, f: Fid, timer: bool): map<TimerId, Fid> {
    if timer then m[t := f] else m
  }

  // setupTimer, for the fiber that is about to yield: the flag is cleared.
  function SetupTimer(v: View, f: Fid, timer: bool): View {
    v.(timers := WithTimer(v.timers, v.nextTimer, f, timer), pending := WithTimer(v.pending, v.nextTimer, f, timer),
       nextTimer := v.nextTimer + ToInt(timer), waiters := v.waiters + ToInt(timer))
  }

  function TimerSet(c: Cont): set<TimerId> {
    if c.timer.Some? then {c.timer.value} else {}
  }

  // A flagged fiber leaves the line it timed out in.
  function GatesAfter(v: View, f: Fid): map<Bid, Gate<Fid>> {
    var x := v.Of(f);
    if x.cont.timed && x.flag && x.cont.gate.Some?
    then v.gates[x.cont.gate.value := v.GateOf(x.cont.gate.value).Leave(f).0] else v.gates
  }

  // Back from the yield: the timer is cancelled, the line is left, the
  // descriptors are given up, and a timed wait has read and cleared the flag.
  function Resume(v: View, f: Fid): View {
    var x := v.Of(f);
    v.(fibers := v.fibers[f := FiberRec(x.state, PLAIN, x.flag && !x.cont.timed)],
       gates := GatesAfter(v, f),
       timers := v.timers - TimerSet(x.cont), pending := v.pending - TimerSet(x.cont),
       fds := v.fds - x.cont.fds,
       waiters := v.waiters - |TimerSet(x.cont)| - |x.cont.fds|)
  }

  function DoSchedule(v: View, g: Fid): View {
    if g in v.fibers then v
    else v.Put(g, FiberRec(RUNNABLE, PLAIN, false)).(runQ := v.runQ + [g], total := v.total + 1)
  }

  function DoWake(v: View, b: Bid): View {
    if b !in v.gates then v
    else
      var (g, w) := v.gates[b].WakeUp();
      if w.Handed? then SwapIn(v.PutGate(b, g), w.fiber) else v.PutGate(b, g)
  }

  function DoTake(v: View, b: Bid): View {
    if b in v.gates then v.PutGate(b, v.gates[b].Take().0) else v
  }

  // A wait without a token, up to the yield.
  function Block(v: View, f: Fid, b: Bid, timed: bool, timer: bool): View {
    var c := Cont(Some(b), timed, if timer then Some(v.nextTimer) else None, {});
    SetupTimer(v, f, timer).Put(f, FiberRec(BLOCKED, c, v.Of(f).flag && !timer))
  }

  // A sleep or a wait for descriptors, up to the yield.
  function Await(v: View, f: Fid, fds: set<Fd>, timed: bool, timer: bool): View {
    var c := Cont(None, timed, if timer then Some(v.nextTimer) else None, fds);
    SetupTimer(v, f, timer).(
      fds := v.fds + (map d | d in fds :: f), waiters := v.waiters + ToInt(timer) + |fds|,
      fibers := v.fibers[f := FiberRec(WAITING, c, v.Of(f).flag && !timer)])
  }

  // A descriptor has one waiter at a time, and a fiber waits for something.
  predicate MayAwait(v: View, fds: set<Fd>, timer: bool) {
    fds !! v.fds.Keys && (timer || fds != {})
  }

  predicate MustBlock(v: View, b: Bid) {
    b in v.gates && v.gates[b].wakeup == 0
  }

  predicate Yields(v: View, a: Act) {
    match a
    case Schedule(_) => false
    case Wake(_) => false
    case TryWait(_) => false
    case Yield => true
    case Wait(b) => MustBlock(v, b)
    case TimedWait(b, _) => MustBlock(v, b)
    case Sleep => true
    case IoWait(fds, timer) => MayAwait(v, fds, timer)
  }

  function Perform(v: View, f: Fid, a: Act): View {
    match a
    case Schedule(g) => DoSchedule(v, g)
    case Wake(b) => DoWake(v, b)
    case TryWait(b) => DoTake(v, b)
    case Yield => v
    case Wait(b) => if MustBlock(v, b) then Block(v, f, b, false, false) else DoTake(v, b)
    case TimedWait(b, timer) => if MustBlock(v, b) then Block(v, f, b, true, timer) else DoTake(v, b)
    case Sleep => Await(v, f, {}, false, true)
    case IoWait(fds, timer) => if MayAwait(v, fds, timer) then Await(v, f, fds, true, timer) else v
  }

  // The fiber runs until something makes it yield; at the end of its script its
  // run() returns.
  function Run(v: View, f: Fid, acts: seq<Act>): View
    decreases |acts|
  {
    if acts == [] then v.Put(f, v.Of(f).(state := TERMINATED))
    else if Yields(v, acts[0]) then Perform(v, f, acts[0])
    else Run(Perform(v, f, acts[0]), f, acts[1..])
  }

  // --- the loop ---

  // The switch on the fiber's state after it gave up the thread.
  function Switch(v: View, f: Fid): View {
    match v.Of(f).state
    case RUNNABLE => v.(runQ := v.runQ + [f])
    case BLOCKED =>
      var b := v.Of(f).cont.gate;
      if b.None? then v
      else
        var (g, parked) := v.GateOf(b.value).SwapOut(f);
        if parked then v.PutGate(b.value, g) else v.PutGate(b.value, g).(runQ := v.runQ + [f])
    case TERMINATED => v.(total := v.total - 1)
    case _ => v
  }

  function Dispatch(v: View, f: Fid, acts: seq<Act>): View {
    Switch(Run(Resume(v, f), f, acts), f)
  }

  // The poll, and the look at the events before the dispatch.
  function Poll(v: View, busy: seq<Event>): View
    requires v.runQ != []
  {
    var v1 := v.(runQ := v.runQ[1..]);
    if v.waiters > 0 then ProcessAll(v1, busy) else v1
  }

  predicate Exits(v: View) {
    v.runQ == [] && v.total <= 0
  }

  function Turn(v: View, c: Choice): View {
    if v.runQ != [] then Dispatch(Poll(v, c.busy), v.runQ[0], c.acts)
    else if v.total > 0 then ProcessAll(v, c.idle)
    else v
  }

  function Turns(v: View, cs: seq<Choice>): View
    decreases |cs|
  {
    if cs == [] then v else Turns(Turn(v, cs[0]), cs[1..])
  }
}
