/**
 * The multi-threaded `join(n)`: n workers, each with its own run queue, its own
 * loop and its own events, sharing one fiber counter.  Every access to shared
 * state is a step of its own; the steps of all workers interleave freely.
 *
 * Fibers wait on blockers, with or without a timer, and sleep on timers and
 * descriptors.  The queues are the atomic FIFOs that QueueRefinement shows them
 * to be.
 */
module Workers {
  import opened Base
  import opened Blocker
  import opened RunQueue

  type Fid = nat
  type Wid = nat
  type Bid = nat

  // Where a fiber is, as the run goes on: in a worker's queue, on a worker's
  // thread, counted but not yet queued by the worker that schedules it, hung, or
  // gone.
  datatype Loc =
    | Queued(k: Wid)
    | OnThread(k: Wid)
    | Child(k: Wid)
    | Hung
    | Gone

  // What a fiber has set up for a wait: the line it leaves if it finds itself
  // timed out, a timer that has not fired, and descriptors.
  datatype Cont = Cont(timed: Option<Bid>, timer: bool, fds: bool)

  const PLAIN := Cont(None, false, false)

  // `gate` is the blocker last waited on, `flag` isIoWaitTimeout, `bound` the
  // bound queue and `index` the thread index.
  datatype FiberRec = FiberRec(
    state: FiberState, gate: Option<Bid>, cont: Cont, flag: bool, bound: Option<Wid>, index: Wid, loc: Loc)

  datatype Point = READ | POLL | IDLE | FOUND | RUNNING | SCHEDULING | WAKING | ADDING | SWITCH | EXITED

  // `total` is the worker's reading of the counter, `fiber` the fiber on its
  // thread and `other` the one it schedules or wakes.  A worker wakes a fiber
  // because its own fiber does, or because of an event it finds while idle or
  // before a dispatch; `back` says which.
  datatype Worker = Worker(pc: Point, total: int, fiber: Fid, other: Fid, inherit: bool, back: Point)

  datatype State = State(
    workers: seq<Worker>,
    queues: seq<seq<Fid>>,
    fibers: map<Fid, FiberRec>,
    gates: map<Bid, Gate<Fid>>,
    total: int,
    balance: nat)
  {
    function Of(f: Fid): FiberRec {
      if f in fibers then fibers[f] else FiberRec(NEW, None, PLAIN, false, None, 0, Gone)
    }

    function GateOf(b: Bid): Gate<Fid> {
      if b in gates then gates[b] else Gate(0, 0, [])
    }

    predicate At(k: Wid, p: Point) {
      k < |workers| && k < |queues| && workers[k].pc == p
    }
  }

  datatype Step =
    | ReadTotal(k: Wid)
    | Poll(k: Wid)
    | EndIdle(k: Wid)
    | Fire(k: Wid, f: Fid, timer: bool)
    | Start(k: Wid)
    | Count(k: Wid, g: Fid, inherit: bool)
    | AddChild(k: Wid)
    | Wake(k: Wid, b: Bid)
    | Check(k: Wid)
    | Add(k: Wid)
    | TryWait(k: Wid, b: Bid)
    | WaitOn(k: Wid, b: Bid, timed: bool, timer: bool)
    | Sleep(k: Wid, timer: bool, fds: bool)
    | Yield(k: Wid)
    | End(k: Wid)
    | Switch(k: Wid)

  predicate Enabled(s: State, a: Step) {
    match a
    case ReadTotal(k) => s.At(k, READ)
    case Poll(k) => s.At(k, POLL)
    case EndIdle(k) => s.At(k, IDLE)
    case Fire(k, f, timer) =>
      && (s.At(k, IDLE) || s.At(k, FOUND)) && f in s.fibers && s.fibers[f].bound == Some(k)
      && (if timer then s.fibers[f].cont.timer else s.fibers[f].cont.fds)
    case Start(k) => s.At(k, FOUND)
    case Count(k, g, _) => s.At(k, RUNNING) && g !in s.fibers
    case AddChild(k) => s.At(k, SCHEDULING)
    case Wake(k, b) => s.At(k, RUNNING) && b in s.gates
    case Check(k) => s.At(k, WAKING)
    case Add(k) => s.At(k, ADDING)
    case TryWait(k, b) => s.At(k, RUNNING) && b in s.gates
    case WaitOn(k, b, timed, timer) => s.At(k, RUNNING) && b in s.gates && (timer ==> timed)
    case Sleep(k, timer, fds) => s.At(k, RUNNING) && (timer || fds)
    case Yield(k) => s.At(k, RUNNING)
    case End(k) => s.At(k, RUNNING)
    case Switch(k) => s.At(k, SWITCH)
  }

  function Set(s: State, k: Wid, w: Worker): State
    requires k < |s.workers|
  {
    s.(workers := s.workers[k := w])
  }

  function Goto(s: State, k: Wid, p: Point): State
    requires k < |s.workers|
  {
    Set(s, k, s.workers[k].(pc := p))
  }

  function Put(s: State, f: Fid, x: FiberRec): State {
    s.(fibers := s.fibers[f := x])
  }

  function Enqueue(s: State, k: Wid, f: Fid): State {
    if k < |s.queues| then s.(queues := s.queues[k := s.queues[k] + [f]]) else s
  }

  function DoReadTotal(s: State, k: Wid): State
    requires s.At(k, READ)
  {
    Set(s, k, s.workers[k].(pc := POLL, total := s.total))
  }

  // The worker leaves only with an empty queue and a zero reading.
  function DoPoll(s: State, k: Wid): State
    requires s.At(k, POLL)
  {
    if s.queues[k] == [] then Goto(s, k, if s.workers[k].total > 0 then IDLE else EXITED)
    else
      var f := s.queues[k][0];
      Set(Put(s, f, s.Of(f).(loc := OnThread(k))), k, s.workers[k].(pc := FOUND, fiber := f)).(
        queues := s.queues[k := s.queues[k][1..]])
  }

  // A timer or a descriptor of the worker's own event loop.
  function DoFire(s: State, k: Wid, f: Fid, timer: bool): State
    requires k < |s.workers|
  {
    var x := s.Of(f);
    Set(if timer then Put(s, f, x.(flag := true, cont := x.cont.(timer := false))) else s,
        k, s.workers[k].(pc := WAKING, other := f, back := s.workers[k].pc))
  }

  predicate TimesOut(x: FiberRec) {
    x.cont.timed.Some? && x.flag
  }

  // A line after a timed-out fiber has left it.
  function GatesAfter(s: State, f: Fid): map<Bid, Gate<Fid>> {
    var x := s.Of(f);
    if TimesOut(x) && x.cont.timed.value in s.gates
    then s.gates[x.cont.timed.value := s.gates[x.cont.timed.value].Leave(f).0] else s.gates
  }

  // The dispatch: the fiber takes down what it had set up, leaves the line it
  // timed out in, and runs; timed waits and waits for descriptors read and clear
  // the flag.  A fiber that has terminated has nothing to run.
  function DoStart(s: State, k: Wid): State
    requires s.At(k, FOUND)
  {
    var f := s.workers[k].fiber;
    var x := s.Of(f);
    Goto(Put(s, f, x.(index := k, bound := if x.bound.None? then Some(k) else x.bound,
                      cont := PLAIN, flag := x.flag && x.cont.timed.None? && !x.cont.fds)),
         k, if x.state == TERMINATED then SWITCH else RUNNING).(gates := GatesAfter(s, f))
  }

  // schedule: the counter first, the queue later.
  function DoCount(s: State, k: Wid, g: Fid, inherit: bool): State
    requires s.At(k, RUNNING)
  {
    Set(Put(s, g, FiberRec(RUNNABLE, None, PLAIN, false, None, 0, Child(k))),
        k, s.workers[k].(pc := SCHEDULING, other := g, inherit := inherit)).(total := s.total + 1)
  }

  function ChildQueue(s: State, k: Wid): Wid
    requires s.At(k, SCHEDULING)
  {
    if s.workers[k].inherit then s.Of(s.workers[k].fiber).index else s.balance % |s.queues|
  }

  function DoAddChild(s: State, k: Wid): State
    requires s.At(k, SCHEDULING)
  {
    var g, q := s.workers[k].other, ChildQueue(s, k);
    Goto(Enqueue(Put(s, g, s.Of(g).(loc := Queued(q))), q, g), k, RUNNING).(
      balance := if s.workers[k].inherit then s.balance else s.balance + 1)
  }

  // wakeUp, inside the blocker's lock.
  function DoWake(s: State, k: Wid, b: Bid): State
    requires s.At(k, RUNNING)
  {
    var (g, w) := s.GateOf(b).WakeUp();
    var t := s.(gates := s.gates[b := g]);
    if w.Handed? then Set(t, k, s.workers[k].(pc := WAKING, other := w.fiber, back := RUNNING)) else t
  }

  predicate IsHung(x: FiberState) {
    x == WAITING || x == BLOCKED
  }

  // swapIn: the look at the state.
  function DoCheck(s: State, k: Wid): State
    requires s.At(k, WAKING)
  {
    Goto(s, k, if IsHung(s.Of(s.workers[k].other).state) then ADDING else s.workers[k].back)
  }

  // swapIn: the new state, and the bound queue.
  function DoAdd(s: State, k: Wid): State
    requires s.At(k, ADDING)
  {
    var f := s.workers[k].other;
    var x := s.Of(f);
    var t := Goto(s, k, s.workers[k].back);
    match x.bound
    case Some(q) => Enqueue(Put(t, f, x.(state := RUNNABLE, loc := Queued(q))), q, f)
    case None => t
  }

  function DoTryWait(s: State, b: Bid): State {
    s.(gates := s.gates[b := s.GateOf(b).Take().0])
  }

  function DoWaitOn(s: State, k: Wid, b: Bid, timed: bool, timer: bool): State
    requires s.At(k, RUNNING)
  {
    var f := s.workers[k].fiber;
    var x := s.Of(f);
    if s.GateOf(b).wakeup > 0 then DoTryWait(s, b)
    else Goto(Put(s, f, x.(state := BLOCKED, gate := Some(b), flag := x.flag && !timer,
                           cont := Cont(if timed then Some(b) else None, timer, false))), k, SWITCH)
  }

  function DoSleep(s: State, k: Wid, timer: bool, fds: bool): State
    requires s.At(k, RUNNING)
  {
    var f := s.workers[k].fiber;
    Goto(Put(s, f, s.Of(f).(state := WAITING, flag := s.Of(f).flag && !timer, cont := Cont(None, timer, fds))), k, SWITCH)
  }

  function DoEnd(s: State, k: Wid): State
    requires s.At(k, RUNNING)
  {
    var f := s.workers[k].fiber;
    Goto(Put(s, f, s.Of(f).(state := TERMINATED)), k, SWITCH)
  }

  // The fiber goes back to the worker's queue with the state it has.
  function Requeue(s: State, k: Wid): State
    requires s.At(k, SWITCH)
  {
    var f := s.workers[k].fiber;
    Goto(Enqueue(Put(s, f, s.Of(f).(loc := Queued(k))), k, f), k, READ)
  }

  function HangUp(s: State, k: Wid): State
    requires s.At(k, SWITCH)
  {
    var f := s.workers[k].fiber;
    Goto(Put(s, f, s.Of(f).(loc := Hung)), k, READ)
  }

  function DoSwitch(s: State, k: Wid): State
    requires s.At(k, SWITCH)
  {
    var f := s.workers[k].fiber;
    var x := s.Of(f);
    match x.state
    case RUNNABLE => Requeue(s, k)
    case BLOCKED =>
      var b := if x.gate.Some? then x.gate.value else 0;
      var (g, parked) := s.GateOf(b).SwapOut(f);
      (if parked then HangUp(s, k) else Requeue(s, k)).(gates := s.gates[b := g])
    case TERMINATED => Goto(Put(s, f, x.(loc := Gone)), k, READ).(total := s.total - 1)
    case _ => HangUp(s, k)
  }

  function Apply(s: State, a: Step): State
    requires Enabled(s, a)
  {
    match a
    case ReadTotal(k) => DoReadTotal(s, k)
    case Poll(k) => DoPoll(s, k)
    case EndIdle(k) => Goto(s, k, READ)
    case Fire(k, f, timer) => DoFire(s, k, f, timer)
    case Start(k) => DoStart(s, k)
    case Count(k, g, inherit) => DoCount(s, k, g, inherit)
    case AddChild(k) => DoAddChild(s, k)
    case Wake(k, b) => DoWake(s, k, b)
    case Check(k) => DoCheck(s, k)
    case Add(k) => DoAdd(s, k)
    case TryWait(_, b) => DoTryWait(s, b)
    case WaitOn(k, b, timed, timer) => DoWaitOn(s, k, b, timed, timer)
    case Sleep(k, timer, fds) => DoSleep(s, k, timer, fds)
    case Yield(k) => Goto(s, k, SWITCH)
    case End(k) => DoEnd(s, k)
    case Switch(k) => DoSwitch(s, k)
  }

  // join(n) before its workers start: the fibers scheduled earlier have been
  // dealt to the queues.
  ghost predicate Init(s: State) {
    && 0 < |s.workers| == |s.queues|
    && (forall k :: 0 <= k < |s.workers| ==> s.workers[k].pc == READ)
    && (forall b :: b in s.gates ==> s.gates[b].line == [])
    && (forall k :: 0 <= k < |s.queues| ==> Distinct(s.queues[k]))
    && (forall k, f :: 0 <= k < |s.queues| && f in s.queues[k] ==> f in s.fibers && s.fibers[f].loc == Queued(k))
    && (forall f :: f in s.fibers ==>
          && s.fibers[f].loc.Queued? && s.fibers[f].loc.k < |s.queues| && f in s.queues[s.fibers[f].loc.k]
          && s.fibers[f].state == RUNNABLE && s.fibers[f].bound.None? && s.fibers[f].cont == PLAIN)
    && s.total == |s.fibers.Keys|
  }

  ghost predicate StepsTo(s: State, a: Step, t: State) {
    Enabled(s, a) && t == Apply(s, a)
  }

  // A run takes one enabled step of some worker after another.
  ghost predicate Run(ss: seq<State>, steps: seq<Step>) {
    && |ss| == |steps| + 1 && Init(ss[0])
    && forall i {:trigger steps[i]} :: 0 <= i < |steps| ==> StepsTo(ss[i], steps[i], ss[i + 1])
  }

  // The states that end some run.
  ghost predicate Reachable(s: State) {
    exists ss, steps {:trigger Run(ss, steps)} :: Run(ss, steps) && ss[|steps|] == s
  }
}
