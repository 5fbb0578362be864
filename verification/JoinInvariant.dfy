/** Where every fiber is, at each point of the single-threaded loop. */
module JoinInvariant {
  import opened Base
  import opened Blocker
  import opened RunQueue
  import opened JoinLoop

  // `r` is the fiber that is out of the queue because it is being dispatched.

  // A RUNNABLE fiber is running or in the queue; a BLOCKED one is in the line
  // of the blocker it waits on; a WAITING one has a timer still to fire or a
  // descriptor; a TERMINATED one is nowhere.
  ghost predicate Place(v: View, r: Option<Fid>, f: Fid) {
    f in v.fibers ==>
      var x := v.fibers[f];
      && x.state != NEW
      && (x.state == RUNNABLE ==> (f in v.runQ <==> r != Some(f)))
      && (x.state != RUNNABLE ==> f !in v.runQ && r != Some(f))
      && (x.state == BLOCKED ==> x.cont.gate.Some? && f in v.GateOf(x.cont.gate.value).line)
      && (x.state == WAITING ==> x.cont.gate.None? && (x.cont.timer.Some? || x.cont.fds != {}))
      && (Hung(x.state) && x.cont.timer.Some? ==> x.cont.timer.value in v.timers)
      && (x.state == TERMINATED ==> x.cont == PLAIN)
  }

  // What a fiber has set up is registered for it.
  ghost predicate Held(v: View, f: Fid) {
    f in v.fibers ==>
      var c := v.fibers[f].cont;
      && (c.timer.Some? ==> c.timer.value in v.pending && v.pending[c.timer.value] == f)
      && (forall d :: d in c.fds ==> d in v.fds && v.fds[d] == f)
      && (c.gate.Some? ==> c.gate.value in v.gates && c.fds == {} && (c.timer.Some? ==> c.timed))
  }

  ghost predicate QueueOk(v: View, r: Option<Fid>) {
    && Distinct(v.runQ)
    && (forall f :: f in v.runQ ==> f in v.fibers)
    && (r.Some? ==> r.value in v.fibers)
  }

  // No token is stored while a fiber is in line.
  ghost predicate LineOk(v: View, b: Bid) {
    b in v.gates ==> Distinct(v.gates[b].line) && (0 < v.gates[b].wakeup ==> v.gates[b].line == [])
  }

  // A fiber in line is blocked on that blocker, or has timed out and will leave
  // the line when it runs.
  ghost predicate InLineOk(v: View, b: Bid, f: Fid) {
    b in v.gates && f in v.gates[b].line ==>
      var x := v.Of(f);
      && f in v.fibers && x.cont.gate == Some(b)
      && (x.state == BLOCKED || (x.state == RUNNABLE && x.flag && x.cont.timed))
  }

  // A registered timer or descriptor belongs to the one fiber that will give it
  // up.
  ghost predicate TimerOk(v: View, t: TimerId) {
    && (t in v.pending ==> t < v.nextTimer && v.pending[t] in v.fibers && v.fibers[v.pending[t]].cont.timer == Some(t))
    && (t in v.timers ==> t in v.pending && v.timers[t] == v.pending[t])
  }

  ghost predicate FdOk(v: View, d: Fd) {
    d in v.fds ==> v.fds[d] in v.fibers && d in v.fibers[v.fds[d]].cont.fds
  }

  function Alive(v: View): set<Fid> {
    set f | f in v.fibers && v.fibers[f].state != TERMINATED
  }

  // totalFiberCounter counts the live fibers, `waiters` the timers and
  // descriptors.
  ghost predicate CountsOk(v: View) {
    v.total == |Alive(v)| && v.waiters == |v.pending.Keys| + |v.fds.Keys|
  }

  ghost predicate Registered(v: View) {
    && (forall f {:trigger Held(v, f)} :: Held(v, f))
    && (forall t {:trigger TimerOk(v, t)} :: TimerOk(v, t))
    && (forall d {:trigger FdOk(v, d)} :: FdOk(v, d))
  }

  ghost predicate Lined(v: View) {
    && (forall b {:trigger LineOk(v, b)} :: LineOk(v, b))
    && (forall b, f {:trigger InLineOk(v, b, f)} :: InLineOk(v, b, f))
  }

  ghost predicate Placed(v: View, r: Option<Fid>) {
    QueueOk(v, r) && forall f {:trigger Place(v, r, f)} :: Place(v, r, f)
  }

  ghost predicate Inv(v: View, r: Option<Fid>) {
    Placed(v, r) && Lined(v) && Registered(v) && CountsOk(v)
  }

  // --- wake-ups ---

  lemma SameAlive(v: View, w: View)
    requires v.fibers.Keys == w.fibers.Keys
    requires forall f :: f in v.fibers ==> (v.fibers[f].state == TERMINATED <==> w.fibers[f].state == TERMINATED)
    ensures Alive(v) == Alive(w)
  {
  }

  // A hung fiber is not in the queue, and no line holds it unless it timed out
  // there: waking it puts it in the queue once.
  lemma SwapInPlaces(v: View, r: Option<Fid>, f: Fid)
    requires QueueOk(v, r) && Hung(v.Of(f).state) && f !in v.runQ && r != Some(f)
    requires forall g {:trigger Place(v, r, g)} :: g != f ==> Place(v, r, g)
    ensures Placed(SwapIn(v, f), r)
  {
    var w := SwapIn(v, f);
    LinkedIs(v.runQ, f, |v.runQ|);
    DistinctConcat(v.runQ, [f]);
    forall g ensures Place(w, r, g) { assert g != f ==> Place(v, r, g); }
  }

  lemma SwapInRest(v: View, f: Fid)
    requires Lined(v) && Registered(v) && CountsOk(v) && Hung(v.Of(f).state)
    requires forall b :: b in v.gates && f in v.gates[b].line ==> v.Of(f).flag && v.Of(f).cont.timed
    ensures var w := SwapIn(v, f); Lined(w) && Registered(w) && CountsOk(w)
  {
    var w := SwapIn(v, f);
    SameAlive(v, w);
    forall b ensures LineOk(w, b) { assert LineOk(v, b); }
    forall b, g ensures InLineOk(w, b, g) { assert InLineOk(v, b, g); }
    forall g ensures Held(w, g) { assert Held(v, g); }
    forall t: nat ensures TimerOk(w, t) { assert TimerOk(v, t); }
    forall d ensures FdOk(w, d) { assert FdOk(v, d); }
  }

  lemma FdReadyKeeps(v: View, r: Option<Fid>, d: Fd)
    requires Inv(v, r) && d in v.fds
    ensures Inv(SwapIn(v, v.fds[d]), r)
  {
    var f := v.fds[d];
    assert FdOk(v, d) && Place(v, r, f) && Held(v, f);
    if Hung(v.Of(f).state) {
      SwapInPlaces(v, r, f);
      forall b ensures !(b in v.gates && f in v.gates[b].line) { assert InLineOk(v, b, f); }
      SwapInRest(v, f);
    }
  }

  // The timer's flag, and the fiber it belongs to out of reach of that timer.
  function Flagged(v: View, t: TimerId): View
    requires t in v.timers
  {
    var f := v.timers[t];
    v.Put(f, v.Of(f).(flag := true)).(timers := v.timers - {t})
  }

  lemma FlagKeeps(v: View, r: Option<Fid>, t: TimerId)
    requires Inv(v, r) && t in v.timers
    ensures var w := Flagged(v, t);
            && QueueOk(w, r) && Lined(w) && Registered(w) && CountsOk(w)
            && (forall g {:trigger Place(w, r, g)} :: g != v.timers[t] ==> Place(w, r, g))
            && (!Hung(w.Of(v.timers[t]).state) ==> Place(w, r, v.timers[t]))
  {
    var f, w := v.timers[t], Flagged(v, t);
    assert TimerOk(v, t);
    SameAlive(v, w);
    forall g ensures g != f || !Hung(w.Of(g).state) ==> Place(w, r, g) {
      assert Place(v, r, g);
      assert Held(v, g);
    }
    FlagRest(v, t);
  }

  lemma FlagRest(v: View, t: TimerId)
    requires Lined(v) && Registered(v) && t in v.timers && v.timers[t] in v.fibers
    ensures Lined(Flagged(v, t)) && Registered(Flagged(v, t))
  {
    var w := Flagged(v, t);
    forall b ensures LineOk(w, b) { assert LineOk(v, b); }
    forall b, g ensures InLineOk(w, b, g) { assert InLineOk(v, b, g); }
    forall g ensures Held(w, g) { assert Held(v, g); }
    forall u: nat ensures TimerOk(w, u) { assert TimerOk(v, u); }
    forall d ensures FdOk(w, d) { assert FdOk(v, d); }
  }

  lemma FireKeeps(v: View, r: Option<Fid>, t: TimerId)
    requires Inv(v, r)
    ensures Inv(Fire(v, t), r)
  {
    if t in v.timers {
      var f, w := v.timers[t], Flagged(v, t);
      assert TimerOk(v, t) && Place(v, r, f) && Held(v, f);
      FlagKeeps(v, r, t);
      if Hung(w.Of(f).state) {
        SwapInPlaces(w, r, f);
        forall b ensures b in w.gates && f in w.gates[b].line ==> w.Of(f).cont.timed { assert InLineOk(v, b, f); }
        SwapInRest(w, f);
      }
    }
  }

  lemma ProcessKeeps(v: View, r: Option<Fid>, e: Event)
    requires Inv(v, r)
    ensures Inv(Process(v, e), r)
  {
    match e
    case TimerFires(t) => FireKeeps(v, r, t);
    case FdReady(fd) => if fd in v.fds { FdReadyKeeps(v, r, fd); }
  }

  lemma {:induction false} ProcessAllKeeps(v: View, r: Option<Fid>, es: seq<Event>)
    requires Inv(v, r)
    ensures Inv(ProcessAll(v, es), r)
    decreases |es|
  {
    if es != [] {
      ProcessKeeps(v, r, es[0]);
      ProcessAllKeeps(Process(v, es[0]), r, es[1..]);
    }
  }

  // --- what the running fiber does ---

  // A blocker whose line is unchanged.
  lemma SameLineKeeps(v: View, r: Option<Fid>, b: Bid, g: Gate<Fid>)
    requires Inv(v, r) && b in v.gates && g.line == v.gates[b].line && (0 < g.wakeup ==> g.line == [])
    ensures Inv(v.PutGate(b, g), r)
  {
    var w := v.PutGate(b, g);
    SameAlive(v, w);
    forall h ensures Place(w, r, h) { assert Place(v, r, h); }
    forall c ensures LineOk(w, c) { assert LineOk(v, c) && LineOk(v, b); }
    forall c, h ensures InLineOk(w, c, h) { assert InLineOk(v, c, h); }
    RegisteredSame(v, w);
  }

  lemma RegisteredSame(v: View, w: View)
    requires Registered(v) && w.fibers == v.fibers && w.gates.Keys == v.gates.Keys
    requires w.timers == v.timers && w.pending == v.pending && w.fds == v.fds && w.nextTimer == v.nextTimer
    ensures Registered(w)
  {
    forall h ensures Held(w, h) { assert Held(v, h); }
    forall u: nat ensures TimerOk(w, u) { assert TimerOk(v, u); }
    forall d ensures FdOk(w, d) { assert FdOk(v, d); }
  }

  lemma TakeKeeps(v: View, r: Option<Fid>, b: Bid)
    requires Inv(v, r)
    ensures Inv(DoTake(v, b), r)
  {
    if b in v.gates {
      assert LineOk(v, b);
      SameLineKeeps(v, r, b, v.gates[b].Take().0);
    }
  }

  // The first fiber in line taken off it: everything but its own place holds.
  lemma PopKeeps(v: View, r: Option<Fid>, b: Bid)
    requires Inv(v, r) && b in v.gates && v.gates[b].line != []
    ensures var f, w := v.gates[b].line[0], v.PutGate(b, v.gates[b].WakeUp().0);
            && QueueOk(w, r) && Lined(w) && Registered(w) && CountsOk(w)
            && (forall g {:trigger Place(w, r, g)} :: g != f ==> Place(w, r, g))
            && (!Hung(w.Of(f).state) ==> Place(w, r, f))
            && (forall c :: c in w.gates ==> f !in w.gates[c].line)
            && (Hung(w.Of(f).state) ==> f !in v.runQ && r != Some(f))
  {
    var f, w := v.gates[b].line[0], v.PutGate(b, v.gates[b].WakeUp().0);
    assert LineOk(v, b) && InLineOk(v, b, f) && Place(v, r, f);
    SameAlive(v, w);
    forall c ensures LineOk(w, c) { assert LineOk(v, c); }
    forall c, h ensures InLineOk(w, c, h) { assert InLineOk(v, c, h); }
    forall c | c in w.gates ensures f !in w.gates[c].line { assert InLineOk(v, c, f); }
    RegisteredSame(v, w);
    forall g ensures g != f || !Hung(w.Of(g).state) ==> Place(w, r, g) { assert Place(v, r, g); }
  }

  lemma WakeKeeps(v: View, r: Option<Fid>, b: Bid)
    requires Inv(v, r)
    ensures Inv(DoWake(v, b), r)
  {
    if b in v.gates {
      if v.gates[b].line == [] {
        SameLineKeeps(v, r, b, v.gates[b].WakeUp().0);
      } else {
        var f, w := v.gates[b].line[0], v.PutGate(b, v.gates[b].WakeUp().0);
        PopKeeps(v, r, b);
        if Hung(w.Of(f).state) {
          SwapInPlaces(w, r, f);
          SwapInRest(w, f);
        }
      }
    }
  }

  lemma ScheduleKeeps(v: View, r: Option<Fid>, g: Fid)
    requires Inv(v, r)
    ensures Inv(DoSchedule(v, g), r)
  {
    if g !in v.fibers {
      ScheduleCounts(v, g);
      SchedulePlaces(v, r, g);
      ScheduleRest(v, g);
    }
  }

  lemma ScheduleCounts(v: View, g: Fid)
    requires CountsOk(v) && g !in v.fibers
    ensures CountsOk(DoSchedule(v, g))
  {
    assert Alive(DoSchedule(v, g)) == Alive(v) + {g};
  }

  lemma SchedulePlaces(v: View, r: Option<Fid>, g: Fid)
    requires Placed(v, r) && g !in v.fibers
    ensures Placed(DoSchedule(v, g), r)
  {
    var w := DoSchedule(v, g);
    DistinctConcat(v.runQ, [g]);
    forall f ensures Place(w, r, f) { assert Place(v, r, f); }
  }

  lemma ScheduleRest(v: View, g: Fid)
    requires Lined(v) && Registered(v) && g !in v.fibers
    ensures Lined(DoSchedule(v, g)) && Registered(DoSchedule(v, g))
  {
    var w := DoSchedule(v, g);
    forall b ensures LineOk(w, b) { assert LineOk(v, b); }
    forall b, f ensures InLineOk(w, b, f) { assert InLineOk(v, b, f); }
    forall f ensures Held(w, f) { assert Held(v, f); }
    forall t: nat ensures TimerOk(w, t) { assert TimerOk(v, t); }
    forall d ensures FdOk(w, d) { assert FdOk(v, d); }
  }

  // --- back from a yield ---

  ghost predicate Running(v: View, f: Fid) {
    f in v.fibers && v.fibers[f].state == RUNNABLE && v.fibers[f].cont == PLAIN
  }

  // A running fiber with nothing set up is in no line and owns no timer and no
  // descriptor.
  lemma PlainIsFree(v: View, f: Fid)
    requires Lined(v) && Registered(v) && v.Of(f).cont == PLAIN
    ensures forall b :: b in v.gates ==> f !in v.gates[b].line
    ensures forall t :: t in v.pending ==> v.pending[t] != f
    ensures forall d :: d in v.fds ==> v.fds[d] != f
  {
    forall b | b in v.gates ensures f !in v.gates[b].line { assert InLineOk(v, b, f); }
    forall t | t in v.pending ensures v.pending[t] != f { assert TimerOk(v, t); }
    forall d | d in v.fds ensures v.fds[d] != f { assert FdOk(v, d); }
  }

  lemma ResumeLines(v: View, f: Fid)
    requires Lined(v) && Held(v, f) && f in v.fibers && v.fibers[f].state == RUNNABLE
    ensures Lined(Resume(v, f))
    ensures forall b, g {:trigger g in Resume(v, f).GateOf(b).line} :: g in v.GateOf(b).line && g != f ==> g in Resume(v, f).GateOf(b).line
  {
    var w, x := Resume(v, f), v.Of(f);
    if x.cont.gate.Some? {
      assert LineOk(v, x.cont.gate.value);
      WithoutMembers(v.GateOf(x.cont.gate.value).line, f);
    }
    forall b ensures LineOk(w, b) { assert LineOk(v, b); }
    forall b, g ensures InLineOk(w, b, g) { assert InLineOk(v, b, g); assert InLineOk(v, b, f); }
  }

  lemma ResumeRegisters(v: View, f: Fid)
    requires Registered(v) && f in v.fibers
    ensures Registered(Resume(v, f))
  {
    var w, x := Resume(v, f), v.Of(f);
    assert Held(v, f);
    forall g ensures Held(w, g) { assert Held(v, g); }
    forall t: nat ensures TimerOk(w, t) { assert TimerOk(v, t); }
    forall d ensures FdOk(w, d) { assert FdOk(v, d); }
  }

  lemma CardMinus<T>(a: set<T>, b: set<T>)
    requires b <= a
    ensures |a - b| == |a| - |b|
  {
    assert a == (a - b) + b;
  }

  lemma CardPlus<T>(a: set<T>, b: set<T>)
    requires a !! b
    ensures |a + b| == |a| + |b|
  {
    assert (a + b) - b == a;
  }

  lemma ResumeCounts(v: View, f: Fid)
    requires CountsOk(v) && Held(v, f) && f in v.fibers && v.fibers[f].state == RUNNABLE
    ensures CountsOk(Resume(v, f))
  {
    var w, c := Resume(v, f), v.Of(f).cont;
    SameAlive(v, w);
    CardMinus(v.fds.Keys, c.fds);
    CardMinus(v.pending.Keys, TimerSet(c));
    assert w.fds.Keys == v.fds.Keys - c.fds && w.pending.Keys == v.pending.Keys - TimerSet(c);
  }

  lemma ResumeKeeps(v: View, f: Fid)
    requires Inv(v, Some(f))
    ensures Inv(Resume(v, f), Some(f)) && Running(Resume(v, f), f)
  {
    var w := Resume(v, f);
    assert Place(v, Some(f), f) && Held(v, f);
    ResumeLines(v, f);
    ResumeRegisters(v, f);
    ResumeCounts(v, f);
    forall g ensures Place(w, Some(f), g) {
      assert Place(v, Some(f), g);
      assert Held(v, g);
      if g in v.fibers && v.Of(g).cont.gate.Some? {
        var _ := g in w.GateOf(v.Of(g).cont.gate.value).line;
      }
    }
  }
}
