/**
 * Thread affinity in `join(n)`: whatever is woken late or times out, a fiber
 * stays with one worker.  The linked queues are FIFOs as long as no fiber is
 * added that stands in one already, so this is over the runs without such a
 * step.
 */
module WorkerAffinity {
  import opened Base
  import opened Blocker
  import opened RunQueue
  import opened Workers

  // The worker has a fiber on its thread; `Started` once the fiber is bound.
  predicate Holds(w: Worker) {
    || w.pc in {FOUND, RUNNING, SCHEDULING, SWITCH}
    || (w.pc in {WAKING, ADDING} && w.back in {FOUND, RUNNING})
  }

  predicate Started(w: Worker) {
    || w.pc in {RUNNING, SCHEDULING, SWITCH}
    || (w.pc in {WAKING, ADDING} && w.back == RUNNING)
  }

  predicate BoundTo(x: FiberRec, k: Wid) {
    x.bound == None || x.bound == Some(k)
  }

  ghost predicate QueuedHere(s: State, k: Wid, f: Fid) {
    k < |s.queues| && f in s.queues[k] ==>
      f in s.fibers && BoundTo(s.fibers[f], k) && (s.fibers[f].bound == None ==> s.fibers[f].loc == Queued(k))
  }

  ghost predicate QueuedOnce(s: State, k: Wid) {
    k < |s.queues| ==> Distinct(s.queues[k])
  }

  ghost predicate HeldHere(s: State, k: Wid) {
    k < |s.workers| ==>
      var w := s.workers[k];
      && (Holds(w) ==>
            && w.fiber in s.fibers && BoundTo(s.fibers[w.fiber], k)
            && (Started(w) ==> s.fibers[w.fiber].bound == Some(k))
            && (s.fibers[w.fiber].bound == None ==> s.fibers[w.fiber].loc == OnThread(k)))
      && (w.pc == SCHEDULING ==> w.other in s.fibers && s.fibers[w.other].bound == None && s.fibers[w.other].loc == Child(k))
      && (w.pc in {WAKING, ADDING} ==> w.back in {RUNNING, IDLE, FOUND})
      && (w.pc == ADDING ==> w.other in s.fibers && s.fibers[w.other].bound.Some?)
  }

  // A fiber that is not bound yet has never run: nothing can wake it.
  ghost predicate OneHome(s: State, f: Fid) {
    f in s.fibers ==>
      var x := s.fibers[f];
      && (x.bound.Some? ==> x.index == x.bound.value < |s.queues|)
      && (x.bound.None? ==> x.state == RUNNABLE && (x.loc.Queued? || x.loc.OnThread? || x.loc.Child?))
  }

  ghost predicate Aff(s: State) {
    && 0 < |s.workers| == |s.queues|
    && (forall k, f {:trigger QueuedHere(s, k, f)} :: QueuedHere(s, k, f))
    && (forall k {:trigger QueuedOnce(s, k)} :: QueuedOnce(s, k))
    && (forall k {:trigger HeldHere(s, k)} :: HeldHere(s, k))
    && (forall f {:trigger OneHome(s, f)} :: OneHome(s, f))
  }

  // The fiber that a step adds to a queue.
  function Added(s: State, a: Step): Option<Fid>
    requires Enabled(s, a)
  {
    match a
    case AddChild(k) => Some(s.workers[k].other)
    case Add(k) => Some(s.workers[k].other)
    case Switch(k) => if DoSwitch(s, k).queues == s.queues then None else Some(s.workers[k].fiber)
    case _ => None
  }

  ghost predicate Unqueued(s: State, f: Fid) {
    forall k :: 0 <= k < |s.queues| ==> f !in s.queues[k]
  }

  // No step adds a fiber that stands in a queue: its node would be linked twice.
  ghost predicate LinksOnce(s: State, a: Step) {
    Enabled(s, a) && (Added(s, a).Some? ==> Unqueued(s, Added(s, a).value))
  }

  // A change of fibers, each of which keeps its home, that leaves the queues
  // alone.
  lemma SameQueues(s: State, t: State)
    requires Aff(s) && t.queues == s.queues && |t.workers| == |s.workers| && s.fibers.Keys <= t.fibers.Keys
    requires forall f :: f in s.fibers ==>
               && (t.fibers[f].bound == s.fibers[f].bound || s.fibers[f].bound == None)
               && (s.fibers[f].bound == None ==>
                     (t.fibers[f].bound == None && t.fibers[f].loc == s.fibers[f].loc) || !s.fibers[f].loc.Queued?)
    requires forall k {:trigger HeldHere(t, k)} :: HeldHere(t, k)
    requires forall f {:trigger OneHome(t, f)} :: OneHome(t, f)
    ensures Aff(t)
  {
    forall k: nat, f: nat ensures QueuedHere(t, k, f) { assert QueuedHere(s, k, f); }
    forall k: nat ensures QueuedOnce(t, k) { assert QueuedOnce(s, k); }
  }

  // A fiber that is not new and bound elsewhere goes to the back of a queue.
  lemma PushQueue(s: State, t: State, q: Wid, f: Fid)
    requires Aff(s) && q < |s.queues| && t.queues == s.queues[q := s.queues[q] + [f]] && |t.workers| == |s.workers|
    requires f in s.fibers && t.fibers == s.fibers[f := s.fibers[f].(state := t.Of(f).state, loc := Queued(q))]
    requires s.fibers[f].bound == Some(q) || (s.fibers[f].bound == None && !s.fibers[f].loc.Queued?)
    requires f !in s.queues[q]
    requires forall k {:trigger HeldHere(t, k)} :: HeldHere(t, k)
    requires forall g {:trigger OneHome(t, g)} :: OneHome(t, g)
    ensures Aff(t)
  {
    forall k: nat, g: nat ensures QueuedHere(t, k, g) { assert QueuedHere(s, k, g); }
    assert QueuedOnce(s, q);
    DistinctConcat(s.queues[q], [f]);
    forall k: nat ensures QueuedOnce(t, k) { assert QueuedOnce(s, k); }
  }

  // A bound fiber that is queued already is so in its own queue, which then
  // holds it twice.
  lemma TwiceInQueue(s: State, t: State, q: Wid, f: Fid)
    requires Aff(s) && q < |s.queues| && t.queues == s.queues[q := s.queues[q] + [f]]
    requires f in s.fibers && s.fibers[f].bound == Some(q) && !Unqueued(s, f)
    ensures !Aff(t)
  {
    var j :| 0 <= j < |s.queues| && f in s.queues[j];
    assert QueuedHere(s, j, f);
    var i :| 0 <= i < |s.queues[q]| && s.queues[q][i] == f;
    assert t.queues[q][i] == t.queues[q][|s.queues[q]|];
    assert !QueuedOnce(t, q);
  }

  lemma PopQueue(s: State, t: State, k0: Wid)
    requires Aff(s) && s.At(k0, POLL) && s.queues[k0] != [] && t == DoPoll(s, k0)
    ensures Aff(t)
  {
    var f0 := s.queues[k0][0];
    assert QueuedHere(s, k0, f0) && f0 in s.queues[k0];
    assert s.queues[k0] == [f0] + t.queues[k0];
    forall k: nat, f: nat ensures QueuedHere(t, k, f) { assert QueuedHere(s, k, f) && QueuedOnce(s, k); }
    forall k: nat ensures QueuedOnce(t, k) { assert QueuedOnce(s, k); }
    forall k: nat ensures HeldHere(t, k) { assert HeldHere(s, k); }
    forall f: nat ensures OneHome(t, f) { assert OneHome(s, f); }
  }

  // A step that leaves queues alone and gives no fiber another home.
  lemma QuietKeeps(s: State, t: State, k: Wid)
    requires Aff(s) && t.queues == s.queues && k < |s.workers| && |t.workers| == |s.workers| && s.fibers.Keys == t.fibers.Keys
    requires forall j :: 0 <= j < |s.workers| && j != k ==> t.workers[j] == s.workers[j]
    requires forall f :: f in s.fibers ==> t.fibers[f].bound == s.fibers[f].bound
    requires forall f :: f in s.fibers ==> t.fibers[f].index == s.fibers[f].index
    requires forall f :: f in s.fibers && s.fibers[f].bound == None ==>
               t.fibers[f].loc == s.fibers[f].loc && t.fibers[f].state == s.fibers[f].state
    requires HeldHere(t, k)
    ensures Aff(t)
  {
    forall j: nat ensures HeldHere(t, j) { assert HeldHere(s, j); }
    forall f: nat ensures OneHome(t, f) { assert OneHome(s, f); }
    SameQueues(s, t);
  }

  lemma StartAff(s: State, k: Wid)
    requires Aff(s) && s.At(k, FOUND)
    ensures Aff(DoStart(s, k))
  {
    var t, f := DoStart(s, k), s.workers[k].fiber;
    assert HeldHere(s, k) && OneHome(s, f);
    forall j: nat ensures HeldHere(t, j) { assert HeldHere(s, j); }
    forall g: nat ensures OneHome(t, g) { assert OneHome(s, g); }
    SameQueues(s, t);
  }

  lemma CountAff(s: State, k: Wid, g: Fid, inherit: bool)
    requires Aff(s) && s.At(k, RUNNING) && g !in s.fibers
    ensures Aff(DoCount(s, k, g, inherit))
  {
    var t := DoCount(s, k, g, inherit);
    assert HeldHere(s, k);
    forall j: nat ensures HeldHere(t, j) { assert HeldHere(s, j); }
    forall f: nat ensures OneHome(t, f) { assert OneHome(s, f); }
    SameQueues(s, t);
  }

  lemma AddChildAff(s: State, k: Wid)
    requires Aff(s) && s.At(k, SCHEDULING)
    ensures Aff(DoAddChild(s, k)) && ChildQueue(s, k) < |s.queues| && Unqueued(s, s.workers[k].other)
  {
    var t, g := DoAddChild(s, k), s.workers[k].other;
    assert HeldHere(s, k) && OneHome(s, s.workers[k].fiber);
    forall j: nat ensures HeldHere(t, j) { assert HeldHere(s, j); }
    forall f: nat ensures OneHome(t, f) { assert OneHome(s, f); }
    forall j | 0 <= j < |s.queues| ensures g !in s.queues[j] { assert QueuedHere(s, j, g); }
    PushQueue(s, t, ChildQueue(s, k), g);
  }

  lemma AddAff(s: State, k: Wid)
    requires Aff(s) && s.At(k, ADDING)
    ensures Aff(DoAdd(s, k)) <==> Unqueued(s, s.workers[k].other)
  {
    var t, f := DoAdd(s, k), s.workers[k].other;
    assert HeldHere(s, k) && OneHome(s, f);
    forall j: nat ensures HeldHere(t, j) { assert HeldHere(s, j); }
    forall g: nat ensures OneHome(t, g) { assert OneHome(s, g); }
    if Unqueued(s, f) {
      PushQueue(s, t, s.fibers[f].bound.value, f);
    } else {
      TwiceInQueue(s, t, s.fibers[f].bound.value, f);
    }
  }

  lemma RequeueAff(s: State, k: Wid, gates: map<Bid, Gate<Fid>>)
    requires Aff(s) && s.At(k, SWITCH)
    ensures Aff(Requeue(s, k).(gates := gates)) <==> Unqueued(s, s.workers[k].fiber)
  {
    var t, f := Requeue(s, k).(gates := gates), s.workers[k].fiber;
    assert HeldHere(s, k) && OneHome(s, f);
    forall j: nat ensures HeldHere(t, j) { assert HeldHere(s, j); }
    forall g: nat ensures OneHome(t, g) { assert OneHome(s, g); }
    if Unqueued(s, f) {
      PushQueue(s, t, k, f);
    } else {
      TwiceInQueue(s, t, k, f);
    }
  }

  // The fiber is parked, sleeps or has ended.
  lemma LeavesAff(s: State, k: Wid)
    requires Aff(s) && s.At(k, SWITCH) && DoSwitch(s, k).queues == s.queues
    ensures Aff(DoSwitch(s, k))
  {
    assert HeldHere(s, k);
    LeavesIs(s, k);
    LeftAff(s, DoSwitch(s, k), k);
  }

  lemma LeavesIs(s: State, k: Wid)
    requires s.At(k, SWITCH) && DoSwitch(s, k).queues == s.queues && s.workers[k].fiber in s.fibers
    ensures Leaves(s, DoSwitch(s, k), k)
  {
  }

  // The worker's fiber is somewhere else, and the worker goes round.
  predicate Leaves(s: State, t: State, k: Wid)
    requires k < |s.workers|
  {
    var f := s.workers[k].fiber;
    && f in s.fibers && t.queues == s.queues && t.workers == s.workers[k := s.workers[k].(pc := READ)]
    && t.fibers == s.fibers[f := s.fibers[f].(loc := t.Of(f).loc)]
  }

  lemma LeftAff(s: State, t: State, k: Wid)
    requires Aff(s) && s.At(k, SWITCH) && Leaves(s, t, k)
    ensures Aff(t)
  {
    assert HeldHere(s, k);
    QuietKeeps(s, t, k);
  }

  lemma SwitchAff(s: State, k: Wid)
    requires Aff(s) && s.At(k, SWITCH)
    ensures Aff(DoSwitch(s, k)) <==> LinksOnce(s, Switch(k))
  {
    var t := DoSwitch(s, k);
    if t.queues == s.queues {
      LeavesAff(s, k);
    } else {
      RequeueAff(s, k, t.gates);
    }
  }

  lemma CheckAff(s: State, k: Wid)
    requires Aff(s) && s.At(k, WAKING)
    ensures Aff(DoCheck(s, k))
  {
    assert HeldHere(s, k) && OneHome(s, s.workers[k].other);
    QuietKeeps(s, DoCheck(s, k), k);
  }

  lemma QuietAff(s: State, a: Step)
    requires Aff(s) && Enabled(s, a) && !a.Poll? && !a.Start? && !a.Count? && !a.AddChild? && !a.Check? && !a.Add? && !a.Switch?
    ensures Aff(Apply(s, a))
  {
    assert HeldHere(s, a.k);
    QuietKeeps(s, Apply(s, a), a.k);
  }

  // Every step keeps every fiber with its worker, in its queue once at most, if
  // and only if it adds no fiber that stands in a queue.
  lemma StepKeepsAffIff(s: State, a: Step)
    requires Aff(s) && Enabled(s, a)
    ensures Aff(Apply(s, a)) <==> LinksOnce(s, a)
  {
    assert HeldHere(s, a.k);
    match a
    case Poll(k) => if s.queues[k] == [] { QuietKeeps(s, DoPoll(s, k), k); } else { PopQueue(s, DoPoll(s, k), k); }
    case Start(k) => StartAff(s, k);
    case Count(k, g, inherit) => CountAff(s, k, g, inherit);
    case AddChild(k) => AddChildAff(s, k);
    case Check(k) => CheckAff(s, k);
    case Add(k) => AddAff(s, k);
    case Switch(k) => SwitchAff(s, k);
    case _ => QuietAff(s, a);
  }

  lemma InitAff(s: State)
    requires Init(s)
    ensures Aff(s)
  {
    forall k: nat, f: nat ensures QueuedHere(s, k, f) { InitQueued(s, k, f); }
    forall k: nat ensures QueuedOnce(s, k) {}
    forall k: nat ensures HeldHere(s, k) {}
    forall f: nat ensures OneHome(s, f) { InitHome(s, f); }
  }

  lemma InitQueued(s: State, k: Wid, f: Fid)
    requires Init(s)
    ensures QueuedHere(s, k, f)
  {
  }

  lemma InitHome(s: State, f: Fid)
    requires Init(s)
    ensures OneHome(s, f)
  {
  }

  // A run on linked queues.
  ghost predicate LinkedRun(ss: seq<State>, steps: seq<Step>) {
    Run(ss, steps) && forall i {:trigger steps[i]} :: 0 <= i < |steps| ==> LinksOnce(ss[i], steps[i])
  }

  ghost predicate LinkedReachable(s: State) {
    exists ss, steps {:trigger LinkedRun(ss, steps)} :: LinkedRun(ss, steps) && ss[|steps|] == s
  }

  lemma {:induction false} RunAff(ss: seq<State>, steps: seq<Step>, n: nat)
    requires LinkedRun(ss, steps) && n <= |steps|
    ensures Aff(ss[n])
  {
    if n == 0 {
      InitAff(ss[0]);
    } else {
      RunAff(ss, steps, n - 1);
      assert StepsTo(ss[n - 1], steps[n - 1], ss[n]);
      StepKeepsAffIff(ss[n - 1], steps[n - 1]);
    }
  }

  // --- whose a fiber is ---

  // Fiber `f` is worker `k`'s: bound to its queue, or still to be dispatched
  // from it for the first time.
  predicate BelongsTo(s: State, f: Fid, k: Wid) {
    && f in s.fibers && BoundTo(s.fibers[f], k)
    && (s.fibers[f].bound == None ==> s.fibers[f].loc in {Queued(k), OnThread(k)})
  }

  lemma StepKeepsOwner(s: State, a: Step, f: Fid, k: Wid)
    requires Aff(s) && Enabled(s, a) && BelongsTo(s, f, k)
    ensures BelongsTo(Apply(s, a), f, k)
  {
    assert HeldHere(s, a.k);
    if a.Poll? { PollKeepsOwner(s, a.k, f, k); }
    else if a.Switch? { SwitchKeepsOwner(s, a.k, f, k); }
    else if a.Add? || a.AddChild? { AddKeepsOwner(s, a, f, k); }
    else if a.Start? || a.Count? { StartKeepsOwner(s, a, f, k); }
  }

  lemma PollKeepsOwner(s: State, j: Wid, f: Fid, k: Wid)
    requires Aff(s) && s.At(j, POLL) && BelongsTo(s, f, k)
    ensures BelongsTo(DoPoll(s, j), f, k)
  {
    if s.queues[j] != [] {
      assert s.queues[j][0] in s.queues[j] && QueuedHere(s, j, s.queues[j][0]);
    }
  }

  lemma SwitchKeepsOwner(s: State, j: Wid, f: Fid, k: Wid)
    requires Aff(s) && s.At(j, SWITCH) && BelongsTo(s, f, k)
    ensures BelongsTo(DoSwitch(s, j), f, k)
  {
    assert HeldHere(s, j);
  }

  lemma AddKeepsOwner(s: State, a: Step, f: Fid, k: Wid)
    requires Aff(s) && Enabled(s, a) && BelongsTo(s, f, k) && (a.Add? || a.AddChild?)
    ensures BelongsTo(Apply(s, a), f, k)
  {
    assert HeldHere(s, a.k);
  }

  lemma StartKeepsOwner(s: State, a: Step, f: Fid, k: Wid)
    requires Aff(s) && Enabled(s, a) && BelongsTo(s, f, k) && (a.Start? || a.Count?)
    ensures BelongsTo(Apply(s, a), f, k)
  {
    assert HeldHere(s, a.k);
  }

  lemma {:induction false} OwnerStays(ss: seq<State>, steps: seq<Step>, i: nat, n: nat, f: Fid, k: Wid)
    requires LinkedRun(ss, steps) && i <= n <= |steps| && BelongsTo(ss[i], f, k)
    ensures BelongsTo(ss[n], f, k)
    decreases n
  {
    if i < n {
      OwnerStays(ss, steps, i, n - 1, f, k);
      RunAff(ss, steps, n - 1);
      assert StepsTo(ss[n - 1], steps[n - 1], ss[n]);
      StepKeepsOwner(ss[n - 1], steps[n - 1], f, k);
    }
  }

  // Thread affinity, over every run on linked queues: a fiber that is worker k's
  // at one point is worker k's at every later one; it is queued only in k's queue and runs only on k's
  // thread, through yields, timeouts, wake-ups from other threads and events,
  // early or late.
  lemma Affinity(ss: seq<State>, steps: seq<Step>, i: nat, n: nat, f: Fid, k: Wid)
    requires LinkedRun(ss, steps) && i <= n <= |steps| && BelongsTo(ss[i], f, k)
    ensures BelongsTo(ss[n], f, k)
    ensures forall j :: 0 <= j < |ss[n].queues| && f in ss[n].queues[j] ==> j == k
    ensures forall j :: 0 <= j < |ss[n].workers| && Holds(ss[n].workers[j]) && ss[n].workers[j].fiber == f ==> j == k
  {
    OwnerStays(ss, steps, i, n, f, k);
    RunAff(ss, steps, n);
    WhereOwned(ss[n], f, k);
  }

  lemma WhereOwned(t: State, f: Fid, k: Wid)
    requires Aff(t) && BelongsTo(t, f, k)
    ensures forall j :: 0 <= j < |t.queues| && f in t.queues[j] ==> j == k
    ensures forall j :: 0 <= j < |t.workers| && Holds(t.workers[j]) && t.workers[j].fiber == f ==> j == k
  {
    forall j | 0 <= j < |t.queues| && f in t.queues[j] ensures j == k { assert QueuedHere(t, j, f); }
    forall j | 0 <= j < |t.workers| && Holds(t.workers[j]) && t.workers[j].fiber == f ensures j == k {
      assert HeldHere(t, j);
    }
  }

  // A fiber becomes worker k's by being put in k's queue: the child of an
  // inheriting schedule becomes the scheduling fiber's own worker's, any other
  // child the next worker's in turn.
  lemma ChildBelongs(s: State, k: Wid)
    requires Aff(s) && s.At(k, SCHEDULING)
    ensures BelongsTo(DoAddChild(s, k), s.workers[k].other, if s.workers[k].inherit then k else s.balance % |s.queues|)
  {
    assert HeldHere(s, k) && OneHome(s, s.workers[k].fiber);
  }

  // A fiber that was queued before the workers started belongs to that queue.
  lemma DealtBelongs(s: State, k: Wid, f: Fid)
    requires Init(s) && k < |s.queues| && f in s.queues[k]
    ensures BelongsTo(s, f, k)
  {
  }

  // So no fiber is ever on two threads.
  lemma OneThread(s: State, j: Wid, k: Wid)
    requires Aff(s) && j < |s.workers| && k < |s.workers| && Holds(s.workers[j]) && Holds(s.workers[k])
    requires s.workers[j].fiber == s.workers[k].fiber
    ensures j == k
  {
    assert HeldHere(s, j) && HeldHere(s, k);
  }
}
