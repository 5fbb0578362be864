/**
 * What the workers of `join(n)` keep under every interleaving in which fibers
 * are resumed in time, and when they may leave.
 */
module WorkerRuns {
  import opened Base
  import opened Blocker
  import opened RunQueue
  import opened Workers
  import opened WorkerAffinity

  // --- resuming in time ---

  predicate InLine(s: State, b: Bid, f: Fid) {
    b in s.gates && f in s.gates[b].line
  }

  // A fiber still in a line may be resumed only if it timed out there.
  ghost predicate OutOfLines(s: State, f: Fid) {
    forall b: Bid {:trigger InLine(s, b, f)} :: InLine(s, b, f) ==> s.Of(f).flag && s.Of(f).cont.timed == Some(b)
  }

  predicate AddedBy(s: State, j: Wid, f: Fid) {
    j < |s.workers| && s.workers[j].pc == ADDING && s.workers[j].other == f
  }

  // A worker that finds a fiber marked WAITING or BLOCKED goes on to queue it.
  // That is in time if the fiber really hangs, no other worker is queueing it,
  // and nothing but a timeout resumes it from a line.
  ghost predicate InTime(s: State, f: Fid) {
    IsHung(s.Of(f).state) ==>
      s.Of(f).loc == Hung && OutOfLines(s, f) && forall j {:trigger AddedBy(s, j, f)} :: !AddedBy(s, j, f)
  }

  ghost predicate Careful(s: State, a: Step) {
    a.Check? && a.k < |s.workers| ==> InTime(s, s.workers[a.k].other)
  }

  // --- the invariant ---

  // A worker with a fiber on its thread, and what the others of its fibers are
  // up to; a worker that read zero, or left, did so when the count was final.
  ghost predicate WorkerOk(s: State, k: Wid) {
    k < |s.workers| ==>
      var w := s.workers[k];
      && (Holds(w) ==>
            && w.fiber in s.fibers && s.fibers[w.fiber].loc == OnThread(k)
            && (Started(w) ==> s.fibers[w.fiber].cont == PLAIN || (w.pc == SWITCH && IsHung(s.fibers[w.fiber].state)))
            && (w.pc != SWITCH ==> s.fibers[w.fiber].state in {RUNNABLE, BLOCKED}))
      && (w.pc == SCHEDULING ==> w.other in s.fibers && s.fibers[w.other].loc == Child(k))
      && (w.pc == WAKING ==> w.other in s.fibers)
      && (w.pc == ADDING ==> w.other in s.fibers && s.fibers[w.other].loc == Hung && IsHung(s.fibers[w.other].state))
      && (Leaving(w) ==> s.total <= 0)
  }

  predicate Leaving(w: Worker) {
    w.pc == EXITED || (w.pc == POLL && w.total <= 0)
  }

  ghost predicate AddOnce(s: State, j: Wid, k: Wid) {
    j < |s.workers| && k < |s.workers| && AddedBy(s, j, s.workers[k].other) && s.workers[k].pc == ADDING ==> j == k
  }

  ghost predicate AddedOutOfLines(s: State, k: Wid) {
    k < |s.workers| && s.workers[k].pc == ADDING ==> OutOfLines(s, s.workers[k].other)
  }

  // A fiber that has been started is in no line.
  ghost predicate RunsOutOfLines(s: State, k: Wid) {
    k < |s.workers| && Started(s.workers[k]) ==> forall b: Bid {:trigger InLine(s, b, s.workers[k].fiber)} :: !InLine(s, b, s.workers[k].fiber)
  }

  ghost predicate InQueue(s: State, k: Wid, f: Fid) {
    k < |s.queues| ==> (f in s.queues[k] <==> f in s.fibers && s.fibers[f].loc == Queued(k))
  }

  ghost predicate LineOk(s: State, b: Bid) {
    b in s.gates ==> Distinct(s.gates[b].line)
  }

  predicate Lingers(s: State, b: Bid, f: Fid) {
    || (s.Of(f).loc == Hung && s.Of(f).state == BLOCKED)
    || (s.Of(f).flag && s.Of(f).cont.timed == Some(b) && s.Of(f).loc != Gone)
  }

  // A fiber in line hangs there BLOCKED, or has timed out and will leave the
  // line when it runs.
  ghost predicate InLineOk(s: State, b: Bid, f: Fid) {
    InLine(s, b, f) ==>
      f in s.fibers && s.fibers[f].gate == Some(b) && Lingers(s, b, f)
  }

  ghost predicate FiberOk(s: State, f: Fid) {
    f in s.fibers ==>
      var x := s.fibers[f];
      && (x.state == BLOCKED ==> x.gate.Some? && x.gate.value in s.gates)
      && (x.cont.timed.Some? ==> x.cont.timed.value in s.gates)
      && match x.loc
         case Queued(k) => k < |s.queues| && x.state in {RUNNABLE, BLOCKED}
         case OnThread(k) => k < |s.queues| && x.state != NEW
         case Child(_) => x.state == RUNNABLE && x.cont == PLAIN
         case Hung => x.state in {BLOCKED, WAITING}
         case Gone => x.state == TERMINATED && x.cont == PLAIN
  }

  function Alive(s: State): set<Fid> {
    set f | f in s.fibers && s.fibers[f].loc != Gone
  }

  ghost predicate TotalOk(s: State) {
    s.total == |Alive(s)|
  }

  ghost predicate WorkersOk(s: State) {
    && (forall k {:trigger WorkerOk(s, k)} :: WorkerOk(s, k))
    && (forall j, k {:trigger AddOnce(s, j, k)} :: AddOnce(s, j, k))
    && (forall k {:trigger AddedOutOfLines(s, k)} :: AddedOutOfLines(s, k))
    && (forall k {:trigger RunsOutOfLines(s, k)} :: RunsOutOfLines(s, k))
  }

  ghost predicate QueuesOk(s: State) {
    && (forall k {:trigger QueuedOnce(s, k)} :: QueuedOnce(s, k))
    && (forall k, f {:trigger InQueue(s, k, f)} :: InQueue(s, k, f))
  }

  ghost predicate LinesOk(s: State) {
    && (forall b {:trigger LineOk(s, b)} :: LineOk(s, b))
    && (forall b, f {:trigger InLineOk(s, b, f)} :: InLineOk(s, b, f))
  }

  ghost predicate FibersOk(s: State) {
    forall f {:trigger FiberOk(s, f)} :: FiberOk(s, f)
  }

  ghost predicate Inv(s: State) {
    Aff(s) && WorkersOk(s) && QueuesOk(s) && LinesOk(s) && FibersOk(s) && TotalOk(s)
  }

  // Whoever holds a live fiber knows that the count is not zero.
  lemma HolderCounts(s: State, f: Fid)
    requires TotalOk(s) && f in s.fibers && s.fibers[f].loc != Gone
    ensures 0 < s.total
  {
    assert f in Alive(s);
  }

  // --- queues, lines and counts, for the changes a step can make ---

  lemma SameQueues(s: State, t: State)
    requires QueuesOk(s) && t.queues == s.queues
    requires forall f, k :: (f in s.fibers && s.fibers[f].loc == Queued(k)) <==> (f in t.fibers && t.fibers[f].loc == Queued(k))
    ensures QueuesOk(t)
  {
    forall k: nat ensures QueuedOnce(t, k) { assert QueuedOnce(s, k); }
    forall k: nat, f: nat ensures InQueue(t, k, f) { assert InQueue(s, k, f); }
  }

  // A fiber that is in no queue goes to the back of one.
  lemma EnqueueKeeps(s: State, t: State, q: Wid, f: Fid)
    requires QueuesOk(s) && q < |s.queues| && t.queues == s.queues[q := s.queues[q] + [f]]
    requires f in s.fibers && !s.fibers[f].loc.Queued? && t.fibers.Keys == s.fibers.Keys
    requires t.fibers[f].loc == Queued(q)
    requires forall g :: g in s.fibers && g != f ==> t.fibers[g].loc == s.fibers[g].loc
    ensures QueuesOk(t)
  {
    assert InQueue(s, q, f) && QueuedOnce(s, q);
    DistinctConcat(s.queues[q], [f]);
    forall k: nat ensures QueuedOnce(t, k) { assert QueuedOnce(s, k); }
    forall k: nat, g: nat ensures InQueue(t, k, g) { assert InQueue(s, k, g); }
  }

  lemma TakeFirstKeeps(s: State, k: Wid, t: State)
    requires QueuesOk(s) && s.At(k, POLL) && s.queues[k] != [] && t == DoPoll(s, k)
    ensures QueuesOk(t) && s.queues[k][0] in s.fibers && s.fibers[s.queues[k][0]].loc == Queued(k)
  {
    var f := s.queues[k][0];
    assert InQueue(s, k, f) && QueuedOnce(s, k) && f in s.queues[k];
    assert s.queues[k] == [f] + t.queues[k];
    forall j: nat ensures QueuedOnce(t, j) { assert QueuedOnce(s, j); }
    forall j: nat, g: nat ensures InQueue(t, j, g) { assert InQueue(s, j, g); }
  }

  // No line gains a fiber, and those still in line are as they were.
  lemma SameLines(s: State, t: State)
    requires LinesOk(s)
    requires forall b :: b in t.gates ==> b in s.gates && (t.gates[b].line == s.gates[b].line || Distinct(t.gates[b].line))
    requires forall b: Bid, f: Fid {:trigger InLine(t, b, f)} ::
               InLine(t, b, f) && InLineOk(s, b, f) ==>
                 InLine(s, b, f) && f in t.fibers && t.fibers[f].gate == s.Of(f).gate && Lingers(t, b, f)
    ensures LinesOk(t)
  {
    forall b: nat ensures LineOk(t, b) { assert LineOk(s, b); }
    forall b: nat, f: nat ensures InLineOk(t, b, f) { assert InLineOk(s, b, f); }
  }

  lemma SameAlive(s: State, t: State)
    requires t.fibers.Keys == s.fibers.Keys
    requires forall f :: f in s.fibers ==> (t.fibers[f].loc == Gone <==> s.fibers[f].loc == Gone)
    ensures Alive(t) == Alive(s)
  {
  }

  lemma MoreAlive(s: State, t: State, g: Fid)
    requires g !in s.fibers && g in t.fibers && t.fibers[g].loc != Gone && t.fibers == s.fibers[g := t.fibers[g]]
    ensures |Alive(t)| == |Alive(s)| + 1
  {
    assert Alive(t) == Alive(s) + {g};
  }

  lemma FewerAlive(s: State, t: State, f: Fid)
    requires f in s.fibers && s.fibers[f].loc != Gone
    requires f in t.fibers && t.fibers[f].loc == Gone && t.fibers == s.fibers[f := t.fibers[f]]
    ensures |Alive(t)| == |Alive(s)| - 1
  {
    assert Alive(s) == Alive(t) + {f};
  }

  // No step adds a fiber that stands in a queue.
  lemma StepLinksOnce(s: State, a: Step)
    requires Inv(s) && Enabled(s, a)
    ensures LinksOnce(s, a)
  {
    assert WorkerOk(s, a.k);
    if Added(s, a).Some? {
      var f := Added(s, a).value;
      forall k | 0 <= k < |s.queues| ensures f !in s.queues[k] { assert InQueue(s, k, f); }
    }
  }

  lemma StepAff(s: State, a: Step)
    requires Inv(s) && Enabled(s, a)
    ensures Aff(Apply(s, a))
  {
    StepLinksOnce(s, a);
    StepKeepsAffIff(s, a);
  }

  // --- the workers ---

  // Worker `k` and one fiber change; what the other workers are about does not.
  lemma OtherWorkers(s: State, t: State, k: Wid, f: Fid)
    requires WorkersOk(s) && k < |s.workers| == |t.workers|
    requires forall j :: 0 <= j < |s.workers| && j != k ==> t.workers[j] == s.workers[j]
    requires f in s.fibers && s.fibers[f].loc == OnThread(k)
    requires t.fibers == s.fibers[f := t.Of(f)] && t.total <= s.total
    requires forall b: Bid, g: Fid {:trigger InLine(t, b, g)} :: InLine(t, b, g) ==> InLine(s, b, g) || g == f
    requires WorkerOk(t, k) && AddedOutOfLines(t, k) && RunsOutOfLines(t, k) && t.workers[k].pc != ADDING
    ensures WorkersOk(t)
  {
    forall j: nat ensures WorkerOk(t, j) { assert WorkerOk(s, j); }
    forall i: nat, j: nat ensures AddOnce(t, i, j) { assert AddOnce(s, i, j); }
    forall j: nat ensures AddedOutOfLines(t, j) { assert AddedOutOfLines(s, j) && WorkerOk(s, j); }
    forall j: nat ensures RunsOutOfLines(t, j) { assert RunsOutOfLines(s, j) && WorkerOk(s, j); }
  }

  // --- the steps ---

  // The worker alone moves on.
  lemma GotoKeeps(s: State, k: Wid, w: Worker)
    requires Inv(s) && k < |s.workers| && w.pc != ADDING && w.pc != SCHEDULING && Aff(Set(s, k, w))
    requires Holds(w) ==> Holds(s.workers[k]) && w.fiber == s.workers[k].fiber
    requires Holds(w) ==> (Started(w) <==> Started(s.workers[k])) && (w.pc != SWITCH ==> s.workers[k].pc != SWITCH)
    requires w.pc == WAKING ==> w.other in s.fibers
    requires Leaving(w) ==> s.total <= 0
    ensures Inv(Set(s, k, w))
  {
    var t := Set(s, k, w);
    SameQueues(s, t);
    SameAlive(s, t);
    assert forall b: Bid, g: Fid {:trigger InLine(t, b, g)} :: InLine(t, b, g) ==> InLine(s, b, g) && InLineOk(s, b, g);
    forall b: Bid | b in t.gates ensures Distinct(t.gates[b].line) { assert LineOk(s, b); }
    SameLines(s, t);
    forall j: nat ensures WorkerOk(t, j) { assert WorkerOk(s, j); }
    forall i: nat, j: nat ensures AddOnce(t, i, j) { assert AddOnce(s, i, j); }
    forall j: nat ensures AddedOutOfLines(t, j) { assert AddedOutOfLines(s, j); }
    forall j: nat ensures RunsOutOfLines(t, j) { assert RunsOutOfLines(s, j); }
    forall f: nat ensures FiberOk(t, f) { assert FiberOk(s, f); }
  }

  lemma PollKeeps(s: State, k: Wid)
    requires Inv(s) && s.At(k, POLL) && s.queues[k] != []
    ensures Inv(DoPoll(s, k))
  {
    var f, t := s.queues[k][0], DoPoll(s, k);
    StepAff(s, Poll(k));
    TakeFirstKeeps(s, k, t);
    SameAlive(s, t);
    HolderCounts(s, f);
    assert FiberOk(s, f) && WorkerOk(s, k);
    SameLines(s, t);
    forall j: nat ensures WorkerOk(t, j) { assert WorkerOk(s, j); }
    forall i: nat, j: nat ensures AddOnce(t, i, j) { assert AddOnce(s, i, j); }
    forall j: nat ensures AddedOutOfLines(t, j) { assert AddedOutOfLines(s, j) && WorkerOk(s, j); }
    forall j: nat ensures RunsOutOfLines(t, j) { assert RunsOutOfLines(s, j); }
    forall g: nat ensures FiberOk(t, g) { assert FiberOk(s, g); }
  }

  lemma FireWorkers(s: State, k: Wid, f: Fid, timer: bool)
    requires Inv(s) && Enabled(s, Fire(k, f, timer))
    ensures WorkersOk(DoFire(s, k, f, timer))
  {
    var t := DoFire(s, k, f, timer);
    assert FiberOk(s, f);
    assert forall b: Bid, h: Fid {:trigger InLine(t, b, h)} :: InLine(t, b, h) ==> InLine(s, b, h);
    forall j: nat ensures WorkerOk(t, j) { assert WorkerOk(s, j); }
    forall i: nat, j: nat ensures AddOnce(t, i, j) { assert AddOnce(s, i, j); }
    forall j: nat ensures AddedOutOfLines(t, j) { assert AddedOutOfLines(s, j); }
    forall j: nat ensures RunsOutOfLines(t, j) { assert RunsOutOfLines(s, j); }
  }

  // An event: at most the fiber's flag and timer change.
  lemma FireKeeps(s: State, k: Wid, f: Fid, timer: bool)
    requires Inv(s) && Enabled(s, Fire(k, f, timer))
    ensures Inv(DoFire(s, k, f, timer))
  {
    var t := DoFire(s, k, f, timer);
    StepAff(s, Fire(k, f, timer));
    SameQueues(s, t);
    SameAlive(s, t);
    assert FiberOk(s, f);
    SameLines(s, t);
    FireWorkers(s, k, f, timer);
    forall g: nat ensures FiberOk(t, g) { assert FiberOk(s, g); }
  }

  // The dispatched fiber is out of every line: it was in one only if it timed
  // out there, and then it leaves it.
  lemma StartLines(s: State, k: Wid)
    requires LinesOk(s) && WorkersOk(s) && s.At(k, FOUND)
    ensures var t := DoStart(s, k);
            && LinesOk(t) && t.gates.Keys == s.gates.Keys
            && (forall b: Bid, g: Fid {:trigger InLine(t, b, g)} :: InLine(t, b, g) ==> InLine(s, b, g) && g != s.workers[k].fiber)
  {
    var t, f := DoStart(s, k), s.workers[k].fiber;
    var b0 := s.Of(f).cont.timed;
    assert WorkerOk(s, k);
    if TimesOut(s.Of(f)) && b0.value in s.gates {
      assert LineOk(s, b0.value);
      WithoutMembers(s.gates[b0.value].line, f);
    }
    forall b: Bid, g: Fid {:trigger InLine(t, b, g)} | InLine(t, b, g) ensures InLine(s, b, g) && g != f {
      assert InLineOk(s, b, f);
    }
    SameLines(s, t);
  }

  lemma StartKeeps(s: State, k: Wid)
    requires Inv(s) && s.At(k, FOUND)
    ensures Inv(DoStart(s, k))
  {
    var f, t := s.workers[k].fiber, DoStart(s, k);
    assert WorkerOk(s, k) && FiberOk(s, f);
    StepAff(s, Start(k));
    StartLines(s, k);
    SameQueues(s, t);
    SameAlive(s, t);
    OtherWorkers(s, t, k, f);
    forall g: nat ensures FiberOk(t, g) { assert FiberOk(s, g); }
  }

  lemma CountWorkers(s: State, k: Wid, g: Fid, inherit: bool)
    requires Inv(s) && s.At(k, RUNNING) && g !in s.fibers && 0 < s.total
    ensures WorkersOk(DoCount(s, k, g, inherit))
  {
    var t := DoCount(s, k, g, inherit);
    assert WorkerOk(s, k);
    assert forall b: Bid, h: Fid {:trigger InLine(t, b, h)} :: InLine(t, b, h) ==> InLine(s, b, h);
    forall j: nat ensures WorkerOk(t, j) { assert WorkerOk(s, j); }
    forall i: nat, j: nat ensures AddOnce(t, i, j) { assert AddOnce(s, i, j); }
    forall j: nat ensures AddedOutOfLines(t, j) { assert AddedOutOfLines(s, j) && WorkerOk(s, j); }
    forall j: nat ensures RunsOutOfLines(t, j) { assert RunsOutOfLines(s, j); }
  }

  lemma CountKeeps(s: State, k: Wid, g: Fid, inherit: bool)
    requires Inv(s) && s.At(k, RUNNING) && g !in s.fibers
    ensures Inv(DoCount(s, k, g, inherit))
  {
    var t := DoCount(s, k, g, inherit);
    assert WorkerOk(s, k);
    StepAff(s, Count(k, g, inherit));
    HolderCounts(s, s.workers[k].fiber);
    MoreAlive(s, t, g);
    SameQueues(s, t);
    SameLines(s, t);
    CountWorkers(s, k, g, inherit);
    forall f: nat ensures FiberOk(t, f) { assert FiberOk(s, f); }
  }

  lemma AddChildWorkers(s: State, k: Wid)
    requires Inv(s) && s.At(k, SCHEDULING)
    ensures WorkersOk(DoAddChild(s, k))
  {
    var f, t := s.workers[k].other, DoAddChild(s, k);
    assert WorkerOk(s, k);
    assert forall b: Bid, h: Fid {:trigger InLine(t, b, h)} :: InLine(t, b, h) ==> InLine(s, b, h);
    forall j: nat ensures WorkerOk(t, j) { assert WorkerOk(s, j); }
    forall i: nat, j: nat ensures AddOnce(t, i, j) { assert AddOnce(s, i, j); }
    forall j: nat ensures AddedOutOfLines(t, j) { assert AddedOutOfLines(s, j) && WorkerOk(s, j); }
    forall j: nat ensures RunsOutOfLines(t, j) { assert RunsOutOfLines(s, j); }
  }

  lemma AddChildKeeps(s: State, k: Wid)
    requires Inv(s) && s.At(k, SCHEDULING)
    ensures Inv(DoAddChild(s, k))
  {
    var f, t := s.workers[k].other, DoAddChild(s, k);
    assert WorkerOk(s, k) && FiberOk(s, f);
    StepAff(s, AddChild(k));
    AddChildAff(s, k);
    EnqueueKeeps(s, t, ChildQueue(s, k), f);
    SameAlive(s, t);
    SameLines(s, t);
    AddChildWorkers(s, k);
    forall g: nat ensures FiberOk(t, g) { assert FiberOk(s, g); }
  }

  // A change to one blocker that puts nobody in its line.
  lemma GateKeeps(s: State, b0: Bid, g: Gate<Fid>, k: Wid, w: Worker)
    requires Inv(s) && b0 in s.gates && s.At(k, RUNNING) && Distinct(g.line)
    requires forall f :: f in g.line ==> f in s.gates[b0].line
    requires w == s.workers[k] || (w.pc == WAKING && w.fiber == s.workers[k].fiber && w.back == RUNNING && w.other in s.fibers)
    ensures Inv(Set(s, k, w).(gates := s.gates[b0 := g]))
  {
    var t := Set(s, k, w).(gates := s.gates[b0 := g]);
    assert WorkerOk(s, k) && HeldHere(s, k);
    QuietKeeps(s, t, k);
    SameQueues(s, t);
    SameAlive(s, t);
    SameLines(s, t);
    OtherWorkersStay(s, t, k);
    forall f: nat ensures FiberOk(t, f) { assert FiberOk(s, f); }
  }

  lemma OtherWorkersStay(s: State, t: State, k: Wid)
    requires WorkersOk(s) && k < |s.workers| == |t.workers| && t.fibers == s.fibers && t.total == s.total
    requires forall j :: 0 <= j < |s.workers| && j != k ==> t.workers[j] == s.workers[j]
    requires Started(s.workers[k]) && Started(t.workers[k]) && t.workers[k].fiber == s.workers[k].fiber
    requires t.workers[k].pc != ADDING && WorkerOk(t, k)
    requires forall b: Bid, g: Fid {:trigger InLine(t, b, g)} :: InLine(t, b, g) ==> InLine(s, b, g)
    ensures WorkersOk(t)
  {
    forall j: nat ensures WorkerOk(t, j) { assert WorkerOk(s, j); }
    forall i: nat, j: nat ensures AddOnce(t, i, j) { assert AddOnce(s, i, j); }
    forall j: nat ensures AddedOutOfLines(t, j) { assert AddedOutOfLines(s, j); }
    forall j: nat ensures RunsOutOfLines(t, j) { assert RunsOutOfLines(s, j); }
  }

  lemma WakeKeeps(s: State, k: Wid, b: Bid)
    requires Inv(s) && s.At(k, RUNNING) && b in s.gates
    ensures Inv(DoWake(s, k, b))
  {
    var (g, w) := s.gates[b].WakeUp();
    assert LineOk(s, b);
    if s.gates[b].line != [] {
      assert s.gates[b].line[0] in s.gates[b].line && InLine(s, b, s.gates[b].line[0]);
      assert InLineOk(s, b, s.gates[b].line[0]);
      assert s.gates[b].line == [s.gates[b].line[0]] + g.line;
      GateKeeps(s, b, g, k, s.workers[k].(pc := WAKING, other := w.fiber, back := RUNNING));
    } else {
      GateKeeps(s, b, g, k, s.workers[k]);
      assert Set(s, k, s.workers[k]) == s;
    }
  }

  lemma TryWaitKeeps(s: State, k: Wid, b: Bid)
    requires Inv(s) && s.At(k, RUNNING) && b in s.gates
    ensures Inv(DoTryWait(s, b))
  {
    assert LineOk(s, b);
    GateKeeps(s, b, s.gates[b].Take().0, k, s.workers[k]);
    assert Set(s, k, s.workers[k]) == s;
  }

  // --- the look at a fiber's state ---

  lemma CheckKeeps(s: State, k: Wid)
    requires Inv(s) && s.At(k, WAKING) && InTime(s, s.workers[k].other) && IsHung(s.Of(s.workers[k].other).state)
    ensures Inv(DoCheck(s, k))
  {
    var t, f := DoCheck(s, k), s.workers[k].other;
    StepAff(s, Check(k));
    assert WorkerOk(s, k) && HeldHere(s, k);
    SameQueues(s, t);
    SameAlive(s, t);
    SameLines(s, t);
    forall j: nat ensures WorkerOk(t, j) { assert WorkerOk(s, j); }
    forall i: nat, j: nat ensures AddOnce(t, i, j) {
      assert AddOnce(s, i, j) && !AddedBy(s, i, f) && !AddedBy(s, j, f);
    }
    forall j: nat ensures AddedOutOfLines(t, j) {
      assert AddedOutOfLines(s, j);
      assert forall b: Bid, g: Fid {:trigger InLine(t, b, g)} :: InLine(t, b, g) ==> InLine(s, b, g);
    }
    forall j: nat ensures RunsOutOfLines(t, j) { assert RunsOutOfLines(s, j); }
    forall g: nat ensures FiberOk(t, g) { assert FiberOk(s, g); }
  }

  // A look in time keeps everything, and one out of time does not.
  lemma CheckKeepsIff(s: State, k: Wid)
    requires Inv(s) && s.At(k, WAKING)
    ensures Inv(DoCheck(s, k)) <==> InTime(s, s.workers[k].other)
  {
    var t, f := DoCheck(s, k), s.workers[k].other;
    assert HeldHere(s, k) && WorkerOk(s, k);
    StepAff(s, Check(k));
    if !IsHung(s.Of(f).state) {
      GotoKeeps(s, k, s.workers[k].(pc := s.workers[k].back));
    } else if InTime(s, f) {
      CheckKeeps(s, k);
    } else if Inv(t) {
      assert WorkerOk(t, k) && AddedOutOfLines(t, k);
      assert forall b: Bid {:trigger InLine(s, b, f)} :: InLine(s, b, f) ==> InLine(t, b, f);
      forall j: nat ensures !AddedBy(s, j, f) { assert AddOnce(t, j, k) && AddedBy(t, j, f) == (AddedBy(s, j, f) || j == k); }
    }
  }

  lemma AddWorkers(s: State, k: Wid)
    requires Inv(s) && s.At(k, ADDING)
    ensures WorkersOk(DoAdd(s, k))
  {
    var f, t := s.workers[k].other, DoAdd(s, k);
    assert WorkerOk(s, k) && HeldHere(s, k);
    assert forall b: Bid, h: Fid {:trigger InLine(t, b, h)} :: InLine(t, b, h) ==> InLine(s, b, h);
    forall j: nat ensures WorkerOk(t, j) { assert WorkerOk(s, j) && AddOnce(s, j, k); }
    forall i: nat, j: nat ensures AddOnce(t, i, j) { assert AddOnce(s, i, j); }
    forall j: nat ensures AddedOutOfLines(t, j) { assert AddedOutOfLines(s, j) && AddOnce(s, j, k); }
    forall j: nat ensures RunsOutOfLines(t, j) { assert RunsOutOfLines(s, j); }
  }

  // A hung fiber is put back in its bound queue.
  lemma AddKeeps(s: State, k: Wid)
    requires Inv(s) && s.At(k, ADDING)
    ensures Inv(DoAdd(s, k))
  {
    var f, t := s.workers[k].other, DoAdd(s, k);
    assert WorkerOk(s, k) && FiberOk(s, f) && HeldHere(s, k) && OneHome(s, f);
    StepAff(s, Add(k));
    EnqueueKeeps(s, t, s.fibers[f].bound.value, f);
    SameAlive(s, t);
    forall b: Bid, g: Fid {:trigger InLine(t, b, g)} | InLine(t, b, g) && InLineOk(s, b, g) ensures InLine(s, b, g) && Lingers(t, b, g) {
      assert InLine(s, b, g) && AddedOutOfLines(s, k);
    }
    SameLines(s, t);
    AddWorkers(s, k);
    forall g: nat ensures FiberOk(t, g) { assert FiberOk(s, g); }
  }

  // --- the running fiber waits, sleeps, ends or yields ---

  // The running fiber changes its own record and gives up the thread.
  lemma MarkKeeps(s: State, k: Wid, x: FiberRec)
    requires Inv(s) && s.At(k, RUNNING)
    requires var y := s.Of(s.workers[k].fiber); x == y.(state := x.state, gate := x.gate, flag := x.flag, cont := x.cont)
    requires x.state != NEW && (x.cont == PLAIN || IsHung(x.state))
    requires x.state == BLOCKED ==> x.gate.Some? && x.gate.value in s.gates
    requires x.cont.timed.Some? ==> x.cont.timed.value in s.gates
    ensures Inv(Goto(Put(s, s.workers[k].fiber, x), k, SWITCH))
  {
    var f, t := s.workers[k].fiber, Goto(Put(s, s.workers[k].fiber, x), k, SWITCH);
    assert WorkerOk(s, k) && FiberOk(s, f) && HeldHere(s, k) && RunsOutOfLines(s, k);
    QuietKeeps(s, t, k);
    SameQueues(s, t);
    SameAlive(s, t);
    SameLines(s, t);
    OtherWorkers(s, t, k, f);
    forall g: nat ensures FiberOk(t, g) { assert FiberOk(s, g); }
  }

  lemma RequeueRest(s: State, k: Wid, gates: map<Bid, Gate<Fid>>)
    requires Inv(s) && s.At(k, SWITCH)
    requires gates.Keys == s.gates.Keys && forall b :: b in gates ==> gates[b].line == s.gates[b].line
    ensures LinesOk(Requeue(s, k).(gates := gates)) && WorkersOk(Requeue(s, k).(gates := gates))
  {
    var f, t := s.workers[k].fiber, Requeue(s, k).(gates := gates);
    assert WorkerOk(s, k) && RunsOutOfLines(s, k);
    SameLines(s, t);
    OtherWorkers(s, t, k, f);
  }

  // Back to the queue; its blocker may have given up a token.
  lemma RequeueKeeps(s: State, k: Wid, gates: map<Bid, Gate<Fid>>)
    requires Inv(s) && s.At(k, SWITCH) && s.Of(s.workers[k].fiber).state in {RUNNABLE, BLOCKED}
    requires gates.Keys == s.gates.Keys && forall b :: b in gates ==> gates[b].line == s.gates[b].line
    ensures Inv(Requeue(s, k).(gates := gates))
  {
    var f, t := s.workers[k].fiber, Requeue(s, k).(gates := gates);
    assert WorkerOk(s, k) && FiberOk(s, f) && HeldHere(s, k);
    forall j | 0 <= j < |s.queues| ensures f !in s.queues[j] { assert InQueue(s, j, f); }
    RequeueAff(s, k, t.gates);
    RequeueRest(s, k, gates);
    EnqueueKeeps(s, t, k, f);
    SameAlive(s, t);
    forall g: nat ensures FiberOk(t, g) { assert FiberOk(s, g); }
  }

  lemma HangUpKeeps(s: State, k: Wid)
    requires Inv(s) && s.At(k, SWITCH) && s.Of(s.workers[k].fiber).state == WAITING
    ensures Inv(HangUp(s, k))
  {
    var f, t := s.workers[k].fiber, HangUp(s, k);
    assert WorkerOk(s, k) && FiberOk(s, f) && HeldHere(s, k) && RunsOutOfLines(s, k) && OneHome(s, f);
    QuietKeeps(s, t, k);
    SameQueues(s, t);
    SameAlive(s, t);
    SameLines(s, t);
    OtherWorkers(s, t, k, f);
    forall g: nat ensures FiberOk(t, g) { assert FiberOk(s, g); }
  }

  // Only the parked fiber joins a line.
  lemma ParkLines(s: State, k: Wid, b0: Bid)
    requires Inv(s) && s.At(k, SWITCH) && b0 in s.gates && s.Of(s.workers[k].fiber).state == BLOCKED
    requires s.Of(s.workers[k].fiber).gate == Some(b0) && s.gates[b0].wakeup == 0
    ensures LinesOk(DoSwitch(s, k))
    ensures forall b: Bid, g: Fid {:trigger InLine(DoSwitch(s, k), b, g)} ::
              InLine(DoSwitch(s, k), b, g) ==> InLine(s, b, g) || g == s.workers[k].fiber
  {
    var f, t := s.workers[k].fiber, DoSwitch(s, k);
    assert WorkerOk(s, k) && RunsOutOfLines(s, k) && LineOk(s, b0) && !InLine(s, b0, f);
    DistinctConcat(s.gates[b0].line, [f]);
    forall b: nat ensures LineOk(t, b) { assert LineOk(s, b); }
    forall b: nat, g: nat ensures InLineOk(t, b, g) && (InLine(t, b, g) ==> InLine(s, b, g) || g == f) {
      assert InLineOk(s, b, g) && (InLine(s, b, g) ==> g != f);
    }
  }

  lemma ParkWorkers(s: State, k: Wid, b0: Bid)
    requires Inv(s) && s.At(k, SWITCH) && b0 in s.gates && s.Of(s.workers[k].fiber).state == BLOCKED
    requires s.Of(s.workers[k].fiber).gate == Some(b0) && s.gates[b0].wakeup == 0
    ensures WorkersOk(DoSwitch(s, k))
  {
    assert WorkerOk(s, k);
    ParkLines(s, k, b0);
    OtherWorkers(s, DoSwitch(s, k), k, s.workers[k].fiber);
  }

  lemma ParkKeeps(s: State, k: Wid, b0: Bid)
    requires Inv(s) && s.At(k, SWITCH) && b0 in s.gates && s.Of(s.workers[k].fiber).state == BLOCKED
    requires s.Of(s.workers[k].fiber).gate == Some(b0) && s.gates[b0].wakeup == 0
    ensures Inv(DoSwitch(s, k))
  {
    var f, t := s.workers[k].fiber, DoSwitch(s, k);
    assert WorkerOk(s, k) && FiberOk(s, f);
    StepAff(s, Switch(k));
    ParkLines(s, k, b0);
    SameQueues(s, t);
    SameAlive(s, t);
    ParkWorkers(s, k, b0);
    forall g: nat ensures FiberOk(t, g) { assert FiberOk(s, g); }
  }

  lemma TerminateRest(s: State, k: Wid)
    requires Inv(s) && s.At(k, SWITCH) && s.Of(s.workers[k].fiber).state == TERMINATED
    ensures LinesOk(DoSwitch(s, k)) && WorkersOk(DoSwitch(s, k))
  {
    var f, t := s.workers[k].fiber, DoSwitch(s, k);
    assert WorkerOk(s, k) && RunsOutOfLines(s, k);
    SameLines(s, t);
    OtherWorkers(s, t, k, f);
  }

  lemma TerminateKeeps(s: State, k: Wid)
    requires Inv(s) && s.At(k, SWITCH) && s.Of(s.workers[k].fiber).state == TERMINATED
    ensures Inv(DoSwitch(s, k))
  {
    var f, t := s.workers[k].fiber, DoSwitch(s, k);
    assert WorkerOk(s, k) && FiberOk(s, f);
    StepAff(s, Switch(k));
    TerminateRest(s, k);
    FewerAlive(s, t, f);
    SameQueues(s, t);
    forall g: nat ensures FiberOk(t, g) { assert FiberOk(s, g); }
  }

  lemma SwitchKeeps(s: State, k: Wid)
    requires Inv(s) && s.At(k, SWITCH)
    ensures Inv(DoSwitch(s, k))
  {
    var f := s.workers[k].fiber;
    assert WorkerOk(s, k) && FiberOk(s, f);
    match s.fibers[f].state
    case RUNNABLE => RequeueKeeps(s, k, s.gates);
    case BLOCKED =>
      var b := s.fibers[f].gate.value;
      if s.gates[b].wakeup == 0 {
        ParkKeeps(s, k, b);
      } else {
        RequeueKeeps(s, k, s.gates[b := s.gates[b].SwapOut(f).0]);
      }
    case WAITING => HangUpKeeps(s, k);
    case TERMINATED => TerminateKeeps(s, k);
  }

  lemma WaitOnKeeps(s: State, k: Wid, b: Bid, timed: bool, timer: bool)
    requires Inv(s) && Enabled(s, WaitOn(k, b, timed, timer))
    ensures Inv(DoWaitOn(s, k, b, timed, timer))
  {
    if s.gates[b].wakeup > 0 {
      TryWaitKeeps(s, k, b);
    } else {
      var x := s.Of(s.workers[k].fiber);
      MarkKeeps(s, k, x.(state := BLOCKED, gate := Some(b), flag := x.flag && !timer,
                         cont := Cont(if timed then Some(b) else None, timer, false)));
    }
  }

  // The steps of a worker's loop that only move it on.
  lemma LoopKeeps(s: State, a: Step)
    requires Inv(s) && Enabled(s, a) && (a.ReadTotal? || a.Poll? || a.EndIdle? || a.Yield?)
    ensures Inv(Apply(s, a))
  {
    StepAff(s, a);
    assert WorkerOk(s, a.k);
    match a
    case ReadTotal(k) => GotoKeeps(s, k, s.workers[k].(pc := POLL, total := s.total));
    case Poll(k) => if s.queues[k] == [] { EmptyPollKeeps(s, k); } else { PollKeeps(s, k); }
    case EndIdle(k) => GotoKeeps(s, k, s.workers[k].(pc := READ));
    case Yield(k) => GotoKeeps(s, k, s.workers[k].(pc := SWITCH));
  }

  // Every step keeps the invariant, except the look at a fiber's state, which
  // keeps it exactly when the resumption is in time.
  lemma StepKeepsIff(s: State, a: Step)
    requires Inv(s) && Enabled(s, a)
    ensures Inv(Apply(s, a)) <==> Careful(s, a)
  {
    match a
    case ReadTotal(_) => LoopKeeps(s, a);
    case Poll(_) => LoopKeeps(s, a);
    case EndIdle(_) => LoopKeeps(s, a);
    case Yield(_) => LoopKeeps(s, a);
    case Fire(k, f, timer) => FireKeeps(s, k, f, timer);
    case Start(k) => StartKeeps(s, k);
    case Count(k, g, inherit) => CountKeeps(s, k, g, inherit);
    case AddChild(k) => AddChildKeeps(s, k);
    case Wake(k, b) => WakeKeeps(s, k, b);
    case Check(k) => CheckKeepsIff(s, k);
    case Add(k) => AddKeeps(s, k);
    case TryWait(k, b) => TryWaitKeeps(s, k, b);
    case WaitOn(k, b, timed, timer) => WaitOnKeeps(s, k, b, timed, timer);
    case Sleep(k, timer, fds) => SleepKeeps(s, k, timer, fds);
    case End(k) => EndKeeps(s, k);
    case Switch(k) => SwitchKeeps(s, k);
  }

  lemma SleepKeeps(s: State, k: Wid, timer: bool, fds: bool)
    requires Inv(s) && s.At(k, RUNNING)
    ensures Inv(DoSleep(s, k, timer, fds))
  {
    var x := s.Of(s.workers[k].fiber);
    MarkKeeps(s, k, x.(state := WAITING, flag := x.flag && !timer, cont := Cont(None, timer, fds)));
  }

  lemma EndKeeps(s: State, k: Wid)
    requires Inv(s) && s.At(k, RUNNING)
    ensures Inv(DoEnd(s, k))
  {
    assert WorkerOk(s, k);
    MarkKeeps(s, k, s.Of(s.workers[k].fiber).(state := TERMINATED));
  }

  lemma EmptyPollKeeps(s: State, k: Wid)
    requires Inv(s) && s.At(k, POLL) && s.queues[k] == []
    ensures Inv(DoPoll(s, k))
  {
    StepAff(s, Poll(k));
    assert WorkerOk(s, k);
    GotoKeeps(s, k, s.workers[k].(pc := if s.workers[k].total > 0 then IDLE else EXITED));
  }

  lemma InitInv(s: State)
    requires Init(s)
    ensures Inv(s)
  {
    InitAff(s);
    assert Alive(s) == s.fibers.Keys;
    forall k: nat ensures WorkerOk(s, k) {}
    forall j: nat, k: nat ensures AddOnce(s, j, k) {}
    forall k: nat ensures AddedOutOfLines(s, k) {}
    forall k: nat ensures RunsOutOfLines(s, k) {}
    forall k: nat ensures QueuedOnce(s, k) {}
    forall k: nat, f: nat ensures InQueue(s, k, f) {}
    forall b: nat ensures LineOk(s, b) {}
    forall b: nat, f: nat ensures InLineOk(s, b, f) {}
    forall f: nat ensures FiberOk(s, f) {}
  }

  ghost predicate CarefulRun(ss: seq<State>, steps: seq<Step>) {
    Run(ss, steps) && forall i {:trigger steps[i]} :: 0 <= i < |steps| ==> Careful(ss[i], steps[i])
  }

  // The states that end some run in which every resumption was in time.
  ghost predicate CarefullyReachable(s: State) {
    exists ss, steps {:trigger CarefulRun(ss, steps)} :: CarefulRun(ss, steps) && ss[|steps|] == s
  }

  lemma {:induction false} RunKeeps(ss: seq<State>, steps: seq<Step>, n: nat)
    requires CarefulRun(ss, steps) && n <= |steps|
    ensures Inv(ss[n])
  {
    if n == 0 {
      InitInv(ss[0]);
    } else {
      RunKeeps(ss, steps, n - 1);
      assert StepsTo(ss[n - 1], steps[n - 1], ss[n]);
      StepKeepsIff(ss[n - 1], steps[n - 1]);
    }
  }

  // So every careful run is a run on linked queues.
  lemma CarefulIsLinked(ss: seq<State>, steps: seq<Step>)
    requires CarefulRun(ss, steps)
    ensures LinkedRun(ss, steps)
  {
    forall i {:trigger steps[i]} | 0 <= i < |steps| ensures LinksOnce(ss[i], steps[i]) {
      RunKeeps(ss, steps, i);
      assert StepsTo(ss[i], steps[i], ss[i + 1]);
      StepLinksOnce(ss[i], steps[i]);
    }
  }

  lemma CarefulInv(s: State)
    requires CarefullyReachable(s)
    ensures Inv(s)
  {
    var ss, steps :| CarefulRun(ss, steps) && ss[|steps|] == s;
    RunKeeps(ss, steps, |steps|);
  }

  // --- leaving is safe ---

  // The counter is zero exactly when every fiber ever scheduled has terminated.
  lemma ZeroMeansDone(s: State)
    requires Inv(s)
    ensures s.total >= 0
    ensures s.total == 0 <==> forall f :: f in s.fibers ==> s.fibers[f].state == TERMINATED && s.fibers[f].loc == Gone
  {
    if s.total == 0 {
      assert Alive(s) == {};
      forall f | f in s.fibers ensures s.fibers[f].loc == Gone && s.fibers[f].state == TERMINATED {
        assert f !in Alive(s);
        assert FiberOk(s, f);
      }
    } else {
      var f :| f in Alive(s);
      assert f in s.fibers && s.fibers[f].loc != Gone;
    }
  }

  // No worker abandons a fiber: when one is about to leave, having read zero and
  // whatever the others do meanwhile, every fiber has terminated, every queue
  // and every line is empty, and no worker has a fiber on its thread.
  lemma ExitIsSafe(s: State, k: Wid)
    requires CarefullyReachable(s) && k < |s.workers| && Leaving(s.workers[k])
    ensures forall f :: f in s.fibers ==> s.fibers[f].state == TERMINATED
    ensures forall j :: 0 <= j < |s.queues| ==> s.queues[j] == []
    ensures forall b :: b in s.gates ==> s.gates[b].line == []
    ensures forall j :: 0 <= j < |s.workers| ==> !Holds(s.workers[j])
  {
    CarefulInv(s);
    assert WorkerOk(s, k);
    ZeroMeansDone(s);
    NothingLeft(s);
  }

  lemma SomeMember(q: seq<Fid>)
    ensures q != [] ==> exists f :: f in q
  {
    if q != [] { assert q[0] in q; }
  }

  lemma NothingLeft(s: State)
    requires WorkersOk(s) && QueuesOk(s) && LinesOk(s)
    requires forall f :: f in s.fibers ==> s.fibers[f].loc == Gone
    ensures forall j :: 0 <= j < |s.queues| ==> s.queues[j] == []
    ensures forall b :: b in s.gates ==> s.gates[b].line == []
    ensures forall j :: 0 <= j < |s.workers| ==> !Holds(s.workers[j])
  {
    forall j | 0 <= j < |s.queues| ensures s.queues[j] == [] {
      SomeMember(s.queues[j]);
      forall f: nat ensures f !in s.queues[j] { assert InQueue(s, j, f); }
    }
    forall b | b in s.gates ensures s.gates[b].line == [] {
      SomeMember(s.gates[b].line);
      forall f: nat ensures f !in s.gates[b].line { assert InLineOk(s, b, f) && (InLine(s, b, f) <==> f in s.gates[b].line); }
    }
    forall j | 0 <= j < |s.workers| ensures !Holds(s.workers[j]) { assert WorkerOk(s, j); }
  }

  // Zero is final: from then on no step changes the counter or a fiber.
  lemma ZeroIsStable(s: State, a: Step)
    requires Inv(s) && s.total == 0 && Enabled(s, a)
    ensures Apply(s, a).total == 0 && Apply(s, a).fibers == s.fibers
  {
    ZeroMeansDone(s);
    NothingLeft(s);
    assert WorkerOk(s, a.k);
    if a.Fire? { assert FiberOk(s, a.f); }
  }
}
