/**
 * The life of the timers that fibers set up, over whole runs of `setupTimer`,
 * `cancelTimer`, interrupts and passes of the event loop.  Their procedure
 * always asks for nothing more, and the client data of a timer is named by the
 * id the timer was given.
 */
module TimerRuns {
  import opened Base
  import opened Deadlines
  import opened TimerPass

  datatype State = State(
    timers: seq<Timer>,      // the list
    nextId: nat,
    fired: seq<int>,         // ids whose procedure was called, in order
    finalized: seq<int>,     // client data given to the finalizer, in order
    cancelled: set<int>,     // ids given to cancelTimer
    stopped: set<int>)       // those of them that had not fired by then

  datatype Step =
    | Setup(delay: int, now: Time)
    | Cancel(id: int)
    | Interrupt(now: Time)
    | Process(clockBack: bool, w: World)

  predicate Init(s: State) {
    s == State([], 0, [], [], {}, {})
  }

  // Callers cancel only ids they were given.
  ghost predicate Enabled(s: State, a: Step) {
    match a
    case Cancel(id) => 0 <= id < s.nextId
    case Process(_, w) => forall id :: w.proc(id) == NOMORE
    case _ => true
  }

  function Apply(s: State, a: Step): State {
    match a
    case Setup(delay, now) =>
      s.(timers := [Timer(s.nextId, AddMilliseconds(now, delay), s.nextId)] + s.timers, nextId := s.nextId + 1)
    case Cancel(id) =>
      s.(timers := Mark(s.timers, id), cancelled := s.cancelled + {id},
         stopped := if id in s.fired then s.stopped else s.stopped + {id})
    case Interrupt(now) => s.(timers := Hasten(s.timers, now))
    case Process(clockBack, w) =>
      var l := if clockBack then Reset(s.timers) else s.timers;
      var p := Visit(l, |l|, w);
      s.(timers := p.kept, fired := s.fired + p.fired, finalized := s.finalized + p.finalized)
  }

  // --- what every step keeps ---

  ghost predicate ListOk(l: seq<Timer>, nextId: nat) {
    && (forall i {:trigger l[i]} :: 0 <= i < |l| ==> 0 <= l[i].data < nextId && (l[i].id == DELETED || l[i].id == l[i].data))
    && (forall i, j {:trigger l[i], l[j]} :: 0 <= i < j < |l| ==> l[i].data != l[j].data)
  }

  ghost predicate Inv(s: State) {
    && ListOk(s.timers, s.nextId)
    && Distinct(s.fired) && Distinct(s.finalized)
    && (forall id :: id in s.fired || id in s.finalized || id in s.cancelled ==> 0 <= id < s.nextId)
    // A live timer has neither fired nor been cancelled nor been finalized.
    && (forall i {:trigger s.timers[i]} :: 0 <= i < |s.timers| ==>
          && s.timers[i].data !in s.finalized
          && (s.timers[i].Live() <==> s.timers[i].data !in s.fired && s.timers[i].data !in s.cancelled))
    // What was finalized had fired or been cancelled.
    && (forall d :: d in s.finalized ==> d in s.fired || d in s.cancelled)
    // What was cancelled in time never fires.
    && (forall id :: id in s.stopped ==> id in s.cancelled && id !in s.fired)
    // Every id handed out is in the list or finalized.
    && (forall id {:trigger Known(s, id)} :: 0 <= id < s.nextId ==> Known(s, id))
  }

  ghost predicate Known(s: State, id: int) {
    id in s.finalized || exists i :: 0 <= i < |s.timers| && s.timers[i].data == id
  }

  lemma {:induction false} MarkIs(l: seq<Timer>, id: int, nextId: nat)
    requires ListOk(l, nextId) && id != DELETED
    ensures |Mark(l, id)| == |l|
    ensures forall i {:trigger Mark(l, id)[i]} :: 0 <= i < |l| ==>
              Mark(l, id)[i] == if l[i].id == id then l[i].(id := DELETED) else l[i]
  {
    if l != [] {
      MarkIs(l[1..], id, nextId);
      if l[0].id == id {
        forall i | 1 <= i < |l| ensures l[i].id != id { assert l[0].data != l[i].data; }
      }
    }
  }

  lemma SetupKeeps(s: State, delay: int, now: Time)
    requires Inv(s)
    ensures Inv(Apply(s, Setup(delay, now)))
  {
    var s' := Apply(s, Setup(delay, now));
    forall id | 0 <= id < s'.nextId ensures Known(s', id) {
      if id == s.nextId {
        assert s'.timers[0].data == id;
      } else {
        assert Known(s, id);
        if id !in s.finalized {
          var i :| 0 <= i < |s.timers| && s.timers[i].data == id;
          assert s'.timers[i + 1].data == id;
        }
      }
    }
  }

  // A step that keeps every entry's data keeps every id known.
  lemma SameData(s: State, s': State)
    requires |s'.timers| == |s.timers| && s'.finalized == s.finalized && s'.nextId == s.nextId
    requires forall i {:trigger s'.timers[i]} :: 0 <= i < |s.timers| ==> s'.timers[i].data == s.timers[i].data
    requires forall id {:trigger Known(s, id)} :: 0 <= id < s.nextId ==> Known(s, id)
    ensures forall id {:trigger Known(s', id)} :: 0 <= id < s'.nextId ==> Known(s', id)
  {
    forall j | 0 <= j < s'.nextId ensures Known(s', j) {
      assert Known(s, j);
      if j !in s.finalized {
        var i :| 0 <= i < |s.timers| && s.timers[i].data == j;
        assert s'.timers[i].data == j;
      }
    }
  }

  // Cancelling an id touches no other timer, and no timer at all when the id
  // has fired or is cancelled already.
  lemma CancelTouchesOne(s: State, id: int)
    requires Inv(s) && 0 <= id < s.nextId
    ensures var l := Apply(s, Cancel(id)).timers;
            && |l| == |s.timers|
            && (forall i {:trigger l[i]} :: 0 <= i < |l| ==>
                  l[i] == if s.timers[i].data == id then s.timers[i].(id := DELETED) else s.timers[i])
            && (id in s.fired || id in s.cancelled ==> l == s.timers)
  {
    MarkIs(s.timers, id, s.nextId);
  }

  lemma CancelKeeps(s: State, id: int)
    requires Inv(s) && 0 <= id < s.nextId
    ensures Inv(Apply(s, Cancel(id)))
  {
    CancelTouchesOne(s, id);
    SameData(s, Apply(s, Cancel(id)));
  }

  // A change of deadlines only.
  lemma RetimedKeeps(s: State, l: seq<Timer>)
    requires Inv(s) && |l| == |s.timers|
    requires forall i {:trigger l[i]} :: 0 <= i < |l| ==> l[i].id == s.timers[i].id && l[i].data == s.timers[i].data
    ensures Inv(s.(timers := l))
  {
    SameData(s, s.(timers := l));
  }

  // --- one pass ---

  lemma {:induction false} LiveData(l: seq<Timer>, nextId: nat)
    requires ListOk(l, nextId)
    ensures forall k {:trigger Live(l)[k]} :: 0 <= k < |Live(l)| ==> Live(l)[k] in l && Live(l)[k].Live()
    ensures forall i, j :: 0 <= i < j < |Live(l)| ==> Live(l)[i].data != Live(l)[j].data
    ensures forall i :: 0 <= i < |l| && l[i].Live() ==> l[i] in Live(l)
  {
    if l != [] {
      var n := |l| - 1;
      LiveData(l[..n], nextId);
      forall k | 0 <= k < |Live(l[..n])| ensures Live(l[..n])[k].data != l[n].data {
        var i :| 0 <= i < n && l[..n][i] == Live(l[..n])[k];
        assert l[i].data != l[n].data;
      }
    }
  }

  ghost predicate DeadIn(l: seq<Timer>, d: int) {
    exists i {:trigger l[i]} :: 0 <= i < |l| && !l[i].Live() && l[i].data == d
  }

  lemma DeadInSnoc(l: seq<Timer>, t: Timer, d: int)
    ensures DeadIn(l + [t], d) <==> DeadIn(l, d) || (!t.Live() && t.data == d)
  {
    var l' := l + [t];
    if DeadIn(l, d) {
      var i :| 0 <= i < |l| && !l[i].Live() && l[i].data == d;
      assert l'[i] == l[i];
    }
    assert l'[|l|] == t;
  }

  lemma {:induction false} DeadData(l: seq<Timer>, nextId: nat)
    requires ListOk(l, nextId)
    ensures forall d :: d in Dead(l) <==> DeadIn(l, d)
    ensures Distinct(Dead(l))
  {
    if l != [] {
      var n := |l| - 1;
      DeadData(l[..n], nextId);
      assert l == l[..n] + [l[n]];
      forall d ensures d in Dead(l) <==> DeadIn(l, d) {
        DeadInSnoc(l[..n], l[n], d);
      }
      forall i | 0 <= i < n ensures l[..n][i].data != l[n].data {
        assert l[i].data != l[n].data;
      }
      DistinctConcat(Dead(l[..n]), [l[n].data]);
    }
  }

  // What a pass over a well-formed list finds, in terms of the list.
  lemma PassFacts(l: seq<Timer>, nextId: nat, w: World)
    requires ListOk(l, nextId) && forall id :: w.proc(id) == NOMORE
    ensures var p := Visit(l, |l|, w);
            && |p.kept| == |Live(l)|
            && (forall k {:trigger p.kept[k]} :: 0 <= k < |p.kept| ==>
                  && Live(l)[k] in l && Live(l)[k].Live()
                  && p.kept[k].data == Live(l)[k].data
                  && (if p.kept[k].Live() then p.kept[k].id == Live(l)[k].id && Live(l)[k].id !in p.fired
                      else Live(l)[k].id in p.fired))
            && (forall i, j :: 0 <= i < j < |p.kept| ==> p.kept[i].data != p.kept[j].data)
            && (forall id :: id in p.fired ==> exists k :: 0 <= k < |Live(l)| && Live(l)[k].id == id)
            && Distinct(p.fired) && Distinct(p.finalized)
            && (forall d :: d in p.finalized <==> DeadIn(l, d))
  {
    VisitIs(l, |l|, w);
    assert l[..|l|] == l;
    LiveData(l, nextId);
    DeadData(l, nextId);
    var live := Live(l);
    forall k | 0 <= k < |live| ensures live[k].id == live[k].data && live[k].Live() {
      var i :| 0 <= i < |l| && l[i] == live[k];
    }
    DueMembers(live, w);
    forall k | 0 <= k < |live| && live[k].id in DueIds(live, w) ensures live[k].when.Reached(w.clock(k)) {
      var j :| 0 <= j < |live| && live[j].id == live[k].id && live[j].when.Reached(w.clock(j));
      assert j == k;
    }
  }

  lemma OneEntry(l: seq<Timer>, nextId: nat, i: nat, j: nat)
    requires ListOk(l, nextId) && i < |l| && j < |l| && l[i].data == l[j].data
    ensures i == j
  {
  }

  lemma PassKeeps(s: State, w: World)
    requires Inv(s) && forall id :: w.proc(id) == NOMORE
    ensures Inv(Apply(s, Process(false, w)))
  {
    PassFacts(s.timers, s.nextId, w);
    PassKnown(s, w);
    var p, live := Visit(s.timers, |s.timers|, w), Live(s.timers);
    forall k | 0 <= k < |live|
      ensures live[k].id == live[k].data && live[k].id !in s.fired && live[k].id !in s.cancelled
              && live[k].id !in s.finalized && live[k].id !in p.finalized && 0 <= live[k].id < s.nextId
    {
      assert p.kept[k].data == live[k].data;
      var i :| 0 <= i < |s.timers| && s.timers[i] == live[k];
      forall j | 0 <= j < |s.timers| && s.timers[j].data == live[k].data ensures s.timers[j].Live() {
        OneEntry(s.timers, s.nextId, i, j);
      }
    }
    forall id | id in p.fired ensures id !in s.fired && id !in s.cancelled && 0 <= id < s.nextId {
      var k :| 0 <= k < |live| && live[k].id == id;
    }
    forall d | d in p.finalized ensures d !in s.finalized && 0 <= d < s.nextId && (d in s.fired || d in s.cancelled) {
      assert DeadIn(s.timers, d);
    }
    DistinctConcat(s.fired, p.fired);
    DistinctConcat(s.finalized, p.finalized);
  }

  lemma PassKnown(s: State, w: World)
    requires Inv(s) && forall id :: w.proc(id) == NOMORE
    ensures var s' := Apply(s, Process(false, w));
            forall id {:trigger Known(s', id)} :: 0 <= id < s'.nextId ==> Known(s', id)
  {
    var s' := Apply(s, Process(false, w));
    PassFacts(s.timers, s.nextId, w);
    LiveData(s.timers, s.nextId);
    forall id | 0 <= id < s'.nextId ensures Known(s', id) {
      assert Known(s, id);
      if id !in s.finalized {
        var i :| 0 <= i < |s.timers| && s.timers[i].data == id;
        if s.timers[i].Live() {
          var k :| 0 <= k < |Live(s.timers)| && Live(s.timers)[k] == s.timers[i];
          assert s'.timers[k].data == id;
        } else {
          assert DeadIn(s.timers, id);
        }
      }
    }
  }

  lemma StepKeeps(s: State, a: Step)
    requires Inv(s) && Enabled(s, a)
    ensures Inv(Apply(s, a))
  {
    match a
    case Setup(delay, now) => SetupKeeps(s, delay, now);
    case Cancel(id) => CancelKeeps(s, id);
    case Interrupt(now) => RetimedKeeps(s, Hasten(s.timers, now));
    case Process(clockBack, w) =>
      if clockBack {
        RetimedKeeps(s, Reset(s.timers));
        PassKeeps(s.(timers := Reset(s.timers)), w);
      } else {
        PassKeeps(s, w);
      }
  }

  ghost predicate StepsTo(s: State, a: Step, s': State) {
    Enabled(s, a) && s' == Apply(s, a)
  }

  // A run takes one enabled step after another.
  ghost predicate Run(ss: seq<State>, steps: seq<Step>) {
    && |ss| == |steps| + 1 && Init(ss[0])
    && forall i {:trigger steps[i]} :: 0 <= i < |steps| ==> StepsTo(ss[i], steps[i], ss[i + 1])
  }

  // The states that end some run.
  ghost predicate Reachable(s: State) {
    exists ss, steps {:trigger Run(ss, steps)} :: Run(ss, steps) && ss[|steps|] == s
  }

  lemma {:induction false} RunKeeps(ss: seq<State>, steps: seq<Step>, n: nat)
    requires Run(ss, steps) && n <= |steps|
    ensures Inv(ss[n])
  {
    if n == 0 {
      assert Inv(ss[0]);
    } else {
      RunKeeps(ss, steps, n - 1);
      assert StepsTo(ss[n - 1], steps[n - 1], ss[n]);
      StepKeeps(ss[n - 1], steps[n - 1]);
    }
  }

  lemma ReachableInv(s: State)
    requires Reachable(s)
    ensures Inv(s)
  {
    var ss, steps :| Run(ss, steps) && ss[|steps|] == s;
    RunKeeps(ss, steps, |steps|);
  }

  // --- the record of a run is true ---

  // A new timer has the next id, is live, and is due `delay` ms from now.
  lemma SetupAdds(s: State, delay: int, now: Time)
    requires now.Normal()
    ensures var t := Apply(s, Setup(delay, now));
            && t.nextId == s.nextId + 1 && |t.timers| == |s.timers| + 1 && t.timers[1..] == s.timers
            && t.timers[0].id == s.nextId == t.timers[0].data && t.timers[0].Live()
            && t.timers[0].when.Millis() == now.Millis() + delay
  {
    DeadlineExact(now, delay);
  }

  // The timers a pass begins with.
  function Begins(s: State, clockBack: bool): seq<Timer> {
    if clockBack then Reset(s.timers) else s.timers
  }

  // What the other fields say is what the steps did: procedures are called for
  // exactly the due live timers and finalizers for the deleted ones, in passes
  // alone, and cancellations are those asked for.
  lemma RecordIsTrue(s: State, a: Step)
    requires Enabled(s, a)
    ensures var t := Apply(s, a);
            && t.nextId == s.nextId + ToInt(a.Setup?)
            && t.fired == s.fired + (if a.Process? then DueIds(Live(Begins(s, a.clockBack)), a.w) else [])
            && t.finalized == s.finalized + (if a.Process? then Dead(s.timers) else [])
            && t.cancelled == s.cancelled + (if a.Cancel? then {a.id} else {})
            && t.stopped == s.stopped + (if a.Cancel? && a.id !in s.fired then {a.id} else {})
  {
    if a.Process? {
      var l := Begins(s, a.clockBack);
      VisitIs(l, |l|, a.w);
      assert l[..|l|] == l;
      LiveReset(s.timers);
    }
  }

  // What a pass leaves: the live timers in their old order, each as it was served
  // or left alone; and what an interrupt leaves: every live timer due.
  lemma PassLeaves(s: State, clockBack: bool, w: World)
    requires Enabled(s, Process(clockBack, w))
    ensures var t, live := Apply(s, Process(clockBack, w)), Live(Begins(s, clockBack));
            |t.timers| == |live| && forall k :: 0 <= k < |live| ==> t.timers[k] == Outcome(live[k], k, w)
  {
    var l := Begins(s, clockBack);
    VisitIs(l, |l|, w);
    assert l[..|l|] == l;
  }

  lemma InterruptHastens(s: State, now: Time, later: Time)
    requires now.Reached(later)
    ensures var t := Apply(s, Interrupt(now));
            |t.timers| == |s.timers|
            && forall i :: 0 <= i < |s.timers| ==>
                 if s.timers[i].Live() then t.timers[i].Live() && t.timers[i].when.Reached(later) else t.timers[i] == s.timers[i]
  {
    HastenIs(s.timers, now, later);
  }

  // A live timer that is due when its turn comes fires in that pass.
  lemma DueFires(s: State, clockBack: bool, w: World, k: nat)
    requires Reachable(s) && Enabled(s, Process(clockBack, w)) && k < |Live(Begins(s, clockBack))|
    ensures var t := Live(Begins(s, clockBack))[k];
            t.id !in s.fired && (t.id in Apply(s, Process(clockBack, w)).fired <==> t.when.Reached(w.clock(k)))
  {
    ReachableInv(s);
    var l := Begins(s, clockBack);
    RecordIsTrue(s, Process(clockBack, w));
    LiveData(l, s.nextId);
    assert Live(l)[k] in l;
    DistinctIds(l, s.nextId);
    FiredExactlyDue(l, w, k);
    VisitIs(l, |l|, w);
    assert l[..|l|] == l;
  }

  lemma DistinctIds(l: seq<Timer>, nextId: nat)
    requires ListOk(l, nextId)
    ensures LiveIdsDistinct(l)
  {
    forall i, j | 0 <= i < j < |l| && l[i].Live() && l[j].Live() ensures l[i].id != l[j].id {
      assert l[i].data != l[j].data;
    }
  }

  // --- over runs ---

  // A timer fires at most once, never once it has been cancelled in time, and
  // is finalized at most once, after it has fired or been cancelled.
  lemma TimerLife(s: State)
    requires Reachable(s)
    ensures Distinct(s.fired) && Distinct(s.finalized)
    ensures forall id :: id in s.stopped ==> id !in s.fired
    ensures forall id :: id in s.finalized ==> id in s.fired || id in s.cancelled
  {
    ReachableInv(s);
  }

  // Every timer ever set up is accounted for: it is one entry of the list, live
  // until it fires or is cancelled, or it has been finalized.
  lemma TimerAccounted(s: State, id: int)
    requires Reachable(s) && 0 <= id < s.nextId
    ensures id in s.finalized <==> !exists i :: 0 <= i < |s.timers| && s.timers[i].data == id
    ensures forall i :: 0 <= i < |s.timers| && s.timers[i].data == id ==>
              (s.timers[i].Live() <==> id !in s.fired && id !in s.cancelled)
              && forall j :: 0 <= j < |s.timers| && s.timers[j].data == id ==> i == j
  {
    ReachableInv(s);
    assert Known(s, id);
    forall i, j | 0 <= i < |s.timers| && 0 <= j < |s.timers| && s.timers[i].data == id && s.timers[j].data == id
      ensures i == j
    {
      OneEntry(s.timers, s.nextId, i, j);
    }
  }

  // A cancellation that comes after the timer fired, or a second one, changes
  // no timer at all.
  lemma LateCancelHarmless(s: State, id: int)
    requires Reachable(s) && 0 <= id < s.nextId && (id in s.fired || id in s.cancelled)
    ensures Apply(s, Cancel(id)).timers == s.timers
  {
    ReachableInv(s);
    CancelTouchesOne(s, id);
  }

  lemma {:induction false} StoppedStays(ss: seq<State>, steps: seq<Step>, i: nat, n: nat, id: int)
    requires Run(ss, steps) && i <= n <= |steps| && id in ss[i].stopped
    ensures id in ss[n].stopped
    decreases n
  {
    if i < n {
      StoppedStays(ss, steps, i, n - 1, id);
      assert StepsTo(ss[n - 1], steps[n - 1], ss[n]);
      RecordIsTrue(ss[n - 1], steps[n - 1]);
    }
  }

  // Over every run: a timer that had not fired when it was cancelled never fires
  // after that.
  lemma CancelledNeverFires(ss: seq<State>, steps: seq<Step>, i: nat, n: nat, id: int)
    requires Run(ss, steps) && i < n <= |steps| && steps[i] == Cancel(id) && id !in ss[i].fired
    ensures id !in ss[n].fired
  {
    assert StepsTo(ss[i], steps[i], ss[i + 1]);
    RecordIsTrue(ss[i], steps[i]);
    StoppedStays(ss, steps, i + 1, n, id);
    RunKeeps(ss, steps, n);
  }

  // The ids handed out by the first `n` steps are counted by their Setup steps.
  function Setups(steps: seq<Step>, n: nat): nat
    requires n <= |steps|
  {
    if n == 0 then 0 else Setups(steps, n - 1) + ToInt(steps[n - 1].Setup?)
  }

  lemma {:induction false} IdsAreSetups(ss: seq<State>, steps: seq<Step>, n: nat)
    requires Run(ss, steps) && n <= |steps|
    ensures ss[n].nextId == Setups(steps, n)
  {
    if 0 < n {
      IdsAreSetups(ss, steps, n - 1);
      assert StepsTo(ss[n - 1], steps[n - 1], ss[n]);
      RecordIsTrue(ss[n - 1], steps[n - 1]);
    }
  }
}
