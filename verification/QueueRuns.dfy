/**
 * Whole runs of the run queue: safety of every access, linearizability,
 * first-in first-out delivery exactly once, and conservation of nodes.
 */
module QueueRuns {
  import opened Base
  import opened QueueMachine
  import opened QueueInvariant
  import opened QueueRefinement
  import F = AtomicFifo

  // A step that is not safe has no defined outcome; SafeRun shows that none is
  // ever taken.
  ghost predicate StepsTo(s: State, a: Step, s': State) {
    Enabled(s, a) && (Safe(s, a) ==> s' == Apply(s, a))
  }

  // A run takes any enabled step of any thread at each point.
  ghost predicate Run(ss: seq<State>, steps: seq<Step>) {
    && |ss| == |steps| + 1
    && Init(ss[0])
    && forall i {:trigger steps[i]} :: 0 <= i < |steps| ==> StepsTo(ss[i], steps[i], ss[i + 1])
  }

  ghost function InitAux(s: State): Aux
    requires Init(s)
  {
    Aux(map q | q in s.queues :: History([], 0),
        map n | n in s.heap :: var q :| q in s.queues && s.queues[q].head == n; Dummy(q),
        map[])
  }

  lemma InitStructure(s: State)
    requires Init(s)
    ensures Structure(s, InitAux(s))
  {
    forall q: Qid, k: nat ensures LinkOk(s, InitAux(s), q, k) {}
  }

  lemma InitInv(s: State)
    requires Init(s)
    ensures Inv(s, InitAux(s))
  {
    InitStructure(s);
    forall q ensures TailOk(s, InitAux(s), q) {}
  }

  // The auxiliary state beside the n-th state of a run.
  ghost function AuxAt(ss: seq<State>, steps: seq<Step>, n: nat): Aux
    requires |ss| == |steps| + 1 && Init(ss[0]) && n <= |steps|
  {
    if n == 0 then InitAux(ss[0])
    else
      var s, x, a := ss[n - 1], AuxAt(ss, steps, n - 1), steps[n - 1];
      if Safe(s, a) then Follow(s, x, a) else x
  }

  ghost predicate Follows(s: State, x: Aux, a: Step, s': State, x': Aux) {
    Inv(s, x) && Enabled(s, a) && Safe(s, a) && s' == Apply(s, a) && x' == Follow(s, x, a)
  }

  lemma StepInv(s: State, x: Aux, a: Step, s': State)
    requires Inv(s, x) && StepsTo(s, a, s')
    ensures Safe(s, a) && Follows(s, x, a, s', Follow(s, x, a)) && Inv(s', Follow(s, x, a))
  {
    NoDanglingAccess(s, x, a);
    StepKeeps(s, x, a);
  }

  lemma NextInv(ss: seq<State>, steps: seq<Step>, i: nat)
    requires Run(ss, steps) && i < |steps| && Inv(ss[i], AuxAt(ss, steps, i))
    ensures Follows(ss[i], AuxAt(ss, steps, i), steps[i], ss[i + 1], AuxAt(ss, steps, i + 1))
    ensures Inv(ss[i + 1], AuxAt(ss, steps, i + 1))
  {
    assert StepsTo(ss[i], steps[i], ss[i + 1]);
    StepInv(ss[i], AuxAt(ss, steps, i), steps[i], ss[i + 1]);
  }

  lemma {:induction false} RunInv(ss: seq<State>, steps: seq<Step>, n: nat)
    requires Run(ss, steps) && n <= |steps|
    ensures Inv(ss[n], AuxAt(ss, steps, n))
  {
    if n == 0 {
      InitInv(ss[0]);
    } else {
      RunInv(ss, steps, n - 1);
      NextInv(ss, steps, n - 1);
    }
  }

  lemma StepAt(ss: seq<State>, steps: seq<Step>, i: nat)
    requires Run(ss, steps) && i < |steps|
    ensures Follows(ss[i], AuxAt(ss, steps, i), steps[i], ss[i + 1], AuxAt(ss, steps, i + 1))
  {
    RunInv(ss, steps, i);
    NextInv(ss, steps, i);
  }

  // No thread ever touches a freed node, whatever the interleaving.
  lemma SafeRun(ss: seq<State>, steps: seq<Step>, i: nat)
    requires Run(ss, steps) && i < |steps|
    ensures Safe(ss[i], steps[i]) && ss[i + 1] == Apply(ss[i], steps[i])
  {
    StepAt(ss, steps, i);
  }

  // --- linearizability ---

  ghost predicate FifoSteps(f: F.Fifo, e: F.Event, f': F.Fifo) {
    F.Possible(f, e) && f' == F.Do(f, e)
  }

  // A run of the atomic FIFO that starts with empty queues.
  ghost predicate FifoRun(fs: seq<F.Fifo>, es: seq<F.Event>) {
    && |fs| == |es| + 1
    && (forall q :: q in fs[0].contents ==> fs[0].contents[q] == [])
    && forall i {:trigger es[i]} :: 0 <= i < |es| ==> FifoSteps(fs[i], es[i], fs[i + 1])
  }

  // What callers can see of a state: who stands inside which call, what each
  // finished poll will return, and who holds which fiber.
  ghost predicate LooksLike(s: State, f: F.Fifo) {
    Ops(s.threads) == f.ops && Holders(s.held) == f.held
  }

  ghost predicate LookAlike(ss: seq<State>, fs: seq<F.Fifo>) {
    |fs| == |ss| && forall i {:trigger fs[i]} :: 0 <= i < |ss| ==> LooksLike(ss[i], fs[i])
  }

  ghost function FifosBeside(ss: seq<State>, steps: seq<Step>): (fs: seq<F.Fifo>)
    requires |ss| == |steps| + 1 && Init(ss[0])
    ensures |fs| == |ss| && forall i {:trigger fs[i]} :: 0 <= i < |ss| ==> fs[i] == Abs(ss[i], AuxAt(ss, steps, i))
  {
    seq(|ss|, i requires 0 <= i < |ss| => Abs(ss[i], AuxAt(ss, steps, i)))
  }

  ghost function EventsBeside(ss: seq<State>, steps: seq<Step>): (es: seq<F.Event>)
    requires |ss| == |steps| + 1
    ensures |es| == |steps|
    ensures forall i {:trigger es[i]} :: 0 <= i < |es| ==>
              es[i] == if Safe(ss[i], steps[i]) then EventOf(ss[i], steps[i]) else F.Quiet
  {
    seq(|steps|, i requires 0 <= i < |steps| => if Safe(ss[i], steps[i]) then EventOf(ss[i], steps[i]) else F.Quiet)
  }

  lemma StepsBeside(ss: seq<State>, steps: seq<Step>, i: nat)
    requires Run(ss, steps) && i < |steps|
    ensures FifoSteps(FifosBeside(ss, steps)[i], EventsBeside(ss, steps)[i], FifosBeside(ss, steps)[i + 1])
  {
    StepAt(ss, steps, i);
    StepRefines(ss[i], AuxAt(ss, steps, i), steps[i]);
  }

  // To its callers every run of the two-lock queue is a run of the atomic FIFO.
  lemma RunRefines(ss: seq<State>, steps: seq<Step>)
    requires Run(ss, steps)
    ensures exists fs, es {:trigger FifoRun(fs, es)} :: FifoRun(fs, es) && LookAlike(ss, fs)
  {
    var fs, es := FifosBeside(ss, steps), EventsBeside(ss, steps);
    forall i | 0 <= i < |es| ensures FifoSteps(fs[i], es[i], fs[i + 1]) {
      StepsBeside(ss, steps, i);
    }
    assert FifoRun(fs, es) && LookAlike(ss, fs);
  }

  // --- delivery ---

  // The fibers linked into a queue by the first `n` steps, in the order of the
  // `tail->next` writes.
  ghost function Linked(ss: seq<State>, steps: seq<Step>, q: Qid, n: nat): seq<Handle>
    requires |ss| == |steps| + 1 && n <= |steps|
  {
    if n == 0 then [] else
      var s, a := ss[n - 1], steps[n - 1];
      Linked(ss, steps, q, n - 1)
      + if a.LinkNodeStep? && a.t in s.threads && s.threads[a.t].q == q then [s.threads[a.t].fiber] else []
  }

  // The fibers whose poll moved the head of a queue, in the order of the moves.
  ghost function Taken(ss: seq<State>, steps: seq<Step>, q: Qid, n: nat): seq<Handle>
    requires |ss| == |steps| + 1 && n <= |steps|
  {
    if n == 0 then [] else
      var s, a := ss[n - 1], steps[n - 1];
      Taken(ss, steps, q, n - 1)
      + if a.MoveHeadStep? && a.t in s.threads && s.threads[a.t].q == q then [s.threads[a.t].fiber] else []
  }

  // The history of a queue in a state, and what a run has done to the queue.
  ghost predicate HistoryIs(x: Aux, q: Qid, linked: seq<Handle>, taken: seq<Handle>) {
    q in x.hist && x.hist[q].taken <= |x.hist[q].linked|
    && linked == x.hist[q].linked && taken == linked[..x.hist[q].taken]
  }

  lemma HistoryGrows(s: State, x: Aux, a: Step, q: Qid, linked: seq<Handle>, taken: seq<Handle>)
    requires Enabled(s, a) && Safe(s, a) && ThreadOk(s, x, a.t) && HistoryIs(x, q, linked, taken)
    ensures var me := s.threads[a.t];
            HistoryIs(Follow(s, x, a), q, linked + (if a.LinkNodeStep? && me.q == q then [me.fiber] else []),
                                          taken + (if a.MoveHeadStep? && me.q == q then [me.fiber] else []))
  {
  }

  lemma HistoryStep(ss: seq<State>, steps: seq<Step>, q: Qid, n: nat)
    requires Run(ss, steps) && n < |steps|
    requires HistoryIs(AuxAt(ss, steps, n), q, Linked(ss, steps, q, n), Taken(ss, steps, q, n))
    ensures HistoryIs(AuxAt(ss, steps, n + 1), q, Linked(ss, steps, q, n + 1), Taken(ss, steps, q, n + 1))
  {
    var s, x, a := ss[n], AuxAt(ss, steps, n), steps[n];
    assert Enabled(s, a) && Safe(s, a) && ThreadOk(s, x, a.t) && AuxAt(ss, steps, n + 1) == Follow(s, x, a) by {
      StepAt(ss, steps, n);
    }
    HistoryGrows(s, x, a, q, Linked(ss, steps, q, n), Taken(ss, steps, q, n));
  }

  lemma {:induction false} HistoryIsRun(ss: seq<State>, steps: seq<Step>, q: Qid, n: nat)
    requires Run(ss, steps) && q in ss[0].queues && n <= |steps|
    ensures HistoryIs(AuxAt(ss, steps, n), q, Linked(ss, steps, q, n), Taken(ss, steps, q, n))
  {
    if 0 < n {
      HistoryIsRun(ss, steps, q, n - 1);
      HistoryStep(ss, steps, q, n - 1);
    }
  }

  // Exactly once and in order: at every point of a run, what polls have taken
  // from a queue is what adds have linked into it, from the first on.
  lemma DeliveredInOrder(ss: seq<State>, steps: seq<Step>, q: Qid, n: nat)
    requires Run(ss, steps) && q in ss[0].queues && n <= |steps|
    ensures Taken(ss, steps, q, n) <= Linked(ss, steps, q, n)
  {
    HistoryIsRun(ss, steps, q, n);
  }

  // --- conservation ---

  // A one-to-one map onto a set counts it.
  lemma {:induction false} OneToOne<A, B>(f: map<A, B>, b: set<B>)
    requires forall x :: x in f ==> f[x] in b
    requires forall x, y :: x in f && y in f && f[x] == f[y] ==> x == y
    requires forall y :: y in b ==> exists x :: x in f && f[x] == y
    ensures |f| == |b|
    decreases |b|
  {
    if b == {} {
      assert f == map[];
    } else {
      var y :| y in b;
      var x :| x in f && f[x] == y;
      var f' := f - {x};
      assert f == f'[x := y] && f'.Keys == f.Keys - {x};
      forall z | z in b - {y} ensures exists w :: w in f' && f'[w] == z {
        var w :| w in f && f[w] == z;
        assert w in f';
      }
      OneToOne(f', b - {y});
    }
  }

  ghost function Owners(s: State): set<Owner> {
    (set q | q in s.queues :: Dummy(q)) + (set h | h in s.packing :: Of(h))
  }

  lemma {:induction false} DummiesCount(qs: set<Qid>)
    ensures |set q | q in qs :: Dummy(q)| == |qs|
  {
    if qs != {} {
      var p :| p in qs;
      DummiesCount(qs - {p});
      assert (set q | q in qs :: Dummy(q)) == (set q | q in qs - {p} :: Dummy(q)) + {Dummy(p)};
    }
  }

  lemma {:induction false} FibersCount(hs: set<Handle>)
    ensures |set h | h in hs :: Of(h)| == |hs|
  {
    if hs != {} {
      var g :| g in hs;
      FibersCount(hs - {g});
      assert (set h | h in hs :: Of(h)) == (set h | h in hs - {g} :: Of(h)) + {Of(g)};
    }
  }

  lemma OwnersCount(s: State)
    ensures |Owners(s)| == |s.queues| + |s.packing|
  {
    DummiesCount(s.queues.Keys);
    FibersCount(s.packing.Keys);
    var dummies, fibers := set q | q in s.queues.Keys :: Dummy(q), set h | h in s.packing.Keys :: Of(h);
    assert dummies !! fibers && Owners(s) == dummies + fibers;
  }

  // The node that belongs to a fiber: its packing, or the dummy a poll is
  // about to give it.
  lemma FiberHasNode(s: State, x: Aux, h: Handle) returns (n: Node)
    requires Inv(s, x) && h in s.packing
    ensures n in x.own && x.own[n] == Of(h)
  {
    assert PlaceOk(s, x, h);
    match x.place[h]
    case Outside => n := s.packing[h];
    case Adding(t) => assert AdderOk(s, x, t); n := s.packing[h];
    case Queued(q, k) => assert QueuedOk(s, x, q, k); n := s.packing[h];
    case Polling(t) => assert TakerOk(s, x, t); n := s.threads[t].node;
  }

  lemma NodesOwned(s: State, x: Aux)
    requires Inv(s, x)
    ensures |s.heap| == |s.queues| + |s.packing|
  {
    forall n | n in x.own ensures x.own[n] in Owners(s) { assert OwnOk(s, x, n); }
    forall m, n | m in x.own && n in x.own && x.own[m] == x.own[n] ensures m == n {
      assert OwnOk(s, x, m) && OwnOk(s, x, n);
    }
    forall o | o in Owners(s) ensures exists n :: n in x.own && x.own[n] == o {
      match o
      case Dummy(q) => assert HeadOk(s, x, q);
      case Of(h) => var n := FiberHasNode(s, x, h);
    }
    OneToOne(x.own, Owners(s));
    OwnersCount(s);
    assert |x.own| == |x.own.Keys| && |s.heap| == |s.heap.Keys|;
  }

  // No node is lost and none is made: at every point of every run there are as
  // many nodes as queues and fibers.
  lemma NodesConserved(ss: seq<State>, steps: seq<Step>, i: nat)
    requires Run(ss, steps) && i < |ss|
    ensures |ss[i].heap| == |ss[i].queues| + |ss[i].packing|
  {
    RunInv(ss, steps, i);
    NodesOwned(ss[i], AuxAt(ss, steps, i));
  }

  // A fiber that has been polled carries its own handle in its node, so that a
  // later re-enqueue through `packing->value` puts back that very fiber; and no
  // two fibers outside the queues share a node.
  lemma HomeNode(ss: seq<State>, steps: seq<Step>, i: nat, h: Handle)
    requires Run(ss, steps) && i < |ss| && h in ss[i].held
    ensures var s := ss[i];
            && h in s.packing && s.packing[h] in s.heap
            && (s.held[h].polled ==> s.heap[s.packing[h]].value == Some(h))
            && (forall g :: g in s.held && g != h ==> g in s.packing && s.packing[g] != s.packing[h])
            && (forall q :: q in s.queues ==> s.queues[q].head != s.packing[h])
  {
    RunInv(ss, steps, i);
    var s, x := ss[i], AuxAt(ss, steps, i);
    assert HeldOk(s, x, h) && PlaceOk(s, x, h);
    forall g | g in s.held && g != h ensures g in s.packing && s.packing[g] != s.packing[h] {
      assert HeldOk(s, x, g) && PlaceOk(s, x, g);
    }
    forall q | q in s.queues ensures s.queues[q].head != s.packing[h] { assert HeadOk(s, x, q); }
  }
}
