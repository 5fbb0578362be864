/**
 * The event loop's timers: an unsorted singly linked list, changed in place.
 * A timer is deleted by overwriting its id; the next pass unlinks it.
 */
module TimerList {
  import opened Base
  import opened Deadlines
  import opened TimerPass

  class TimeEvent {
    var id: int
    var when: Time
    var clientData: int
    var next: TimeEvent?

    constructor (id: int, when: Time, clientData: int, next: TimeEvent?)
      ensures this.id == id && this.when == when && this.clientData == clientData && this.next == next
    {
      this.id, this.when, this.clientData, this.next := id, when, clientData, next;
    }

    ghost function Value(): Timer
      reads this`id, this`when, this`clientData
    {
      Timer(id, when, clientData)
    }
  }

  // `first` starts a chain that runs through `nodes` and then to `rest`.
  ghost predicate Chain(first: TimeEvent?, nodes: seq<TimeEvent>, rest: TimeEvent?)
    reads (set n | n in nodes)`next
  {
    && first == (if nodes == [] then rest else nodes[0])
    && (forall i {:trigger nodes[i].next} :: 0 <= i < |nodes| ==>
          nodes[i].next == if i + 1 < |nodes| then nodes[i + 1] else rest)
  }

  // The nodes hold these timers.
  ghost predicate Hold(nodes: seq<TimeEvent>, timers: seq<Timer>)
    reads (set n | n in nodes)`id, (set n | n in nodes)`when, (set n | n in nodes)`clientData
  {
    |nodes| == |timers| && forall i {:trigger nodes[i].Value()} {:trigger timers[i]} :: 0 <= i < |nodes| ==> nodes[i].Value() == timers[i]
  }

  ghost function LastOf(nodes: seq<TimeEvent>): TimeEvent? {
    if nodes == [] then null else nodes[|nodes| - 1]
  }

  // A pass in progress: `kept` is linked before `te` and holds `kv`, `rest` is
  // still to be visited from `te` on and holds `rv`.
  ghost predicate Halfway(first: TimeEvent?, kept: seq<TimeEvent>, kv: seq<Timer>,
                          te: TimeEvent?, rest: seq<TimeEvent>, rv: seq<Timer>)
    reads kept, rest
  {
    && Chain(first, kept, te) && Hold(kept, kv)
    && Chain(te, rest, null) && Hold(rest, rv)
    && Distinct(kept) && Distinct(rest) && forall i, j :: 0 <= i < |kept| && 0 <= j < |rest| ==> kept[i] != rest[j]
  }

  class EventPoll {
    var timeEventHead: TimeEvent?
    var timeEventNextId: int
    var lastTime: int
    ghost var nodes: seq<TimeEvent>
    ghost var called: seq<int>      // the ids whose procedures were called, in order
    ghost var finalized: seq<int>   // the client data finalizers were called with, in order

    // A well-formed acyclic list; every live id has been handed out.
    ghost predicate Valid()
      reads this, nodes
    {
      && Chain(timeEventHead, nodes, null)
      && Distinct(nodes)
      && 0 <= timeEventNextId
      && (forall i {:trigger nodes[i].id} :: 0 <= i < |nodes| ==> DELETED <= nodes[i].id < timeEventNextId)
    }

    ghost function Timers(): seq<Timer>
      reads this, nodes
    {
      seq(|nodes|, i requires 0 <= i < |nodes| reads this, nodes => nodes[i].Value())
    }

    constructor (now: int)
      ensures Valid() && nodes == [] && timeEventNextId == 0 && lastTime == now && called == [] && finalized == []
    {
      timeEventHead, timeEventNextId, lastTime := null, 0, now;
      nodes, called, finalized := [], [], [];
    }

    // A new timer goes to the front under a new id.
    method Create(milliseconds: int, now: Time, clientData: int) returns (id: int)
      requires Valid()
      modifies this
      ensures Valid() && |nodes| == |old(nodes)| + 1 && fresh(nodes[0]) && nodes[1..] == old(nodes)
      ensures id == old(timeEventNextId) && timeEventNextId == id + 1 && lastTime == old(lastTime)
      ensures called == old(called) && finalized == old(finalized)
      ensures Timers() == [Timer(id, AddMilliseconds(now, milliseconds), clientData)] + old(Timers())
    {
      id := timeEventNextId;
      timeEventNextId := timeEventNextId + 1;
      var te := new TimeEvent(id, AddMilliseconds(now, milliseconds), clientData, timeEventHead);
      timeEventHead := te;
      nodes := [te] + nodes;
    }

    // The first timer with this id loses it; no other timer changes.
    method Delete(id: int) returns (found: bool)
      requires Valid()
      modifies nodes
      ensures Valid() && Timers() == Mark(old(Timers()), id)
      ensures found <==> exists i :: 0 <= i < |nodes| && old(nodes[i].id) == id
    {
      var te := timeEventHead;
      ghost var l := Timers();
      ghost var i := 0;
      while te != null
        invariant 0 <= i <= |nodes| && te == (if i < |nodes| then nodes[i] else null)
        invariant forall j :: 0 <= j < i ==> l[j].id != id
        decreases |nodes| - i
      {
        if te.id == id {
          MarkAt(l, id, i);
          te.id := DELETED;
          assert Timers() == l[i := l[i].(id := DELETED)];
          return true;
        }
        assert nodes[i].next == if i + 1 < |nodes| then nodes[i + 1] else null;
        assert l[i].id == nodes[i].id;
        te := te.next;
        i := i + 1;
      }
      MarkAt(l, id, i);
      assert forall j :: 0 <= j < |nodes| ==> nodes[j].id == l[j].id;
      return false;
    }

    // A timer with the least deadline, deleted ones included.
    method SearchNearest() returns (nearest: TimeEvent?)
      requires Valid()
      ensures nearest == null <==> nodes == []
      ensures nearest != null ==> nearest in nodes && forall n :: n in nodes ==> !n.when.Before(nearest.when)
    {
      var te := timeEventHead;
      nearest := null;
      ghost var i := 0;
      while te != null
        invariant 0 <= i <= |nodes| && te == (if i < |nodes| then nodes[i] else null)
        invariant nearest == null <==> i == 0
        invariant nearest != null ==>
                    nearest in nodes && forall j :: 0 <= j < i ==> !nodes[j].when.Before(nearest.when)
        decreases |nodes| - i
      {
        if nearest == null || te.when.Before(nearest.when) {
          nearest := te;
        }
        assert nodes[i].next == if i + 1 < |nodes| then nodes[i + 1] else null;
        te := te.next;
        i := i + 1;
      }
    }

    ghost predicate Earliest(m: TimeEvent)
      reads nodes, this
    {
      m in nodes && forall n :: n in nodes ==> m.when.Millis() <= n.when.Millis()
    }

    // How long one round of event processing may sleep: up to the nearest
    // deadline in the list, whoever it belongs to; so past no deadline that is
    // still ahead, unless one is overdue already, and then less than a second.
    method PollTimeout(now: Time, timeout: int, maxfd: int) returns (s: Sleep)
      requires Valid() && now.Normal() && forall n :: n in nodes ==> n.when.Normal()
      ensures timeout != 0 && nodes != [] ==> s.For? && exists m :: Earliest(m) && s.ms == TimeUntil(m.when, now).Millis()
      ensures timeout != 0 && (exists n :: n in nodes && n.when.Millis() < now.Millis()) ==> s.For? && 0 <= s.ms < 1000
      ensures timeout != 0 && nodes != [] && (forall n :: n in nodes ==> now.Millis() <= n.when.Millis()) ==>
                forall n :: n in nodes ==> now.Millis() + s.ms <= n.when.Millis()
      ensures timeout != 0 && nodes == [] ==> s == if timeout > 0 then For(timeout) else Forever
      ensures timeout == 0 ==> s == if maxfd == -1 then NoPoll else For(0)
    {
      if maxfd == -1 && timeout == 0 {
        return NoPoll;
      }
      var shortest: TimeEvent? := null;
      if timeout != 0 {
        shortest := SearchNearest();
      }
      if shortest != null {
        var sec, usec := shortest.when.sec - now.sec, 0;
        if shortest.when.ms < now.ms {
          usec := (shortest.when.ms + 1000 - now.ms) * 1000;
          sec := sec - 1;
        } else {
          usec := (shortest.when.ms - now.ms) * 1000;
        }
        if sec < 0 { sec := 0; }
        if usec < 0 { usec := 0; }
        s := For(sec * 1000 + usec / 1000);
        assert s.ms == TimeUntil(shortest.when, now).Millis();
        WaitIsGap(shortest.when, now);
        forall n | n in nodes ensures shortest.when.Millis() <= n.when.Millis() { OrderIsTotal(n.when, shortest.when); }
        assert Earliest(shortest);
      } else if timeout > 0 {
        s := For(TruncDiv(timeout, 1000) * 1000 + TruncMod(timeout, 1000) * 1000 / 1000);
      } else if timeout == 0 {
        s := For(0);
      } else {
        s := Forever;
      }
    }

    // Every timer not yet deleted becomes due at once.
    method FireAll(now: Time)
      requires Valid()
      modifies nodes
      ensures Valid() && Timers() == Hasten(old(Timers()), now)
    {
      var te := timeEventHead;
      ghost var i := 0;
      while te != null
        invariant 0 <= i <= |nodes| && te == (if i < |nodes| then nodes[i] else null)
        invariant Valid()
        invariant forall j :: 0 <= j < |nodes| ==>
                    && nodes[j].id == old(nodes[j].id) && nodes[j].clientData == old(nodes[j].clientData)
                    && nodes[j].when == if j < i && nodes[j].id != DELETED then now else old(nodes[j].when)
        decreases |nodes| - i
      {
        if te.id != DELETED {
          te.when := now;
        }
        assert nodes[i].next == if i + 1 < |nodes| then nodes[i + 1] else null;
        te := te.next;
        i := i + 1;
      }
    }

    // The clock has gone back: every deadline's seconds become zero.
    method ResetSeconds()
      requires Valid()
      modifies nodes
      ensures Valid() && Timers() == Reset(old(Timers()))
    {
      var te := timeEventHead;
      ghost var i := 0;
      while te != null
        invariant 0 <= i <= |nodes| && te == (if i < |nodes| then nodes[i] else null)
        invariant Valid()
        invariant forall j :: 0 <= j < |nodes| ==>
                    && nodes[j].id == old(nodes[j].id) && nodes[j].clientData == old(nodes[j].clientData)
                    && nodes[j].when == if j < i then old(nodes[j].when).(sec := 0) else old(nodes[j].when)
        decreases |nodes| - i
      {
        te.when := te.when.(sec := 0);
        assert nodes[i].next == if i + 1 < |nodes| then nodes[i + 1] else null;
        te := te.next;
        i := i + 1;
      }
    }

    // The calls out of the event loop, each recorded as it is made.
    method TimeProc(te: TimeEvent, w: World) returns (again: int)
      modifies this`called
      ensures again == w.proc(te.id) && called == old(called) + [te.id]
    {
      called := called + [te.id];
      again := w.proc(te.id);
    }

    method FinalizerProc(te: TimeEvent)
      modifies this`finalized
      ensures finalized == old(finalized) + [te.clientData]
    {
      finalized := finalized + [te.clientData];
    }

    // Calls the procedure of a timer found due: one with nothing more to do is
    // marked deleted, the others are armed again.
    method Serve(te: TimeEvent, k: nat, w: World)
      modifies this`called, te`id, te`when
      ensures te.Value() == TimerPass.Serve(old(te.Value()), k, w)
      ensures called == old(called) + [old(te.id)]
    {
      var again := TimeProc(te, w);
      if again != NOMORE {
        te.when := AddMilliseconds(w.rearm(k), again);
      } else {
        te.id := DELETED;
      }
    }

    // Takes `te`, found deleted, out of the chain and finalizes it.
    method Unlink(prev: TimeEvent?, te: TimeEvent,
                  ghost kept: seq<TimeEvent>, ghost kv: seq<Timer>, ghost rest: seq<TimeEvent>, ghost rv: seq<Timer>)
      returns (next: TimeEvent?)
      requires rest != [] && Halfway(timeEventHead, kept, kv, te, rest, rv)
      requires prev == LastOf(kept)
      modifies this`timeEventHead, this`finalized, (if prev == null then {} else {prev})`next
      ensures Halfway(timeEventHead, kept, kv, next, rest[1..], rv[1..])
      ensures finalized == old(finalized) + [rv[0].data]
    {
      assert te == rest[0] && te.Value() == rv[0] && te.next == if 1 < |rest| then rest[1] else null;
      next := te.next;
      if prev == null {
        timeEventHead := te.next;
      } else {
        prev.next := te.next;
      }
      FinalizerProc(te);
    }

    // Serves `te` if it is due and goes on to the next node.
    method VisitLive(te: TimeEvent, k: nat, w: World,
                     ghost kept: seq<TimeEvent>, ghost kv: seq<Timer>, ghost rest: seq<TimeEvent>, ghost rv: seq<Timer>)
      returns (due: bool, next: TimeEvent?)
      requires rest != [] && Halfway(timeEventHead, kept, kv, te, rest, rv)
      modifies this`called, te`id, te`when
      ensures due == rv[0].when.Reached(w.clock(k))
      ensures called == old(called) + if due then [rv[0].id] else []
      ensures Halfway(timeEventHead, kept + [te], kv + [Outcome(rv[0], k, w)], next, rest[1..], rv[1..])
    {
      assert te == rest[0] && te.Value() == rv[0] && te.next == if 1 < |rest| then rest[1] else null;
      next := te.next;
      due := te.when.Reached(w.clock(k));
      if due {
        Serve(te, k, w);
      }
    }

    // Since the logs held `c` and `f`, exactly the calls of the pass were made.
    ghost predicate Logged(c: seq<int>, f: seq<int>, p: Progress)
      reads this
    {
      called == c + p.fired && finalized == f + p.finalized
    }

    // One turn of the pass, at the node `te`.
    method Turn(te: TimeEvent, prev: TimeEvent?, k: nat, w: World,
                ghost done: Walked, ghost rest: seq<TimeEvent>, ghost rv: seq<Timer>, ghost c: seq<int>, ghost f: seq<int>)
      returns (due: bool, next: TimeEvent?, prev': TimeEvent?, k': nat)
      requires rest != [] && Halfway(timeEventHead, done.kept, done.p.kept, te, rest, rv)
      requires prev == LastOf(done.kept) && k == |done.kept| && Logged(c, f, done.p)
      modifies this`timeEventHead, this`called, this`finalized, (if prev == null then {} else {prev})`next, te`id, te`when
      ensures var done' := WalkOne(done, rest[0], rv[0], w);
              && Halfway(timeEventHead, done'.kept, done'.p.kept, next, rest[1..], rv[1..])
              && prev' == LastOf(done'.kept) && k' == |done'.kept| && Logged(c, f, done'.p)
              && |done'.p.fired| == |done.p.fired| + ToInt(due)
      ensures due == (rv[0].Live() && rv[0].when.Reached(w.clock(k)))
    {
      assert te == rest[0] && te.Value() == rv[0];
      if te.id == DELETED {
        next := Unlink(prev, te, done.kept, done.p.kept, rest, rv);
        due, prev', k' := false, prev, k;
      } else {
        due, next := VisitLive(te, k, w, done.kept, done.p.kept, rest, rv);
        prev', k' := te, k + 1;
      }
    }

    // The loop over the list; `all` are its nodes and `l` the timers they hold.
    // The source skips a timer whose id exceeds the last one handed out; Valid
    // says there is none.
    method Walk(w: World, ghost all: seq<TimeEvent>, ghost l: seq<Timer>) returns (processed: int)
      requires Halfway(timeEventHead, [], [], timeEventHead, all, l)
      modifies this`timeEventHead, this`called, this`finalized, all
      ensures var done := WalkAll(Walked([], Progress([], [], [])), all, l, w);
              && Halfway(timeEventHead, done.kept, done.p.kept, null, [], [])
              && Logged(old(called), old(finalized), done.p)
              && processed == |done.p.fired|
    {
      processed := 0;
      ghost var done, rest, rv := Walked([], Progress([], [], [])), all, l;
      ghost var result, c, f := WalkAll(done, all, l, w), called, finalized;
      var prev: TimeEvent? := null;
      var te := timeEventHead;
      var k := 0;
      while te != null
        invariant |rest| == |rv| && (te == null <==> rest == [])
        invariant WalkAll(done, rest, rv, w) == result
        invariant Halfway(timeEventHead, done.kept, done.p.kept, te, rest, rv)
        invariant prev == LastOf(done.kept) && k == |done.kept|
        invariant processed == |done.p.fired| && Logged(c, f, done.p)
        invariant forall n :: n in rest || n in done.kept ==> n in all
        decreases |rest|
      {
        assert te == rest[0] && te in rest && (prev == null || prev in done.kept);
        var due;
        due, te, prev, k := Turn(te, prev, k, w, done, rest, rv, c, f);
        processed := if due then processed + 1 else processed;
        WalkAllStep(done, rest, rv, w);
        done, rest, rv := WalkOne(done, rest[0], rv[0], w), rest[1..], rv[1..];
      }
    }

    // A pass begins with everything to visit, ...
    lemma PassBegins()
      requires Valid()
      ensures Halfway(timeEventHead, [], [], timeEventHead, nodes, Timers())
    {
    }

    // ... and ends with the nodes it kept.
    lemma PassEnds(kv: seq<Timer>)
      requires Hold(nodes, kv)
      ensures Timers() == kv
    {
    }

    // One pass over the list, in place: nodes found deleted are unlinked and
    // finalized, once each; of the live ones the procedure is called once if
    // they are due, and not at all otherwise.
    method Pass(w: World) returns (processed: int)
      requires Valid()
      modifies this, nodes
      ensures Valid() && timeEventNextId == old(timeEventNextId) && lastTime == old(lastTime)
      ensures nodes == Survivors(old(nodes), old(Timers()), |old(nodes)|)
      ensures Timers() == Visit(old(Timers()), |old(nodes)|, w).kept
      ensures called == old(called) + DueIds(Live(old(Timers())), w)
      ensures finalized == old(finalized) + Dead(old(Timers()))
      ensures processed == |DueIds(Live(old(Timers())), w)|
    {
      ghost var l := Timers();
      WalkIsVisit(nodes, l, w);
      PassCalls(l, w);
      PassBegins();
      ghost var kept := WalkAll(Walked([], Progress([], [], [])), nodes, l, w).kept;
      processed := Walk(w, nodes, l);
      KeptSettles(timeEventHead, kept, l, w, timeEventNextId);
      nodes := kept;
      PassEnds(Visit(l, |l|, w).kept);
    }

    method ProcessTimeEvents(now: int, w: World) returns (processed: int)
      requires Valid()
      modifies this, nodes
      ensures Valid() && timeEventNextId == old(timeEventNextId) && lastTime == now
      ensures var l := if now < old(lastTime) then Reset(old(Timers())) else old(Timers());
              && nodes == Survivors(old(nodes), l, |l|)
              && Timers() == Visit(l, |l|, w).kept
              && called == old(called) + DueIds(Live(l), w)
              && finalized == old(finalized) + Dead(l)
              && processed == |DueIds(Live(l), w)|
    {
      ghost var l := if now < lastTime then Reset(Timers()) else Timers();
      if now < lastTime {
        ResetSeconds();
      }
      lastTime := now;
      assert Timers() == l && |l| == |nodes|;
      processed := Pass(w);
    }
  }

  // The nodes a pass leaves linked: those not deleted when it came by.
  ghost function Survivors(nodes: seq<TimeEvent>, l: seq<Timer>, n: nat): seq<TimeEvent>
    requires |nodes| == |l| && n <= |l|
  {
    if n == 0 then [] else Survivors(nodes, l, n - 1) + if l[n - 1].Live() then [nodes[n - 1]] else []
  }

  // The calls a whole pass makes.
  lemma PassCalls(l: seq<Timer>, w: World)
    ensures var p := Visit(l, |l|, w); p.fired == DueIds(Live(l), w) && p.finalized == Dead(l)
  {
    VisitIs(l, |l|, w);
    assert l[..|l|] == l;
  }

  // The list a pass leaves is well formed and holds the survivors.
  lemma KeptSettles(first: TimeEvent?, kept: seq<TimeEvent>, l: seq<Timer>, w: World, bound: int)
    requires Halfway(first, kept, Visit(l, |l|, w).kept, null, [], [])
    requires forall j {:trigger l[j]} :: 0 <= j < |l| ==> DELETED <= l[j].id < bound
    ensures Chain(first, kept, null) && Distinct(kept)
    ensures Hold(kept, Visit(l, |l|, w).kept)
    ensures forall j {:trigger kept[j].id} :: 0 <= j < |kept| ==> DELETED <= kept[j].id < bound
  {
    VisitIds(l, |l|, w, bound);
    assert forall j {:trigger kept[j].id} :: 0 <= j < |kept| ==> kept[j].Value() == Visit(l, |l|, w).kept[j];
  }

  // What the pass has behind it: the nodes still linked and the progress made.
  datatype Walked = Walked(kept: seq<TimeEvent>, p: Progress)

  ghost function WalkOne(done: Walked, n: TimeEvent, t: Timer, w: World): Walked {
    var p, k := done.p, |done.kept|;
    if !t.Live() then done.(p := p.(finalized := p.finalized + [t.data]))
    else Walked(done.kept + [n],
                p.(kept := p.kept + [Outcome(t, k, w)],
                   fired := if t.when.Reached(w.clock(k)) then p.fired + [t.id] else p.fired))
  }

  ghost function WalkAll(done: Walked, rest: seq<TimeEvent>, rv: seq<Timer>, w: World): Walked
    requires |rest| == |rv|
    decreases |rest|
  {
    if rest == [] then done else WalkAll(WalkOne(done, rest[0], rv[0], w), rest[1..], rv[1..], w)
  }

  lemma WalkAllStep(done: Walked, rest: seq<TimeEvent>, rv: seq<Timer>, w: World)
    requires |rest| == |rv| > 0
    ensures WalkAll(done, rest, rv, w) == WalkAll(WalkOne(done, rest[0], rv[0], w), rest[1..], rv[1..], w)
  {
  }

  // Walking the list from the front adds up to what `Visit` says of it.
  lemma {:induction false} WalkOn(nodes: seq<TimeEvent>, l: seq<Timer>, n: nat, w: World)
    requires |nodes| == |l| && n <= |l|
    ensures WalkAll(Walked(Survivors(nodes, l, n), Visit(l, n, w)), nodes[n..], l[n..], w)
         == Walked(Survivors(nodes, l, |l|), Visit(l, |l|, w))
    decreases |l| - n
  {
    if n < |l| {
      SameCount(nodes, l, n, w);
      assert WalkOne(Walked(Survivors(nodes, l, n), Visit(l, n, w)), nodes[n], l[n], w)
          == Walked(Survivors(nodes, l, n + 1), Visit(l, n + 1, w));
      assert nodes[n..][1..] == nodes[n + 1..] && l[n..][1..] == l[n + 1..];
      WalkOn(nodes, l, n + 1, w);
    }
  }

  lemma {:induction false} SameCount(nodes: seq<TimeEvent>, l: seq<Timer>, n: nat, w: World)
    requires |nodes| == |l| && n <= |l|
    ensures |Survivors(nodes, l, n)| == |Visit(l, n, w).kept|
  {
    if 0 < n {
      SameCount(nodes, l, n - 1, w);
    }
  }

  lemma WalkIsVisit(nodes: seq<TimeEvent>, l: seq<Timer>, w: World)
    requires |nodes| == |l|
    ensures WalkAll(Walked([], Progress([], [], [])), nodes, l, w) == Walked(Survivors(nodes, l, |l|), Visit(l, |l|, w))
  {
    WalkOn(nodes, l, 0, w);
    assert nodes[0..] == nodes && l[0..] == l;
  }
}
