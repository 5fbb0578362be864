/**
 * Timers as values, and what one pass over them does: `Visit` says where the
 * pass stands after the first `n` nodes.
 */
module TimerPass {
  import opened Base
  import opened Deadlines

  const DELETED := -1   // ECO_POLL_DELETED_EVENT_ID
  const NOMORE := -1    // ECO_POLL_NOMORE

  // `data` names the client data the finalizer is called with.
  datatype Timer = Timer(id: int, when: Time, data: int) {
    predicate Live() {
      id != DELETED
    }
  }

  // The first timer with the id, if any, is marked deleted.
  function Mark(l: seq<Timer>, id: int): seq<Timer> {
    if l == [] then [] else if l[0].id == id then [l[0].(id := DELETED)] + l[1..] else [l[0]] + Mark(l[1..], id)
  }

  lemma {:induction false} MarkAt(l: seq<Timer>, id: int, i: nat)
    requires i <= |l| && forall j :: 0 <= j < i ==> l[j].id != id
    ensures i == |l| ==> Mark(l, id) == l
    ensures i < |l| && l[i].id == id ==> Mark(l, id) == l[i := l[i].(id := DELETED)]
  {
    if 0 < i {
      MarkAt(l[1..], id, i - 1);
      assert l == [l[0]] + l[1..];
    }
  }

  // The outside world during a pass: the clock at the check of the k-th live
  // timer, what each timer's procedure returns, and the clock when the k-th
  // timer is armed again.
  datatype World = World(clock: nat -> Time, proc: int -> int, rearm: nat -> Time)

  datatype Progress = Progress(kept: seq<Timer>, fired: seq<int>, finalized: seq<int>)

  function Serve(t: Timer, k: nat, w: World): Timer {
    var again := w.proc(t.id);
    if again == NOMORE then t.(id := DELETED) else t.(when := AddMilliseconds(w.rearm(k), again))
  }

  function Visit(l: seq<Timer>, n: nat, w: World): Progress
    requires n <= |l|
  {
    if n == 0 then Progress([], [], []) else
      var p := Visit(l, n - 1, w);
      var t := l[n - 1];
      if !t.Live() then p.(finalized := p.finalized + [t.data])
      else if t.when.Reached(w.clock(|p.kept|)) then
        p.(kept := p.kept + [Serve(t, |p.kept|, w)], fired := p.fired + [t.id])
      else p.(kept := p.kept + [t])
  }

  function Live(l: seq<Timer>): seq<Timer> {
    if l == [] then [] else Live(l[..|l| - 1]) + if l[|l| - 1].Live() then [l[|l| - 1]] else []
  }

  function Dead(l: seq<Timer>): seq<int> {
    if l == [] then [] else Dead(l[..|l| - 1]) + if l[|l| - 1].Live() then [] else [l[|l| - 1].data]
  }

  // The ids of the timers of `live` that are due when their turn comes.
  function DueIds(live: seq<Timer>, w: World): seq<int> {
    if live == [] then [] else
      var k := |live| - 1;
      DueIds(live[..k], w) + if live[k].when.Reached(w.clock(k)) then [live[k].id] else []
  }

  // What becomes of the k-th live timer.
  function Outcome(t: Timer, k: nat, w: World): Timer {
    if t.when.Reached(w.clock(k)) then Serve(t, k, w) else t
  }

  // A timer that is served is deleted, if its procedure has nothing more to do,
  // or due again as long after the clock's time as the procedure said; one that
  // is not due stays as it is.
  lemma OutcomeIs(t: Timer, k: nat, w: World)
    ensures Outcome(t, k, w).data == t.data
    ensures !t.when.Reached(w.clock(k)) ==> Outcome(t, k, w) == t
    ensures t.when.Reached(w.clock(k)) && w.proc(t.id) == NOMORE ==> Outcome(t, k, w) == t.(id := DELETED)
    ensures t.when.Reached(w.clock(k)) && w.proc(t.id) != NOMORE && w.rearm(k).Normal() ==>
              Outcome(t, k, w).id == t.id && Outcome(t, k, w).when.Millis() == w.rearm(k).Millis() + w.proc(t.id)
  {
    if w.rearm(k).Normal() { DeadlineExact(w.rearm(k), w.proc(t.id)); }
  }

  // One more live timer, served if it is due.
  lemma LiveOneMore(before: seq<Timer>, t: Timer, w: World)
    requires t.Live()
    ensures DueIds(before + [t], w)
         == if t.when.Reached(w.clock(|before|)) then DueIds(before, w) + [t.id] else DueIds(before, w)
  {
    var live := before + [t];
    assert live[..|live| - 1] == before;
  }

  lemma LiveNext(l: seq<Timer>, n: nat)
    requires 0 < n <= |l|
    ensures Live(l[..n]) == if l[n - 1].Live() then Live(l[..n - 1]) + [l[n - 1]] else Live(l[..n - 1])
    ensures Dead(l[..n]) == if l[n - 1].Live() then Dead(l[..n - 1]) else Dead(l[..n - 1]) + [l[n - 1].data]
  {
    assert l[..n][..n - 1] == l[..n - 1];
  }

  // One pass, by its result: the survivors are the live timers in their old
  // order, each served if and only if it was due; the procedures called are
  // those of the due live timers, once each and in order; the finalizers called
  // are those of the timers found deleted, once each and in order.
  lemma {:induction false} VisitIs(l: seq<Timer>, n: nat, w: World)
    requires n <= |l|
    ensures var p, live := Visit(l, n, w), Live(l[..n]);
            && |p.kept| == |live|
            && (forall k {:trigger p.kept[k]} :: 0 <= k < |live| ==> p.kept[k] == Outcome(live[k], k, w))
            && p.fired == DueIds(live, w)
            && p.finalized == Dead(l[..n])
  {
    if 0 < n {
      VisitIs(l, n - 1, w);
      LiveNext(l, n);
      if l[n - 1].Live() {
        LiveOneMore(Live(l[..n - 1]), l[n - 1], w);
      }
    }
  }

  // A pass makes up no ids.
  lemma {:induction false} VisitIds(l: seq<Timer>, n: nat, w: World, bound: int)
    requires n <= |l| && forall j {:trigger l[j]} :: 0 <= j < |l| ==> DELETED <= l[j].id < bound
    ensures forall j {:trigger Visit(l, n, w).kept[j]} :: 0 <= j < |Visit(l, n, w).kept| ==>
              DELETED <= Visit(l, n, w).kept[j].id < bound
  {
    if 0 < n {
      VisitIds(l, n - 1, w, bound);
    }
  }

  ghost predicate LiveIdsDistinct(l: seq<Timer>) {
    forall i, j :: 0 <= i < j < |l| && l[i].Live() && l[j].Live() ==> l[i].id != l[j].id
  }

  // The live timers are the live members of the list, in list order.
  lemma {:induction false} LiveMembers(l: seq<Timer>)
    ensures forall t :: t in Live(l) <==> t in l && t.Live()
    ensures LiveIdsDistinct(l) ==> forall i, j :: 0 <= i < j < |Live(l)| ==> Live(l)[i].id != Live(l)[j].id
  {
    if l != [] {
      var n := |l| - 1;
      LiveMembers(l[..n]);
      assert l == l[..n] + [l[n]];
      if LiveIdsDistinct(l) && l[n].Live() {
        forall i | 0 <= i < |Live(l[..n])| ensures Live(l[..n])[i].id != l[n].id {
          assert Live(l[..n])[i] in l[..n];
        }
      }
    }
  }

  lemma {:induction false} DueMembers(live: seq<Timer>, w: World)
    ensures forall id :: id in DueIds(live, w) <==>
              exists k :: 0 <= k < |live| && live[k].id == id && live[k].when.Reached(w.clock(k))
    ensures (forall i, j :: 0 <= i < j < |live| ==> live[i].id != live[j].id) ==> Distinct(DueIds(live, w))
  {
    if live != [] {
      var n := |live| - 1;
      var before := DueIds(live[..n], w);
      DueMembers(live[..n], w);
      if forall i, j :: 0 <= i < j < |live| ==> live[i].id != live[j].id {
        forall i | 0 <= i < |before| ensures before[i] != live[n].id {
          assert before[i] in before;
        }
      }
    }
  }

  // Each live due timer fires exactly once, and nothing else fires.
  lemma FiredExactlyDue(l: seq<Timer>, w: World, k: nat)
    requires LiveIdsDistinct(l) && k < |Live(l)|
    ensures var p := Visit(l, |l|, w);
            && Distinct(p.fired)
            && (Live(l)[k].id in p.fired <==> Live(l)[k].when.Reached(w.clock(k)))
  {
    VisitIs(l, |l|, w);
    assert l[..|l|] == l;
    LiveMembers(l);
    DueMembers(Live(l), w);
  }

  // The reset when the clock has gone back: every timer's seconds become zero.
  function Reset(l: seq<Timer>): seq<Timer> {
    seq(|l|, i requires 0 <= i < |l| => l[i].(when := l[i].when.(sec := 0)))
  }

  // Only the seconds of the deadlines change.
  lemma ResetIs(l: seq<Timer>)
    ensures |Reset(l)| == |l|
    ensures forall i :: 0 <= i < |l| ==>
              && Reset(l)[i].id == l[i].id && Reset(l)[i].data == l[i].data
              && Reset(l)[i].when.sec == 0 && Reset(l)[i].when.ms == l[i].when.ms
  {
  }

  lemma {:induction false} LiveReset(l: seq<Timer>)
    ensures Live(Reset(l)) == Reset(Live(l)) && Dead(Reset(l)) == Dead(l)
  {
    if l != [] {
      LiveReset(l[..|l| - 1]);
      assert Reset(l)[..|l| - 1] == Reset(l[..|l| - 1]);
      var last := l[|l| - 1];
      assert Reset(Live(l)) == Reset(Live(l[..|l| - 1])) + if last.Live() then [last.(when := last.when.(sec := 0))] else [];
    }
  }

  // What an interrupt does: every timer not yet deleted becomes due.
  function Hasten(l: seq<Timer>, now: Time): seq<Timer> {
    seq(|l|, i requires 0 <= i < |l| => if l[i].Live() then l[i].(when := now) else l[i])
  }

  // From then on every live timer is due, in any pass; ids and data stay, and
  // deleted timers are as they were.
  lemma HastenIs(l: seq<Timer>, now: Time, later: Time)
    requires now.Reached(later)
    ensures |Hasten(l, now)| == |l|
    ensures forall i :: 0 <= i < |l| ==>
              && Hasten(l, now)[i].id == l[i].id && Hasten(l, now)[i].data == l[i].data
              && if l[i].Live() then Hasten(l, now)[i].when.Reached(later) else Hasten(l, now)[i] == l[i]
  {
  }

  // So the next pass, once the clock stands at `now` or after, fires them all.
  lemma {:induction false} HastenFiresAll(l: seq<Timer>, now: Time, w: World)
    requires forall k: nat :: now.Reached(w.clock(k))
    ensures Visit(Hasten(l, now), |l|, w).fired == Ids(Live(l))
  {
    VisitIs(Hasten(l, now), |l|, w);
    assert Hasten(l, now)[..|l|] == Hasten(l, now);
    LiveHasten(l, now);
    LiveMembers(l);
    HastenedDue(Live(l), now, w);
  }

  lemma {:induction false} LiveHasten(l: seq<Timer>, now: Time)
    ensures Live(Hasten(l, now)) == Hasten(Live(l), now)
  {
    if l != [] {
      var n := |l| - 1;
      LiveHasten(l[..n], now);
      assert Hasten(l, now)[..n] == Hasten(l[..n], now);
      assert Hasten(Live(l), now) == Hasten(Live(l[..n]), now) + if l[n].Live() then [l[n].(when := now)] else [];
    }
  }

  lemma {:induction false} HastenedDue(live: seq<Timer>, now: Time, w: World)
    requires (forall k: nat :: now.Reached(w.clock(k))) && forall t :: t in live ==> t.Live()
    ensures DueIds(Hasten(live, now), w) == Ids(live)
  {
    if live != [] {
      var k := |live| - 1;
      HastenedDue(live[..k], now, w);
      assert Hasten(live, now)[..k] == Hasten(live[..k], now);
      assert Ids(live) == Ids(live[..k]) + [live[k].id];
    }
  }

  function Ids(l: seq<Timer>): seq<int> {
    seq(|l|, i requires 0 <= i < |l| => l[i].id)
  }

  // After the clock has gone back every live timer fires in that pass.
  lemma {:induction false} ResetFiresAll(live: seq<Timer>, w: World)
    requires forall k: nat :: w.clock(k).sec > 0
    ensures DueIds(Reset(live), w) == Ids(live)
  {
    if live != [] {
      var k := |live| - 1;
      ResetFiresAll(live[..k], w);
      assert Reset(live)[..k] == Reset(live[..k]);
      assert Ids(live) == Ids(live[..k]) + [live[k].id];
    }
  }

  lemma ClockBackFiresAll(l: seq<Timer>, w: World)
    requires forall k: nat :: w.clock(k).sec > 0
    ensures Visit(Reset(l), |l|, w).fired == Ids(Live(l))
    ensures Visit(Reset(l), |l|, w).finalized == Dead(l)
  {
    VisitIs(Reset(l), |l|, w);
    assert Reset(l)[..|l|] == Reset(l);
    LiveReset(l);
    ResetFiresAll(Live(l), w);
  }
}
