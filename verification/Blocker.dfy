/**
 * The blocker: a bounded count of wake-ups and a line of parked fibers.
 * `Gate` is its value; the class changes it in place, one SYNCHRONIZED block
 * (or one operation of the concurrent deque) at a time.
 */
module Blocker {
  import opened Base
  import opened RunQueue

  const UINT_MAX: nat := 0xFFFF_FFFF

  type uint = n: nat | n <= UINT_MAX

  // What one wakeUp did: nothing at the limit, kept the token, or handed it to
  // the first fiber in line.
  datatype Wake<T> = Refused | Stored | Handed(fiber: T)

  datatype Gate<T(==)> = Gate(wakeup: nat, limit: nat, line: seq<T>) {

    function WakeUp(): (Gate<T>, Wake<T>) {
      if line != [] then (this.(line := line[1..]), Handed(line[0]))
      else if wakeup >= limit then (this, Refused)
      else (this.(wakeup := wakeup + 1), Stored)
    }

    function Take(): (Gate<T>, bool) {
      if wakeup > 0 then (this.(wakeup := wakeup - 1), true) else (this, false)
    }

    // The scheduler's side of a wait: park, unless a token has come meanwhile.
    function SwapOut(f: T): (Gate<T>, bool) {
      if wakeup > 0 then (this.(wakeup := wakeup - 1), false) else (this.(line := line + [f]), true)
    }

    // Removal by identity from the line.
    function Leave(f: T): (Gate<T>, bool) {
      (this.(line := Without(line, f)), f in line)
    }
  }

  function Without<T(==)>(s: seq<T>, f: T): seq<T> {
    if s == [] then [] else if s[0] == f then s[1..] else [s[0]] + Without(s[1..], f)
  }

  // Where `f` stands first in `s`, or the length of `s`.
  function IndexOf<T(==)>(s: seq<T>, f: T): nat {
    if s == [] || s[0] == f then 0 else 1 + IndexOf(s[1..], f)
  }

  lemma FirstAndRest<T>(x: T, rest: seq<T>, k: nat)
    requires k <= |rest|
    ensures ([x] + rest)[..k + 1] == [x] + rest[..k]
    ensures k < |rest| ==> ([x] + rest)[k + 2..] == rest[k + 1..]
  {
  }

  // Only the first occurrence goes; all others keep their order.
  lemma {:induction false} WithoutIs<T>(s: seq<T>, f: T)
    ensures var k := IndexOf(s, f);
            && k <= |s| && f !in s[..k] && (k < |s| <==> f in s) && (k < |s| ==> s[k] == f)
            && Without(s, f) == if k < |s| then s[..k] + s[k + 1..] else s
  {
    if s != [] && s[0] != f {
      var rest := s[1..];
      var k := IndexOf(rest, f);
      WithoutIs(rest, f);
      FirstAndRest(s[0], rest, k);
      assert s == [s[0]] + rest;
    }
  }

  lemma {:induction false} WithoutMembers<T>(s: seq<T>, f: T)
    requires Distinct(s)
    ensures Distinct(Without(s, f)) && f !in Without(s, f)
    ensures forall g :: g in Without(s, f) <==> g in s && g != f
  {
    if s != [] && s[0] != f {
      WithoutMembers(s[1..], f);
      var w := Without(s[1..], f);
      assert Without(s, f) == [s[0]] + w;
      assert s == [s[0]] + s[1..];
      DistinctConcat([s[0]], w);
    }
  }

  // --- the operations, many times over ---

  // Parks fibers one after another, on a blocker without tokens.
  function ParkAll<T(==)>(g: Gate<T>, fs: seq<T>): Gate<T>
    decreases |fs|
  {
    if fs == [] then g else ParkAll(g.SwapOut(fs[0]).0, fs[1..])
  }

  // Wakes a blocker up `n` times; the fibers that are handed a token, in order.
  function WakeAll<T(==)>(g: Gate<T>, n: nat): (Gate<T>, seq<T>)
    decreases n
  {
    if n == 0 then (g, []) else
      var (g1, w) := g.WakeUp();
      var (g2, rest) := WakeAll(g1, n - 1);
      (g2, (if w.Handed? then [w.fiber] else []) + rest)
  }

  // How many of `n` attempts to take a token succeed.
  function TakeAll<T(==)>(g: Gate<T>, n: nat): (Gate<T>, nat)
    decreases n
  {
    if n == 0 then (g, 0) else
      var (g1, ok) := g.Take();
      var (g2, rest) := TakeAll(g1, n - 1);
      (g2, ToInt(ok) + rest)
  }

  lemma {:induction false} ParkAllIs<T>(g: Gate<T>, fs: seq<T>)
    requires g.wakeup == 0
    ensures ParkAll(g, fs) == g.(line := g.line + fs)
    decreases |fs|
  {
    if fs != [] {
      ParkAllIs(g.SwapOut(fs[0]).0, fs[1..]);
      assert g.line + [fs[0]] + fs[1..] == g.line + fs;
    }
  }

  lemma {:induction false} WakeAllIs<T>(g: Gate<T>, n: nat)
    requires n <= |g.line|
    ensures WakeAll(g, n) == (g.(line := g.line[n..]), g.line[..n])
    decreases n
  {
    if n > 0 {
      WakeAllIs(g.WakeUp().0, n - 1);
      assert g.line[..n] == [g.line[0]] + g.line[1..][..n - 1];
    }
  }

  // First come, first served: fibers that park behind a line are woken behind
  // it, in the order in which they parked, and nothing else is left of them.
  lemma ParkedThenWoken<T>(g: Gate<T>, fs: seq<T>)
    requires g.wakeup == 0
    ensures WakeAll(ParkAll(g, fs), |g.line| + |fs|) == (g.(line := []), g.line + fs)
  {
    var parked := g.(line := g.line + fs);
    ParkAllIs(g, fs);
    WakeAllIs(parked, |parked.line|);
    assert parked.line[..|parked.line|] == parked.line && parked.line[|parked.line|..] == [];
  }

  // With nobody in line, wake-ups are kept up to the limit, ...
  lemma {:induction false} WakeUpsKept<T>(g: Gate<T>, n: nat)
    requires g.line == [] && g.wakeup <= g.limit
    ensures WakeAll(g, n) == (g.(wakeup := if g.wakeup + n <= g.limit then g.wakeup + n else g.limit), [])
    decreases n
  {
    if n > 0 {
      WakeUpsKept(g.WakeUp().0, n - 1);
      assert !g.WakeUp().1.Handed? && WakeAll(g, n) == WakeAll(g.WakeUp().0, n - 1) by {
        assert [] + WakeAll(g.WakeUp().0, n - 1).1 == WakeAll(g.WakeUp().0, n - 1).1;
      }
    }
  }

  // ... and exactly those kept are found by later attempts, each once.
  lemma {:induction false} TokensFound<T>(g: Gate<T>, n: nat)
    ensures var k := if n <= g.wakeup then n else g.wakeup; TakeAll(g, n) == (g.(wakeup := g.wakeup - k), k)
    decreases n
  {
    if n > 0 {
      TokensFound(g.Take().0, n - 1);
    }
  }

  // A fiber about to be parked takes a token instead whenever there is one.
  lemma LateTokenTaken<T>(g: Gate<T>, f: T)
    ensures g.SwapOut(f).1 <==> g.wakeup == 0
    ensures g.wakeup > 0 ==> g.SwapOut(f).0 == g.Take().0
  {
  }

  class EFiberBlocker {
    var wakeup: uint
    var limit: uint
    var waitQueue: seq<Fiber>

    function Value(): Gate<Fiber>
      reads this
    {
      Gate(wakeup, limit, waitQueue)
    }

    constructor (capacity: uint := 0, limit: uint := UINT_MAX)
      ensures Value() == Gate(capacity, limit, [])
    {
      wakeup, this.limit, waitQueue := capacity, limit, [];
    }

    // `wait` and the timed `tryWait` up to the yield: a token in hand ends the
    // call; otherwise the fiber is marked and will be parked by the scheduler.
    method BeginWait(fiber: Fiber) returns (done: bool)
      modifies this, fiber
      ensures (Value(), done) == old(Value()).Take()
      ensures if done then unchanged(fiber)
              else fiber.state == BLOCKED && fiber.blocker == this
                   && fiber.packing == old(fiber.packing) && fiber.boundQueue == old(fiber.boundQueue)
                   && fiber.isIoWaitTimeout == old(fiber.isIoWaitTimeout)
    {
      if wakeup > 0 {
        wakeup := wakeup - 1;
        return true;
      }
      fiber.blocker := this;
      fiber.state := BLOCKED;
      return false;
    }

    method TryWait() returns (ok: bool)
      modifies this
      ensures (Value(), ok) == old(Value()).Take()
    {
      if wakeup == 0 {
        return false;
      }
      wakeup := wakeup - 1;
      return true;
    }

    // The end of the timed `tryWait`, after the fiber runs again: a timed-out
    // fiber that can still be removed from the line has not been granted.
    method EndTimedWait(fiber: Fiber) returns (granted: bool)
      modifies this, fiber`isIoWaitTimeout
      ensures !fiber.isIoWaitTimeout
      ensures if old(fiber.isIoWaitTimeout) then (Value(), !granted) == old(Value()).Leave(fiber)
              else Value() == old(Value()) && granted
    {
      var timeout := fiber.IsWaitTimeout();
      if timeout {
        var removed := fiber in waitQueue;
        waitQueue := Without(waitQueue, fiber);
        return !removed;
      }
      return true;
    }

    ghost function WakeFrame(): set<object>
      reads this, if waitQueue == [] then {} else {waitQueue[0]}
      reads if waitQueue == [] || waitQueue[0].boundQueue == null then {} else {waitQueue[0].boundQueue}
    {
      if waitQueue == [] then {} else waitQueue[0].ResumeFrame()
    }

    method WakeUp() returns (ok: bool)
      requires waitQueue != [] && waitQueue[0].IsHung() ==> waitQueue[0].CanResume()
      modifies this, WakeFrame()
      ensures Value() == old(Value()).WakeUp().0 && ok == !old(Value()).WakeUp().1.Refused?
      ensures var w := old(Value()).WakeUp().1;
              w.Handed? ==>
                !w.fiber.IsHung() &&
                (old(waitQueue[0].IsHung()) ==>
                   w.fiber.boundQueue == old(waitQueue[0].boundQueue) && w.fiber.boundQueue != null
                   && w.fiber.boundQueue.fibers == old(waitQueue[0].boundQueue.fibers) + [w.fiber])
    {
      if waitQueue == [] {
        if wakeup >= limit {
          return false;
        }
        wakeup := wakeup + 1;
        return true;
      }
      var fiber := waitQueue[0];
      waitQueue := waitQueue[1..];
      fiber.SwapIn();
      return true;
    }

    method IsWaking() returns (b: bool)
      ensures b == (Value().wakeup > 0)
    {
      b := wakeup > 0;
    }

    method SwapOut(fiber: Fiber) returns (parked: bool)
      modifies this
      ensures (Value(), parked) == old(Value()).SwapOut(fiber)
    {
      if wakeup > 0 {
        wakeup := wakeup - 1;
        return false;
      }
      waitQueue := waitQueue + [fiber];
      return true;
    }
  }
}
