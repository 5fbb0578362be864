/**
 * How `join(n)` deals the fibers scheduled before it to its workers, and later
 * `schedule` calls go on dealing: one counter, taken modulo n.
 */
module Dispatch {
  import opened Base

  type Fid = nat

  function Push(queues: seq<seq<Fid>>, k: nat, f: Fid): seq<seq<Fid>>
    requires k < |queues|
  {
    queues[k := queues[k] + [f]]
  }

  // The worker a counter value stands for.
  function Turn(i: nat, n: nat): (k: nat)
    requires 0 < n
    ensures k < n
  {
    i % n
  }

  // `fs` dealt one by one to the queues, the first with counter value `start`.
  function Deal(queues: seq<seq<Fid>>, start: nat, fs: seq<Fid>): (r: seq<seq<Fid>>)
    requires queues != []
    ensures |r| == |queues|
    decreases |fs|
  {
    if fs == [] then queues
    else
      var m := |fs| - 1;
      var dealt := Deal(queues, start, fs[..m]);
      var k := Turn(start + m, |queues|);
      Push(dealt, k, fs[m])
  }

  // The share of worker `k` of `n`: every fiber whose turn is k, in order.
  function Share(start: nat, n: nat, k: nat, fs: seq<Fid>): seq<Fid>
    requires 0 < n
  {
    if fs == [] then []
    else
      var m := |fs| - 1;
      Share(start, n, k, fs[..m]) + if Turn(start + m, n) == k then [fs[m]] else []
  }

  // Each worker gets its share behind what it had: original order, nothing from
  // another's share.
  lemma {:induction false} DealIsShares(queues: seq<seq<Fid>>, start: nat, fs: seq<Fid>, k: nat)
    requires queues != [] && k < |queues|
    ensures Deal(queues, start, fs)[k] == queues[k] + Share(start, |queues|, k, fs)
  {
    if fs != [] {
      DealIsShares(queues, start, fs[..|fs| - 1], k);
    }
  }

  // How often a fiber is in the queues.
  function Copies(queues: seq<seq<Fid>>, f: Fid): nat {
    if queues == [] then 0 else multiset(queues[0])[f] + Copies(queues[1..], f)
  }

  lemma {:induction false} PushAddsOne(queues: seq<seq<Fid>>, k: nat, g: Fid, f: Fid)
    requires k < |queues|
    ensures Copies(Push(queues, k, g), f) == Copies(queues, f) + ToInt(f == g)
    decreases k
  {
    var pushed := Push(queues, k, g);
    if k == 0 {
      assert pushed[1..] == queues[1..];
    } else {
      assert pushed[1..] == Push(queues[1..], k - 1, g);
      PushAddsOne(queues[1..], k - 1, g, f);
    }
  }

  lemma LastCounts(fs: seq<Fid>, f: Fid)
    requires fs != []
    ensures multiset(fs)[f] == multiset(fs[..|fs| - 1])[f] + ToInt(f == fs[|fs| - 1])
  {
    assert fs == fs[..|fs| - 1] + [fs[|fs| - 1]];
  }

  // Nothing is lost and nothing is duplicated.
  lemma {:induction false} DealConserves(queues: seq<seq<Fid>>, start: nat, fs: seq<Fid>, f: Fid)
    requires queues != []
    ensures Copies(Deal(queues, start, fs), f) == Copies(queues, f) + multiset(fs)[f]
    decreases |fs|
  {
    if fs != [] {
      var m := |fs| - 1;
      DealConserves(queues, start, fs[..m], f);
      PushAddsOne(Deal(queues, start, fs[..m]), Turn(start + m, |queues|), fs[m], f);
      LastCounts(fs, f);
    }
  }

  // Dealing in two goes is dealing once.
  lemma {:induction false} DealOn(queues: seq<seq<Fid>>, start: nat, fs: seq<Fid>, more: seq<Fid>)
    requires queues != []
    ensures Deal(Deal(queues, start, fs), start + |fs|, more) == Deal(queues, start, fs + more)
  {
    if more == [] {
      assert fs + more == fs;
    } else {
      var m := |more| - 1;
      DealOn(queues, start, fs, more[..m]);
      assert (fs + more)[..|fs| + m] == fs + more[..m];
    }
  }

  // How many turns worker `k` must wait for its first fiber.
  function Offset(start: nat, n: nat, k: nat): (o: nat)
    requires k < n
    ensures o < n
  {
    if k >= start % n then k - start % n else k + n - start % n
  }

  lemma {:induction false} AtMostZero(n: nat, t: int)
    requires 0 < n && n * t < n
    ensures t <= 0
    decreases t
  {
    if t > 1 {
      assert n * t == n * (t - 1) + n;
      AtMostZero(n, t - 1);
    }
  }

  lemma ModOf(a: int, n: nat, q: int, r: int)
    requires 0 <= r < n && a == n * q + r
    ensures a % n == r
  {
    var t := q - a / n;
    assert n * t == n * q - n * (a / n) && n * -t == -(n * t);
    AtMostZero(n, t);
    AtMostZero(n, -t);
  }

  lemma SameTurn(n: nat, k: nat, c: int, d: int)
    requires k < n
    ensures (n * c + k + d) % n == k <==> d % n == 0
  {
    var q, r := d / n, d % n;
    assert n * (c + q) == n * c + n * q;
    if k + r < n {
      ModOf(n * c + k + d, n, c + q, k + r);
    } else {
      assert n * (c + q + 1) == n * (c + q) + n;
      ModOf(n * c + k + d, n, c + q + 1, k + r - n);
    }
  }

  // It is worker k's turn exactly when a whole number of rounds has passed
  // since its first.
  lemma TurnIs(start: nat, n: nat, k: nat, m: nat)
    requires k < n
    ensures Turn(start + m, n) == k <==> (m - Offset(start, n, k)) % n == 0
  {
    var c := start / n + if k >= start % n then 0 else 1;
    assert n * (start / n + 1) == n * (start / n) + n;
    SameTurn(n, k, c, m - Offset(start, n, k));
    assert start + m == n * c + k + (m - Offset(start, n, k));
  }

  lemma ExactRounds(n: nat, c: int, d: int)
    requires 0 < n && d <= n * c < d + n && d % n == 0
    ensures n * c == d
  {
    var t := c - d / n;
    assert n * t == n * c - n * (d / n) && n * -t == -(n * t);
    AtMostZero(n, t);
    AtMostZero(n, -t);
  }

  lemma NextBounds(n: nat, c: nat, d: int, mine: bool)
    requires 0 < n && d <= n * c < d + n && (mine <==> d % n == 0)
    ensures d + 1 <= n * (c + ToInt(mine)) < d + 1 + n
  {
    if mine {
      ExactRounds(n, c, d);
      assert n * (c + 1) == n * c + n;
    } else if n * c == d {
      ModOf(d, n, c, 0);
    }
  }

  // A worker's share is one n-th of what was dealt, up to its offset.
  lemma {:induction false} ShareSize(start: nat, n: nat, k: nat, fs: seq<Fid>)
    requires k < n
    ensures |fs| - Offset(start, n, k) <= n * |Share(start, n, k, fs)| < |fs| - Offset(start, n, k) + n
  {
    if fs != [] {
      var m := |fs| - 1;
      ShareSize(start, n, k, fs[..m]);
      TurnIs(start, n, k, m);
      NextBounds(n, |Share(start, n, k, fs[..m])|, m - Offset(start, n, k), Turn(start + m, n) == k);
    }
  }

  lemma OneMoreAtMost(n: nat, a: nat, b: nat)
    requires 0 < n && n * a < n * b + 2 * n
    ensures a <= b + 1
  {
    assert n * (a - b - 1) == n * a - n * b - n;
    AtMostZero(n, a - b - 1);
  }

  // The shares of two workers differ by one fiber at most.
  lemma Balanced(start: nat, n: nat, j: nat, k: nat, fs: seq<Fid>)
    requires j < n && k < n
    ensures |Share(start, n, j, fs)| <= |Share(start, n, k, fs)| + 1
  {
    ShareSize(start, n, j, fs);
    ShareSize(start, n, k, fs);
    OneMoreAtMost(n, |Share(start, n, j, fs)|, |Share(start, n, k, fs)|);
  }

  class EFiberScheduler {
    var defaultTaskQueue: seq<Fid>
    var taskQueues: array<seq<Fid>>
    var balanceIndex: nat

    constructor (threadNums: nat, scheduled: seq<Fid>)
      requires 1 < threadNums
      ensures taskQueues.Length == threadNums && fresh(taskQueues)
      ensures defaultTaskQueue == scheduled && balanceIndex == 0
      ensures forall k :: 0 <= k < threadNums ==> taskQueues[k] == []
    {
      defaultTaskQueue, balanceIndex := scheduled, 0;
      taskQueues := new seq<Fid>[threadNums](_ => []);
    }

    // The loop of join(n) that empties the default queue.
    method DispatchAll()
      requires taskQueues.Length > 0
      modifies this`defaultTaskQueue, this`balanceIndex, taskQueues
      ensures defaultTaskQueue == []
      ensures balanceIndex == old(balanceIndex) + |old(defaultTaskQueue)|
      ensures taskQueues[..] == Deal(old(taskQueues[..]), old(balanceIndex), old(defaultTaskQueue))
    {
      ghost var all, done := defaultTaskQueue, 0;
      while defaultTaskQueue != []
        invariant 0 <= done <= |all| && defaultTaskQueue == all[done..]
        invariant balanceIndex == old(balanceIndex) + done
        invariant taskQueues[..] == Deal(old(taskQueues[..]), old(balanceIndex), all[..done])
      {
        var fiber := defaultTaskQueue[0];
        defaultTaskQueue := defaultTaskQueue[1..];
        var i := balanceIndex % taskQueues.Length;
        balanceIndex := balanceIndex + 1;
        assert all[..done + 1][..done] == all[..done];
        taskQueues[i] := taskQueues[i] + [fiber];
        done := done + 1;
      }
      assert all[..done] == all;
    }

    // schedule, once the workers' queues exist and without a balance callback.
    method Schedule(fiber: Fid)
      requires taskQueues.Length > 0
      modifies this`balanceIndex, taskQueues
      ensures balanceIndex == old(balanceIndex) + 1
      ensures taskQueues[..] == Deal(old(taskQueues[..]), old(balanceIndex), [fiber])
    {
      var index := balanceIndex % taskQueues.Length;
      balanceIndex := balanceIndex + 1;
      assert [fiber][..0] == [];
      taskQueues[index] := taskQueues[index] + [fiber];
    }

    // Fibers scheduled before join(n), then others while it runs: one deal.
    method DispatchThenSchedule(later: seq<Fid>)
      requires taskQueues.Length > 0
      modifies this`defaultTaskQueue, this`balanceIndex, taskQueues
      ensures balanceIndex == old(balanceIndex) + |old(defaultTaskQueue) + later|
      ensures taskQueues[..] == Deal(old(taskQueues[..]), old(balanceIndex), old(defaultTaskQueue) + later)
    {
      ghost var queues, start, all := taskQueues[..], balanceIndex, defaultTaskQueue;
      DispatchAll();
      assert all + later[..0] == all;
      for i := 0 to |later|
        invariant balanceIndex == start + |all| + i
        invariant taskQueues[..] == Deal(queues, start, all + later[..i])
      {
        DealOn(queues, start, all + later[..i], [later[i]]);
        assert all + later[..i + 1] == all + later[..i] + [later[i]];
        Schedule(later[i]);
      }
      assert later[..|later|] == later;
    }
  }
}
