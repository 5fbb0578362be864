/**
 * The event loop's file descriptors: a table of interest masks with its highest
 * entry in use, and the kernel's epoll set that the table must mirror.
 */
module FdTable {
  import opened Base

  type Mask = bv2
  const NONE: Mask := 0
  const READABLE: Mask := 1
  const WRITABLE: Mask := 2

  datatype CtlOp = ADD | MOD | DEL

  // epoll_ctl: ADD needs an fd that is not in the set, MOD and DEL one that is.
  function Ctl(kernel: map<int, Mask>, op: CtlOp, fd: int, mask: Mask): Option<map<int, Mask>> {
    match op
    case ADD => if fd in kernel then None else Some(kernel[fd := mask])
    case MOD => if fd in kernel then Some(kernel[fd := mask]) else None
    case DEL => if fd in kernel then Some(kernel - {fd}) else None
  }

  function RegisterOp(had: Mask): CtlOp {
    if had == NONE then ADD else MOD
  }

  function DeleteOp(left: Mask): CtlOp {
    if left != NONE then MOD else DEL
  }

  // The greatest index with a nonempty mask, or -1.
  function Highest(masks: seq<Mask>): int {
    if masks == [] then -1
    else if masks[|masks| - 1] != NONE then |masks| - 1
    else Highest(masks[..|masks| - 1])
  }

  lemma {:induction false} HighestIs(masks: seq<Mask>, m: int)
    requires -1 <= m < |masks| && (0 <= m ==> masks[m] != NONE)
    requires forall j :: m < j < |masks| ==> masks[j] == NONE
    ensures Highest(masks) == m
  {
    if masks != [] && m != |masks| - 1 {
      HighestIs(masks[..|masks| - 1], m);
    }
  }

  lemma {:induction false} HighestBounds(masks: seq<Mask>)
    ensures var m := Highest(masks);
            -1 <= m < |masks| && (0 <= m ==> masks[m] != NONE) && forall j :: m < j < |masks| ==> masks[j] == NONE
  {
    if masks != [] {
      HighestBounds(masks[..|masks| - 1]);
    }
  }

  datatype Table = Table(masks: seq<Mask>, maxfd: int, kernel: map<int, Mask>) {

    // The kernel watches exactly the fds with a nonempty mask, for exactly that
    // mask, and `maxfd` is the greatest of them.
    ghost predicate Agrees() {
      && maxfd == Highest(masks)
      && (forall fd :: fd in kernel <==> 0 <= fd < |masks| && masks[fd] != NONE)
      && (forall fd :: fd in kernel ==> kernel[fd] == masks[fd])
    }

    // `ok` is false when the kernel refuses the call for reasons of its own.
    function Register(fd: nat, mask: Mask, sent: Mask, ok: bool): (Table, bool) {
      if fd >= |masks| then (this, false)
      else
        match Ctl(kernel, RegisterOp(masks[fd]), fd, sent)
        case Some(k) =>
          if ok then (Table(masks[fd := masks[fd] | mask], if fd > maxfd then fd else maxfd, k), true) else (this, false)
        case None => (this, false)
    }

    // eco_poll_file_event_create sends the merged mask.
    function Create(fd: nat, mask: Mask, ok: bool): (Table, bool) {
      Register(fd, mask, if fd < |masks| then mask | masks[fd] else mask, ok)
    }

    // eco_poll_file_event_update sends the new mask alone.
    function Update(fd: nat, mask: Mask, ok: bool): (Table, bool) {
      Register(fd, mask, mask, ok)
    }

    function Delete(fd: nat, mask: Mask): Table {
      if fd >= |masks| || masks[fd] == NONE then this
      else
        var left := masks[fd] & !mask;
        var masks' := masks[fd := left];
        var k := match Ctl(kernel, DeleteOp(left), fd, left) case Some(k) => k case None => kernel;
        Table(masks', if fd == maxfd && left == NONE then Highest(masks'[..fd]) else maxfd, k)
    }

    function Resize(size: nat): (Table, bool) {
      if size == |masks| then (this, true)
      else if maxfd >= size then (this, false)
      else (this.(masks := seq(size, i requires 0 <= i < size => if i <= maxfd && i < |masks| then masks[i] else NONE)), true)
    }
  }

  // Registering keeps the agreement if and only if it fails or leaves the table
  // with a nonempty mask; the call made is always a legal one.
  lemma CreateAgrees(t: Table, fd: nat, mask: Mask, ok: bool)
    requires t.Agrees()
    ensures var (t', done) := t.Create(fd, mask, ok);
            && (t'.Agrees() <==> !done || mask | t.masks[fd] != NONE)
            && (done <==> fd < |t.masks| && ok)
            && (!done ==> t' == t)
  {
    HighestBounds(t.masks);
    var (t', done) := t.Create(fd, mask, ok);
    if done {
      assert t'.masks[fd] == mask | t.masks[fd] && fd in t'.kernel && t'.kernel[fd] == mask | t.masks[fd];
      if mask | t.masks[fd] != NONE {
        HighestIs(t'.masks, t'.maxfd);
      }
    }
  }

  // The update used for the wake-up pipe keeps the agreement if and only if it
  // fails or drops nothing the fd was registered for.
  lemma UpdateAgrees(t: Table, fd: nat, mask: Mask, ok: bool)
    requires t.Agrees()
    ensures var (t', done) := t.Update(fd, mask, ok);
            && (t'.Agrees() <==> !done || (mask != NONE && t.masks[fd] & !mask == NONE))
            && (done <==> fd < |t.masks| && ok)
            && (!done ==> t' == t)
  {
    HighestBounds(t.masks);
    var (t', done) := t.Update(fd, mask, ok);
    if done {
      assert t'.masks[fd] == t.masks[fd] | mask && t'.kernel[fd] == mask;
      if mask != NONE && t.masks[fd] & !mask == NONE {
        HighestIs(t'.masks, t'.maxfd);
      }
    }
  }

  lemma UpdateCanDisagree()
    ensures exists t: Table :: t.Agrees() && t.Update(0, READABLE, true).1 && !t.Update(0, READABLE, true).0.Agrees()
  {
    var t := Table([WRITABLE], 0, map[0 := WRITABLE]);
    assert t.Update(0, READABLE, true).0.masks[0] == 3;
    assert t.Agrees() && t.Update(0, READABLE, true).0.kernel[0] == READABLE;
  }

  lemma DeleteAgrees(t: Table, fd: nat, mask: Mask)
    requires t.Agrees()
    ensures t.Delete(fd, mask).Agrees()
    ensures fd < |t.masks| && t.masks[fd] != NONE ==>
              Ctl(t.kernel, DeleteOp(t.masks[fd] & !mask), fd, t.masks[fd] & !mask).Some?
  {
    HighestBounds(t.masks);
    var t' := t.Delete(fd, mask);
    if fd < |t.masks| && t.masks[fd] != NONE {
      HighestBounds(t'.masks[..fd]);
      HighestIs(t'.masks, t'.maxfd);
    }
  }

  lemma ResizeAgrees(t: Table, size: nat)
    requires t.Agrees()
    ensures t.Resize(size).0.Agrees()
    ensures t.Resize(size).1 ==> |t.Resize(size).0.masks| == size
    ensures forall fd :: fd in t.kernel ==> t.Resize(size).1 ==> fd < size
  {
    HighestBounds(t.masks);
    HighestIs(t.Resize(size).0.masks, t.Resize(size).0.maxfd);
  }

  // A resize to another size is refused exactly when it would cut off a
  // registered fd.
  lemma ResizeRefusedIff(t: Table, size: nat)
    requires t.Agrees()
    ensures t.Resize(size).1 <==> forall fd :: fd in t.kernel ==> fd < size
    ensures t.Resize(size).1 ==> |t.Resize(size).0.masks| == size
    ensures !t.Resize(size).1 ==> t.Resize(size).0 == t
  {
    HighestBounds(t.masks);
    if t.maxfd >= 0 { assert t.maxfd in t.kernel; }
  }

  datatype Step =
    | Create(fd: nat, mask: Mask, ok: bool)
    | Delete(fd: nat, mask: Mask)
    | Resize(size: nat)

  function Apply(t: Table, a: Step): Table {
    match a
    case Create(fd, mask, ok) => t.Create(fd, mask, ok).0
    case Delete(fd, mask) => t.Delete(fd, mask)
    case Resize(size) => t.Resize(size).0
  }

  function ApplyAll(t: Table, steps: seq<Step>): Table
    decreases |steps|
  {
    if steps == [] then t else ApplyAll(Apply(t, steps[0]), steps[1..])
  }

  lemma MaskUnion(a: Mask, b: Mask)
    ensures a | b == NONE <==> a == NONE && b == NONE
  {
  }

  // After any sequence of registrations (with something to watch, failing or
  // not), deletions and resizes, table, maximum and kernel agree.
  lemma {:induction false} RunAgrees(t: Table, steps: seq<Step>)
    requires t.Agrees() && forall i :: 0 <= i < |steps| && steps[i].Create? ==> steps[i].mask != NONE
    ensures ApplyAll(t, steps).Agrees()
    decreases |steps|
  {
    if steps != [] {
      match steps[0] {
        case Create(fd, mask, ok) =>
          CreateAgrees(t, fd, mask, ok);
          if fd < |t.masks| {
            MaskUnion(mask, t.masks[fd]);
          }
        case Delete(fd, mask) => DeleteAgrees(t, fd, mask);
        case Resize(size) => ResizeAgrees(t, size);
      }
      RunAgrees(Apply(t, steps[0]), steps[1..]);
    }
  }

  // --- what is watched ---

  lemma MaskEvents(a: Mask, b: Mask, e: Mask)
    requires e == READABLE || e == WRITABLE
    ensures (a | b) & e != NONE <==> a & e != NONE || b & e != NONE
    ensures (a & !b) & e != NONE <==> a & e != NONE && b & e == NONE
  {
  }

  // A registration adds its events to those of its fd, in the table and in the
  // kernel, and touches no other fd; one that fails changes nothing.
  lemma CreateAdds(t: Table, fd: nat, mask: Mask, ok: bool)
    requires t.Agrees()
    ensures var (t', done) := t.Create(fd, mask, ok);
            && |t'.masks| == |t.masks| && (done <==> fd < |t.masks| && ok)
            && (done ==> t'.masks[fd] == t.masks[fd] | mask && fd in t'.kernel && t'.kernel[fd] == t.masks[fd] | mask)
            && (forall d :: 0 <= d < |t.masks| && (d != fd || !done) ==> t'.masks[d] == t.masks[d])
            && (forall d :: d != fd || !done ==> (d in t'.kernel <==> d in t.kernel) && (d in t.kernel ==> t'.kernel[d] == t.kernel[d]))
  {
    CreateAgrees(t, fd, mask, ok);
  }

  // Likewise an update, but for the kernel, which is sent the new mask alone.
  lemma UpdateReplaces(t: Table, fd: nat, mask: Mask, ok: bool)
    requires t.Agrees()
    ensures var (t', done) := t.Update(fd, mask, ok);
            && |t'.masks| == |t.masks| && (done <==> fd < |t.masks| && ok)
            && (done ==> t'.masks[fd] == t.masks[fd] | mask && fd in t'.kernel && t'.kernel[fd] == mask)
            && (forall d :: 0 <= d < |t.masks| && (d != fd || !done) ==> t'.masks[d] == t.masks[d])
            && (forall d :: d != fd || !done ==> (d in t'.kernel <==> d in t.kernel) && (d in t.kernel ==> t'.kernel[d] == t.kernel[d]))
  {
    UpdateAgrees(t, fd, mask, ok);
  }

  // A deletion takes its events from those of its fd, and touches no other fd.
  lemma DeleteTakes(t: Table, fd: nat, mask: Mask)
    requires t.Agrees()
    ensures var t' := t.Delete(fd, mask);
            && |t'.masks| == |t.masks|
            && forall d :: 0 <= d < |t.masks| ==> t'.masks[d] == if d == fd then t.masks[d] & !mask else t.masks[d]
  {
  }

  // A resize keeps the events of every fd.
  lemma ResizeKeeps(t: Table, size: nat)
    requires t.Agrees()
    ensures var t' := t.Resize(size).0;
            && (forall d :: 0 <= d < |t'.masks| ==> t'.masks[d] == if d < |t.masks| then t.masks[d] else NONE)
            && (forall d :: |t'.masks| <= d < |t.masks| ==> t.masks[d] == NONE)
  {
    HighestBounds(t.masks);
  }

  // The table and the kernel watch `fd` for the event.
  predicate Watches(t: Table, fd: nat, e: Mask) {
    InTable(t, fd, e) && fd in t.kernel && t.kernel[fd] & e != NONE
  }

  predicate InTable(t: Table, fd: nat, e: Mask) {
    fd < |t.masks| && t.masks[fd] & e != NONE
  }

  lemma InBoth(t: Table, fd: nat, e: Mask)
    requires t.Agrees()
    ensures Watches(t, fd, e) <==> InTable(t, fd, e)
  {
    assert NONE & e == NONE;
  }

  // Whether the last step that named the fd and the event, and did not fail, was
  // a registration; `was` if there is none.
  function Wanted(t: Table, steps: seq<Step>, fd: nat, e: Mask, was: bool): bool
    decreases |steps|
  {
    if steps == [] then was
    else Wanted(Apply(t, steps[0]), steps[1..], fd, e, WantedBy(t, steps[0], fd, e, was))
  }

  function WantedBy(t: Table, a: Step, fd: nat, e: Mask, was: bool): bool {
    match a
    case Create(d, mask, ok) => was || (d == fd && mask & e != NONE && fd < |t.masks| && ok)
    case Delete(d, mask) => was && !(d == fd && mask & e != NONE)
    case Resize(_) => was
  }

  lemma CreateWatches(t: Table, d: nat, mask: Mask, ok: bool, fd: nat, e: Mask)
    requires t.Agrees() && (e == READABLE || e == WRITABLE)
    ensures InTable(t.Create(d, mask, ok).0, fd, e) <==> WantedBy(t, Step.Create(d, mask, ok), fd, e, InTable(t, fd, e))
  {
    CreateAdds(t, d, mask, ok);
    if fd < |t.masks| { MaskEvents(t.masks[fd], mask, e); }
  }

  lemma DeleteWatches(t: Table, d: nat, mask: Mask, fd: nat, e: Mask)
    requires t.Agrees() && (e == READABLE || e == WRITABLE)
    ensures InTable(t.Delete(d, mask), fd, e) <==> WantedBy(t, Step.Delete(d, mask), fd, e, InTable(t, fd, e))
  {
    DeleteTakes(t, d, mask);
    if fd < |t.masks| { MaskEvents(t.masks[fd], mask, e); }
  }

  lemma ResizeWatches(t: Table, size: nat, fd: nat, e: Mask)
    requires t.Agrees()
    ensures InTable(t.Resize(size).0, fd, e) <==> InTable(t, fd, e)
  {
    ResizeKeeps(t, size);
    assert NONE & e == NONE;
  }

  lemma WatchedBy(t: Table, a: Step, fd: nat, e: Mask)
    requires t.Agrees() && Apply(t, a).Agrees() && (e == READABLE || e == WRITABLE)
    ensures Watches(Apply(t, a), fd, e) <==> WantedBy(t, a, fd, e, Watches(t, fd, e))
  {
    InBoth(t, fd, e);
    InBoth(Apply(t, a), fd, e);
    match a
    case Create(d, mask, ok) => CreateWatches(t, d, mask, ok, fd, e);
    case Delete(d, mask) => DeleteWatches(t, d, mask, fd, e);
    case Resize(size) => ResizeWatches(t, size, fd, e);
  }

  // After any sequence of registrations, deletions and resizes an fd is watched
  // for an event if and only if the last of them to name both, and not to fail,
  // was a registration.
  lemma {:induction false} WatchedIff(t: Table, steps: seq<Step>, fd: nat, e: Mask)
    requires t.Agrees() && (e == READABLE || e == WRITABLE)
    requires forall i :: 0 <= i < |steps| && steps[i].Create? ==> steps[i].mask != NONE
    ensures Watches(ApplyAll(t, steps), fd, e) <==> Wanted(t, steps, fd, e, Watches(t, fd, e))
    decreases |steps|
  {
    if steps != [] {
      RunAgrees(t, steps[..1]);
      assert ApplyAll(t, steps[..1]) == Apply(t, steps[0]);
      WatchedBy(t, steps[0], fd, e);
      WatchedIff(Apply(t, steps[0]), steps[1..], fd, e);
    }
  }

  class FdPoll {
    var events: array<Mask>
    var maxfd: int
    var kernel: map<int, Mask>

    function Value(): Table
      reads this, events
    {
      Table(events[..], maxfd, kernel)
    }

    constructor (setsize: nat)
      ensures fresh(events) && Value() == Table(seq(setsize, _ => NONE), -1, map[]) && Value().Agrees()
    {
      events := new Mask[setsize](_ => NONE);
      maxfd, kernel := -1, map[];
      new;
      HighestIs(events[..], -1);
    }

    method EpollCtl(op: CtlOp, fd: int, mask: Mask, ok: bool) returns (done: bool)
      modifies this`kernel
      ensures done == (ok && Ctl(old(kernel), op, fd, mask).Some?)
      ensures kernel == if done then Ctl(old(kernel), op, fd, mask).value else old(kernel)
    {
      match Ctl(kernel, op, fd, mask) {
        case Some(k) => if ok { kernel := k; return true; }
        case None =>
      }
      return false;
    }

    method FileEventCreate(fd: nat, mask: Mask, ok: bool) returns (done: bool)
      modifies this`maxfd, this`kernel, events
      ensures (Value(), done) == old(Value()).Create(fd, mask, ok)
    {
      if fd >= events.Length {
        return false;
      }
      done := EpollCtl(if events[fd] == NONE then ADD else MOD, fd, mask | events[fd], ok);
      if !done {
        return false;
      }
      events[fd] := events[fd] | mask;
      if fd > maxfd {
        maxfd := fd;
      }
    }

    method FileEventUpdate(fd: nat, mask: Mask, ok: bool) returns (done: bool)
      modifies this`maxfd, this`kernel, events
      ensures (Value(), done) == old(Value()).Update(fd, mask, ok)
    {
      if fd >= events.Length {
        return false;
      }
      done := EpollCtl(if events[fd] == NONE then ADD else MOD, fd, mask, ok);
      if !done {
        return false;
      }
      events[fd] := events[fd] | mask;
      if fd > maxfd {
        maxfd := fd;
      }
    }

    method FileEventDelete(fd: nat, mask: Mask)
      modifies this`maxfd, this`kernel, events
      ensures Value() == old(Value()).Delete(fd, mask)
    {
      if fd >= events.Length || events[fd] == NONE {
        return;
      }
      events[fd] := events[fd] & !mask;
      var left := events[fd];
      if fd == maxfd && left == NONE {
        var j := maxfd - 1;
        while j >= 0 && events[j] == NONE
          invariant -1 <= j < fd
          invariant forall i :: j < i < fd ==> events[i] == NONE
        {
          j := j - 1;
        }
        HighestIs(events[..][..fd], j);
        maxfd := j;
      }
      var _ := EpollCtl(if left != NONE then MOD else DEL, fd, left, true);
    }

    method Resize(size: nat) returns (done: bool)
      requires maxfd < events.Length
      modifies this`events
      ensures (Value(), done) == old(Value()).Resize(size)
      ensures events == old(events) || fresh(events)
    {
      if size == events.Length {
        return true;
      }
      if maxfd >= size {
        return false;
      }
      var grown := new Mask[size](i requires 0 <= i reads this, events =>
                                    if i <= maxfd && i < events.Length then events[i] else NONE);
      assert grown[..] == old(Value()).Resize(size).0.masks;
      events := grown;
      return true;
    }

    method GetFileEvents(fd: nat) returns (mask: Mask)
      ensures mask == if fd < |Value().masks| then Value().masks[fd] else NONE
    {
      mask := if fd >= events.Length then NONE else events[fd];
    }
  }
}
