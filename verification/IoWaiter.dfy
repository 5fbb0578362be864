/**
 * The I/O waiter between fibers and the event loop: timers and descriptors set
 * up for a fiber, the count of them, and what their procedures do to it.
 */
module IoWaiter {
  import opened Deadlines
  import opened FdTable
  import opened RunQueue
  import opened TimerList
  import opened TimerPass

  // The descriptors' side: the table and the count.
  datatype Watch = Watch(table: Table, waiters: int)

  function SetFile(w: Watch, fd: nat, mask: Mask, ok: bool): Watch {
    Watch(w.table.Create(fd, mask, ok).0, w.waiters + 1)
  }

  function DelFile(w: Watch, fd: nat, mask: Mask): Watch {
    if fd >= |w.table.masks| then w else Watch(w.table.Delete(fd, mask), w.waiters - 1)
  }

  lemma MaskBack(m: Mask, mask: Mask)
    ensures (m | mask) & !mask == m <==> m & mask == NONE
    ensures m & !mask == m <==> m & mask == NONE
  {
  }

  lemma {:induction false} HighestPrefix(masks: seq<Mask>, fd: nat)
    requires fd <= |masks| && forall j :: fd <= j < |masks| ==> masks[j] == NONE
    ensures Highest(masks[..fd]) == Highest(masks)
  {
    HighestBounds(masks[..fd]);
    HighestIs(masks, Highest(masks[..fd]));
  }

  // What the two calls leave of the masks.
  lemma MasksAfter(t: Table, fd: nat, mask: Mask, ok: bool)
    requires t.Agrees() && mask != NONE && fd < |t.masks|
    ensures t.Create(fd, mask, ok).0.Delete(fd, mask).masks
         == t.masks[fd := if ok then (t.masks[fd] | mask) & !mask else t.masks[fd] & !mask]
  {
    MaskUnion(mask, t.masks[fd]);
  }

  lemma TableBack(t: Table, fd: nat, mask: Mask, ok: bool)
    requires t.Agrees() && mask != NONE && fd < |t.masks| && t.masks[fd] & mask == NONE
    ensures t.Create(fd, mask, ok).0.Delete(fd, mask) == t
  {
    var u := t.Create(fd, mask, ok).0.Delete(fd, mask);
    MaskBack(t.masks[fd], mask);
    MaskUnion(mask, t.masks[fd]);
    HighestBounds(t.masks);
    MasksAfter(t, fd, mask, ok);
    assert u.masks == t.masks;
    if t.masks[fd] == NONE && fd > t.maxfd {
      HighestPrefix(t.masks, fd);
    }
    assert u.kernel == t.kernel;
  }

  // Giving up a descriptor undoes setting it up: the table, its maximum and the
  // kernel's set come back if and only if the fd lies outside the table or was
  // not registered for any of these events before, whether or not the
  // registration succeeded.
  lemma DelUndoesSet(w: Watch, fd: nat, mask: Mask, ok: bool)
    requires w.table.Agrees() && mask != NONE
    ensures DelFile(SetFile(w, fd, mask, ok), fd, mask).table == w.table <==>
              fd >= |w.table.masks| || w.table.masks[fd] & mask == NONE
  {
    var t := w.table;
    if fd < |t.masks| {
      if t.masks[fd] & mask == NONE {
        TableBack(t, fd, mask, ok);
      } else {
        MaskBack(t.masks[fd], mask);
        MasksAfter(t, fd, mask, ok);
      }
    }
  }

  // The count comes back if and only if the fd lies inside the table: a
  // descriptor too large to register is counted but never discounted.
  lemma CountComesBackIff(w: Watch, fd: nat, mask: Mask, ok: bool)
    ensures DelFile(SetFile(w, fd, mask, ok), fd, mask).waiters == w.waiters <==> fd < |w.table.masks|
  {
    var t := w.table.Create(fd, mask, ok).0;
    assert |t.masks| == |w.table.masks|;
  }

  // Setting up a descriptor watches its events, next to those watched before, if
  // it lies inside the table and the kernel agrees; it counts in any case.
  lemma SetWatches(w: Watch, fd: nat, mask: Mask, ok: bool, d: nat, e: Mask)
    requires w.table.Agrees() && mask != NONE && (e == READABLE || e == WRITABLE)
    ensures SetFile(w, fd, mask, ok).waiters == w.waiters + 1
    ensures Watches(SetFile(w, fd, mask, ok).table, d, e)
       <==> Watches(w.table, d, e) || (d == fd && mask & e != NONE && fd < |w.table.masks| && ok)
  {
    CreateAgrees(w.table, fd, mask, ok);
    if fd < |w.table.masks| { MaskUnion(mask, w.table.masks[fd]); }
    WatchedBy(w.table, Step.Create(fd, mask, ok), d, e);
  }

  // Giving one up stops watching its events and no others.
  lemma DelStops(w: Watch, fd: nat, mask: Mask, d: nat, e: Mask)
    requires w.table.Agrees() && (e == READABLE || e == WRITABLE)
    ensures Watches(DelFile(w, fd, mask).table, d, e) <==> Watches(w.table, d, e) && !(d == fd && mask & e != NONE)
  {
    DeleteAgrees(w.table, fd, mask);
    WatchedBy(w.table, Step.Delete(fd, mask), d, e);
  }

  class EIoWaiter {
    const poll: EventPoll
    const files: FdPoll
    var waiters: int

    // `pipe` is the descriptor other threads signal the waiter through: nothing
    // else is watched, and it is, unless it lies outside the table or the kernel
    // refuses it.
    constructor (setsize: nat, now: int, pipe: nat, ok: bool)
      ensures fresh(poll) && fresh(files) && fresh(files.events) && waiters == 0
      ensures poll.Valid() && poll.Timers() == [] && files.Value().Agrees()
      ensures |files.Value().masks| == setsize
      ensures forall fd :: 0 <= fd < setsize ==> files.Value().masks[fd] == if fd == pipe && ok then READABLE else NONE
    {
      poll := new EventPoll(now);
      files := new FdPoll(setsize);
      waiters := 0;
      new;
      UpdateAgrees(files.Value(), pipe, READABLE, ok);
      var _ := files.FileEventUpdate(pipe, READABLE, ok);
    }

    function Value(): Watch
      reads this, files, files.events
    {
      Watch(files.Value(), waiters)
    }

    // The flag is cleared before the timer can set it.
    method SetupTimer(timeout: int, fiber: Fiber, now: Time, clientData: int) returns (id: int)
      requires poll.Valid()
      modifies this`waiters, poll, fiber`isIoWaitTimeout
      ensures poll.Valid() && !fiber.isIoWaitTimeout && waiters == old(waiters) + 1
      ensures id == old(poll.timeEventNextId)
      ensures poll.Timers() == [Timer(id, AddMilliseconds(now, timeout), clientData)] + old(poll.Timers())
    {
      fiber.isIoWaitTimeout := false;
      waiters := waiters + 1;
      id := poll.Create(timeout, now, clientData);
    }

    method CancelTimer(id: int)
      requires poll.Valid()
      modifies this`waiters, poll.nodes
      ensures poll.Valid() && waiters == old(waiters) - 1 && poll.Timers() == Mark(old(poll.Timers()), id)
    {
      var _ := poll.Delete(id);
      waiters := waiters - 1;
    }

    // A timer fires once: it flags its fiber, wakes it if it is still hung, and
    // asks not to be armed again.
    static method TimeEventProc(fiber: Fiber) returns (again: int)
      requires fiber.IsHung() ==> fiber.CanResume()
      modifies fiber, fiber.ResumeFrame()
      ensures again == NOMORE && fiber.isIoWaitTimeout && !fiber.IsHung()
      ensures !old(fiber.IsHung()) ==>
                fiber.state == old(fiber.state) && fiber.boundQueue == old(fiber.boundQueue)
                && (fiber.boundQueue != null ==> fiber.boundQueue.fibers == old(fiber.boundQueue.fibers))
      ensures old(fiber.IsHung()) ==>
                fiber.boundQueue == old(fiber.boundQueue) && fiber.boundQueue != null
                && fiber.boundQueue.fibers == old(fiber.boundQueue.fibers) + [fiber]
    {
      fiber.isIoWaitTimeout := true;
      fiber.SwapIn();
      return NOMORE;
    }

    method SetFileEvent(fd: nat, mask: Mask, fiber: Fiber, ok: bool)
      modifies this`waiters, files`maxfd, files`kernel, files.events, fiber`state
      ensures Value() == SetFile(old(Value()), fd, mask, ok) && fiber.state == WAITING
    {
      var _ := files.FileEventCreate(fd, mask, ok);
      waiters := waiters + 1;
      fiber.state := WAITING;
    }

    method DelFileEvent(fd: nat, mask: Mask)
      modifies this`waiters, files`maxfd, files`kernel, files.events
      ensures Value() == DelFile(old(Value()), fd, mask)
    {
      if fd >= files.events.Length {
        return;
      }
      files.FileEventDelete(fd, mask);
      waiters := waiters - 1;
    }
  }
}
