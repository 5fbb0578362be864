/**
 * The channel object: a data queue between two blockers.  Operations that can
 * put the calling fiber to sleep are split at the yield; ChannelRuns says what
 * the pieces add up to.
 */
module Channel {
  import opened Base
  import opened RunQueue
  import opened Blocker

  const INT_MAX: nat := 0x7FFF_FFFF

  // What one turn of the loop in `tryRead` ends with.
  datatype Turn<T> = Got(value: Option<T>) | GaveUp | Yield

  class EFiberChannel<T> {
    const reader: EFiberBlocker
    const writer: EFiberBlocker
    var dataQueue: seq<T>

    ghost predicate Separate() {
      reader != writer
    }

    constructor (capacity: nat := 0)
      requires capacity <= INT_MAX
      ensures Separate() && fresh(reader) && fresh(writer) && dataQueue == []
      ensures reader.Value() == Gate(0, UINT_MAX, []) && writer.Value() == Gate(capacity, UINT_MAX, [])
    {
      writer := new EFiberBlocker(capacity, UINT_MAX);
      reader := new EFiberBlocker(0, UINT_MAX);
      dataQueue := [];
    }

    static ghost predicate CanWake(b: EFiberBlocker)
      reads b, if b.waitQueue == [] then {} else {b.waitQueue[0], b.waitQueue[0].packing}
      reads if b.waitQueue == [] || b.waitQueue[0].boundQueue == null then {} else {b.waitQueue[0].boundQueue}
      reads if b.waitQueue == [] || b.waitQueue[0].boundQueue == null then {} else set o: object | o in b.waitQueue[0].boundQueue.nodes
      reads if b.waitQueue == [] || b.waitQueue[0].boundQueue == null then {} else set o: object | o in b.waitQueue[0].boundQueue.fibers
    {
      b.waitQueue != [] && b.waitQueue[0].IsHung() ==> b.waitQueue[0].CanResume()
    }

    // `read` and `tryRead` announce themselves to the writers.
    method PostRead()
      requires Separate() && CanWake(writer)
      modifies writer, writer.WakeFrame()
      ensures writer.Value() == old(writer.Value()).WakeUp().0
      ensures reader.Value() == old(reader.Value()) && dataQueue == old(dataQueue)
      ensures var w := old(writer.Value()).WakeUp().1;
              w.Handed? ==>
                !w.fiber.IsHung() &&
                (old(writer.waitQueue[0].IsHung()) ==>
                   w.fiber.boundQueue == old(writer.waitQueue[0].boundQueue) && w.fiber.boundQueue != null
                   && w.fiber.boundQueue.fibers == old(writer.waitQueue[0].boundQueue.fibers) + [w.fiber])
    {
      var _ := writer.WakeUp();
    }

    // `read` up to the yield.
    method BeginRead(fiber: Fiber) returns (done: bool)
      requires Separate()
      modifies reader, fiber
      ensures (reader.Value(), done) == old(reader.Value()).Take()
      ensures if done then unchanged(fiber) else fiber.state == BLOCKED && fiber.blocker == reader
      ensures writer.Value() == old(writer.Value()) && dataQueue == old(dataQueue)
    {
      done := reader.BeginWait(fiber);
    }

    method PollData() returns (o: Option<T>)
      modifies this
      ensures if old(dataQueue) == [] then o == None && dataQueue == []
              else o == Some(old(dataQueue)[0]) && dataQueue == old(dataQueue)[1..]
    {
      if dataQueue == [] {
        return None;
      }
      o := Some(dataQueue[0]);
      dataQueue := dataQueue[1..];
    }

    // `write` up to the yield.
    method BeginWrite(fiber: Fiber) returns (done: bool)
      requires Separate()
      modifies writer, fiber
      ensures (writer.Value(), done) == old(writer.Value()).Take()
      ensures if done then unchanged(fiber) else fiber.state == BLOCKED && fiber.blocker == writer
      ensures reader.Value() == old(reader.Value()) && dataQueue == old(dataQueue)
    {
      done := writer.BeginWait(fiber);
    }

    // The rest of `write`: the item is in the queue before a reader is woken.
    method FinishWrite(o: T)
      requires Separate() && CanWake(reader)
      modifies this, reader, reader.WakeFrame()
      ensures dataQueue == old(dataQueue) + [o]
      ensures reader.Value() == old(reader.Value()).WakeUp().0
      ensures writer.Value() == old(writer.Value())
      ensures var w := old(reader.Value()).WakeUp().1;
              w.Handed? ==>
                !w.fiber.IsHung() &&
                (old(reader.waitQueue[0].IsHung()) ==>
                   w.fiber.boundQueue == old(reader.waitQueue[0].boundQueue) && w.fiber.boundQueue != null
                   && w.fiber.boundQueue.fibers == old(reader.waitQueue[0].boundQueue.fibers) + [w.fiber])
    {
      dataQueue := dataQueue + [o];
      var _ := reader.WakeUp();
    }

    // One turn of the loop in `tryRead`.
    method TryReadTurn() returns (turn: Turn<T>)
      requires Separate()
      modifies this, reader, writer
      ensures var (r, got) := old(reader.Value()).Take();
              var (w, back) := old(writer.Value()).Take();
              if got then
                && reader.Value() == r && writer.Value() == old(writer.Value())
                && (if old(dataQueue) == [] then turn == Got(None) && dataQueue == []
                    else turn == Got(Some(old(dataQueue)[0])) && dataQueue == old(dataQueue)[1..])
              else
                && reader.Value() == old(reader.Value()) && writer.Value() == w && dataQueue == old(dataQueue)
                && turn == (if back then GaveUp else Yield)
    {
      var got := reader.TryWait();
      if got {
        var o := PollData();
        return Got(o);
      }
      var back := writer.TryWait();
      return if back then GaveUp else Yield;
    }

    method TryWrite(o: T) returns (ok: bool)
      requires Separate() && CanWake(reader)
      modifies this, reader, writer, reader.WakeFrame()
      ensures (writer.Value(), ok) == old(writer.Value()).Take()
      ensures if ok then dataQueue == old(dataQueue) + [o] && reader.Value() == old(reader.Value()).WakeUp().0
              else dataQueue == old(dataQueue) && reader.Value() == old(reader.Value())
      ensures var w := old(reader.Value()).WakeUp().1;
              ok && w.Handed? ==>
                !w.fiber.IsHung() &&
                (old(reader.waitQueue[0].IsHung()) ==>
                   w.fiber.boundQueue == old(reader.waitQueue[0].boundQueue) && w.fiber.boundQueue != null
                   && w.fiber.boundQueue.fibers == old(reader.waitQueue[0].boundQueue.fibers) + [w.fiber])
    {
      ok := writer.TryWait();
      if ok {
        FinishWrite(o);
      }
    }

    method IsEmpty() returns (b: bool)
      ensures b == (reader.Value().wakeup == 0)
    {
      var waking := reader.IsWaking();
      b := !waking;
    }
  }
}
