/**
 * What the run queue is for: each queue is a FIFO that every `add` and `poll`
 * changes in one atomic step between its call and its return.  Fibers outside
 * the queues have a holder.
 */
module AtomicFifo {
  import opened Base

  type Handle = nat
  type Tid = nat
  type Qid = nat

  datatype Op =
    | Ready
    | Adding(q: Qid, h: Handle)
    | Added
    | Polling(q: Qid)
    | Polled(result: Option<Handle>)

  datatype Fifo = Fifo(contents: map<Qid, seq<Handle>>, ops: map<Tid, Op>, held: map<Handle, Tid>)

  datatype Event =
    | CallAdd(t: Tid, q: Qid, h: Handle)
    | Put(t: Tid)          // the fiber enters the queue
    | ReturnAdd(t: Tid)
    | CallPoll(t: Tid, q: Qid)
    | Take(t: Tid)         // the oldest fiber leaves the queue, if there is one
    | ReturnPoll(t: Tid)   // the caller gets what was taken
    | ReturnEmpty(t: Tid)
    | Spawn(t: Tid, h: Handle)
    | PassOn(h: Handle, to: Tid)
    | Retire(h: Handle)
    | Quiet

  predicate Possible(f: Fifo, e: Event) {
    match e
    case CallAdd(t, q, h) => t in f.ops && f.ops[t] == Ready && q in f.contents && h in f.held && f.held[h] == t
    case Put(t) => t in f.ops && f.ops[t].Adding? && f.ops[t].q in f.contents
    case ReturnAdd(t) => t in f.ops && f.ops[t] == Added
    case CallPoll(t, q) => t in f.ops && f.ops[t] == Ready && q in f.contents
    case Take(t) => t in f.ops && f.ops[t].Polling? && f.ops[t].q in f.contents
    case ReturnPoll(t) => t in f.ops && f.ops[t].Polled? && f.ops[t].result.Some?
    case ReturnEmpty(t) => t in f.ops && f.ops[t] == Polled(None)
    case Spawn(t, h) => t in f.ops && f.ops[t] == Ready && h !in f.held
    case PassOn(h, to) => h in f.held && to in f.ops
    case Retire(h) => h in f.held
    case Quiet => true
  }

  function Do(f: Fifo, e: Event): Fifo
    requires Possible(f, e)
  {
    match e
    case CallAdd(t, q, h) => f.(ops := f.ops[t := Adding(q, h)], held := f.held - {h})
    case Put(t) =>
      var q := f.ops[t].q;
      f.(contents := f.contents[q := f.contents[q] + [f.ops[t].h]], ops := f.ops[t := Added])
    case ReturnAdd(t) => f.(ops := f.ops[t := Ready])
    case CallPoll(t, q) => f.(ops := f.ops[t := Polling(q)])
    case Take(t) =>
      var q := f.ops[t].q;
      if f.contents[q] == [] then f.(ops := f.ops[t := Polled(None)])
      else f.(contents := f.contents[q := f.contents[q][1..]], ops := f.ops[t := Polled(Some(f.contents[q][0]))])
    case ReturnPoll(t) => f.(ops := f.ops[t := Ready], held := f.held[f.ops[t].result.value := t])
    case ReturnEmpty(t) => f.(ops := f.ops[t := Ready])
    case Spawn(t, h) => f.(held := f.held[h := t])
    case PassOn(h, to) => f.(held := f.held[h := to])
    case Retire(h) => f.(held := f.held - {h})
    case Quiet => f
  }
}
