/**
 * A channel in use by any number of fibers, under every interleaving: its two
 * blockers, its data queue, and where each fiber stands inside `read`, `write`,
 * `tryRead` and `tryWrite`.  Each blocker or queue operation is one step; what a
 * wake-up does after it has popped a fiber, the look at the fiber's state and
 * the change of it, are two more.  The fibers may also wait elsewhere, with
 * timers, so a thread may come late to a fiber that is back at the channel.
 */
module ChannelRuns {
  import opened Base
  import opened Counting
  import opened Blocker

  type Fid = nat
  type Value = int

  datatype Pc =
    | Idle
    | ReadPosted                  // read: writer.wakeUp() done
    | ReadParking
    | ReadParked
    | ReadGranted                 // has a reader token, dataQueue.poll() is next
    | TryPosted                   // tryRead: writer.wakeUp() done, at the loop head
    | TryMissed                   // reader.tryWait() failed
    | TryYielded                  // writer.tryWait() failed as well
    | WriteParking(v: Value)
    | WriteParked(v: Value)
    | WriteGranted(v: Value)      // has a writer token, dataQueue.add() is next
    | WriteAdded                  // reader.wakeUp() is next
    | StrayReader(again: bool)    // parked in the reader's line by a yield outside any wait,
    | StrayWriter(again: bool)    // or in the writer's, or that of a blocker elsewhere;
    | StrayOther(again: bool)     // `again`: by the yield of tryRead
    | ReadHanded                  // popped with a token, and still to be resumed,
    | WriteHanded(v: Value)       // from each of these lines
    | StrayHanded(again: bool)

  datatype Side = Reader | Writer | Other

  // A read that has announced itself and has no token yet.
  predicate Posted(p: Pc) {
    p.ReadPosted? || p.ReadParking? || p.ReadParked? || p.TryPosted? || p.TryMissed? || p.TryYielded?
    || (Stray(p) && p.again)
  }

  // Parked on a blocker that the fiber does not wait for.
  predicate Stray(p: Pc) {
    p.StrayReader? || p.StrayWriter? || p.StrayOther? || p.StrayHanded?
  }

  predicate Handed(p: Pc) {
    p.ReadHanded? || p.WriteHanded? || p.StrayHanded?
  }

  predicate Granted(p: Pc) {
    p.ReadGranted? || p.ReadHanded?
  }

  // A write that has its token and has not yet woken a reader.
  predicate InFlight(p: Pc) {
    p.WriteHanded? || p.WriteGranted? || p.WriteAdded?
  }

  predicate Added(p: Pc) {
    p.WriteAdded?
  }

  predicate Blocks(p: Pc) {
    p.ReadParking? || p.ReadParked? || p.WriteParking? || p.WriteParked? || Stray(p) || Handed(p)
  }

  datatype State = State(
    reader: Gate<Fid>,
    writer: Gate<Fid>,
    data: seq<Value>,
    pcs: map<Fid, Pc>,
    marks: map<Fid, Side>,   // fibers granted at their swap-out: still BLOCKED, and on which blocker
    looks: multiset<Fid>,    // for each thread about to resume a fiber, that fiber,
    seen: multiset<Fid>,     // and for each that has found its fiber BLOCKED
    capacity: nat,
    delivered: seq<Value>,   // every value ever returned to a reader
    lost: nat)               // tokens taken for no wait
  {
    predicate At(f: Fid, p: Pc) {
      f in pcs && pcs[f] == p
    }

    // state == BLOCKED: in a wait on a blocker of the channel, or left so by one.
    predicate Blocked(f: Fid) {
      f in marks || (f in pcs && Blocks(pcs[f]))
    }
  }

  // Elsewhere is a sleep, or a wait on something else; `late` if its timer ended
  // it while a thread was still to resume the fiber, `marked` if it was granted
  // at its swap-out.
  datatype Step =
    | Read(f: Fid)
    | ReaderWait(f: Fid)
    | ReaderSwapOut(f: Fid)
    | Poll(f: Fid)
    | TryRead(f: Fid)
    | TryTake(f: Fid)
    | TryBack(f: Fid)
    | TryAgain(f: Fid)
    | Write(f: Fid, v: Value)
    | WriterSwapOut(f: Fid)
    | Add(f: Fid)
    | Signal(f: Fid)
    | TryWrite(f: Fid, v: Value)
    | Yield(f: Fid)         // a plain yield between two operations
    | Elsewhere(f: Fid, late: bool, marked: bool)
    | OtherGrants(f: Fid)   // a yield that takes a token of the blocker elsewhere, and
    | OtherPops(f: Fid)     // one of its wake-ups, for fibers left marked by it
    | Look(f: Fid)          // swapIn: a thread looks at the fiber's state
    | Change(f: Fid)        // swapIn: and makes it RUNNABLE

  predicate Enabled(s: State, a: Step) {
    match a
    case Read(f) => s.At(f, Idle)
    case ReaderWait(f) => s.At(f, ReadPosted)
    case ReaderSwapOut(f) => s.At(f, ReadParking)
    case Poll(f) => s.At(f, ReadGranted)
    case TryRead(f) => s.At(f, Idle)
    case TryTake(f) => s.At(f, TryPosted)
    case TryBack(f) => s.At(f, TryMissed)
    case TryAgain(f) => s.At(f, TryYielded)
    case Write(f, _) => s.At(f, Idle)
    case WriterSwapOut(f) => f in s.pcs && s.pcs[f].WriteParking?
    case Add(f) => f in s.pcs && s.pcs[f].WriteGranted?
    case Signal(f) => s.At(f, WriteAdded)
    case TryWrite(f, _) => s.At(f, Idle)
    case Yield(f) => s.At(f, Idle)
    case Elsewhere(f, _, _) => s.At(f, Idle)
    case OtherGrants(f) => (s.At(f, Idle) || s.At(f, TryYielded)) && f in s.marks && s.marks[f] == Other
    case OtherPops(f) => f in s.pcs && s.pcs[f].StrayOther?
    case Look(f) => f in s.looks && f in s.pcs
    case Change(f) => f in s.seen && f in s.pcs
  }

  function Goto(s: State, f: Fid, p: Pc): State {
    s.(pcs := s.pcs[f := p])
  }

  // A fiber popped from one side's line: it has a token for what it waits for,
  // unless it does not wait there.
  function Woken(p: Pc, side: Side): Pc {
    match p
    case ReadParked => if side == Reader then ReadHanded else p
    case WriteParked(v) => if side == Writer then WriteHanded(v) else p
    case StrayReader(again) => if side == Reader then StrayHanded(again) else p
    case StrayWriter(again) => if side == Writer then StrayHanded(again) else p
    case _ => p
  }

  predicate Takes(p: Pc, side: Side) {
    if side == Reader then p.ReadParked? else p.WriteParked?
  }

  function Back(again: bool): Pc {
    if again then TryPosted else Idle
  }

  // Where a blocked fiber goes on when it is resumed, token or not.
  function GoesOn(p: Pc): Pc {
    match p
    case ReadParking => ReadGranted
    case ReadParked => ReadGranted
    case ReadHanded => ReadGranted
    case WriteParking(v) => WriteGranted(v)
    case WriteParked(v) => WriteGranted(v)
    case WriteHanded(v) => WriteGranted(v)
    case StrayReader(again) => Back(again)
    case StrayWriter(again) => Back(again)
    case StrayOther(again) => Back(again)
    case StrayHanded(again) => Back(again)
    case _ => p
  }

  // A token handed to the first in line, whom its waker is now to resume.
  function HandTo(s: State, g: Fid, side: Side): State {
    if g in s.pcs then
      Goto(s, g, Woken(s.pcs[g], side)).(lost := s.lost + ToInt(!Takes(s.pcs[g], side)), looks := s.looks + multiset{g})
    else s
  }

  // writer.wakeUp() by a fiber that goes on at `p`.
  function WakeWriter(s: State, f: Fid, p: Pc): State {
    var (g, w) := s.writer.WakeUp();
    var t := Goto(s, f, p).(writer := g);
    if w.Handed? then HandTo(t, w.fiber, Writer) else t
  }

  function WakeReader(s: State, f: Fid): State {
    var (g, w) := s.reader.WakeUp();
    var t := Goto(s, f, Idle).(reader := g);
    if w.Handed? then HandTo(t, w.fiber, Reader) else t
  }

  // A new wait overwrites the mark of an old one.
  function Marks(s: State, f: Fid, p: Pc): map<Fid, Side> {
    if p.ReadParking? || p.WriteParking? then s.marks - {f} else s.marks
  }

  function TakeReader(s: State, f: Fid, granted: Pc, refused: Pc): State {
    var (g, ok) := s.reader.Take();
    var p := if ok then granted else refused;
    Goto(s, f, p).(reader := g, marks := Marks(s, f, p))
  }

  function TakeWriter(s: State, f: Fid, granted: Pc, refused: Pc): State {
    var (g, ok) := s.writer.Take();
    var p := if ok then granted else refused;
    Goto(s, f, p).(writer := g, marks := Marks(s, f, p))
  }

  function ParkReader(s: State, f: Fid): State {
    var (g, parked) := s.reader.SwapOut(f);
    if parked then Goto(s, f, ReadParked).(reader := g)
    else Goto(s, f, ReadGranted).(reader := g, marks := s.marks[f := Reader])
  }

  function ParkWriter(s: State, f: Fid, v: Value): State {
    var (g, parked) := s.writer.SwapOut(f);
    if parked then Goto(s, f, WriteParked(v)).(writer := g)
    else Goto(s, f, WriteGranted(v)).(writer := g, marks := s.marks[f := Writer])
  }

  function StrayToReader(s: State, f: Fid, again: bool): State {
    var (g, parked) := s.reader.SwapOut(f);
    if parked then Goto(s, f, StrayReader(again)).(reader := g, marks := s.marks - {f})
    else Goto(s, f, Back(again)).(reader := g, lost := s.lost + 1)
  }

  function StrayToWriter(s: State, f: Fid, again: bool): State {
    var (g, parked) := s.writer.SwapOut(f);
    if parked then Goto(s, f, StrayWriter(again)).(writer := g, marks := s.marks - {f})
    else Goto(s, f, Back(again)).(writer := g, lost := s.lost + 1)
  }

  // A plain yield, or that of tryRead: the scheduler finds a marked fiber
  // BLOCKED and swaps it out on its old blocker.
  function DoYield(s: State, f: Fid, again: bool): State {
    if f !in s.marks then Goto(s, f, Back(again))
    else match s.marks[f]
      case Reader => StrayToReader(s, f, again)
      case Writer => StrayToWriter(s, f, again)
      case Other => Goto(s, f, StrayOther(again)).(marks := s.marks - {f})
  }

  function AddItem(s: State, f: Fid, v: Value): State {
    Goto(s, f, WriteAdded).(data := s.data + [v])
  }

  // dataQueue.poll(): an empty queue would give the reader nothing.
  function PollItem(s: State, f: Fid): State {
    if s.data == [] then Goto(s, f, Idle)
    else Goto(s, f, Idle).(data := s.data[1..], delivered := s.delivered + [s.data[0]])
  }

  // swapIn: the look, and the change.  A fiber in a line stays there, and goes on.
  function DoLook(s: State, f: Fid): State {
    s.(looks := s.looks - multiset{f}, seen := if s.Blocked(f) then s.seen + multiset{f} else s.seen)
  }

  function DoChange(s: State, f: Fid): State
    requires f in s.pcs
  {
    Goto(s, f, GoesOn(s.pcs[f])).(seen := s.seen - multiset{f}, marks := s.marks - {f})
  }

  function DoElsewhere(s: State, f: Fid, late: bool, marked: bool): State {
    s.(marks := if marked then s.marks[f := Other] else s.marks - {f},
       looks := if late then s.looks + multiset{f} else s.looks)
  }

  function Apply(s: State, a: Step): State
    requires Enabled(s, a)
  {
    match a
    case Read(f) => WakeWriter(s, f, ReadPosted)
    case ReaderWait(f) => TakeReader(s, f, ReadGranted, ReadParking)
    case ReaderSwapOut(f) => ParkReader(s, f)
    case Poll(f) => PollItem(s, f)
    case TryRead(f) => WakeWriter(s, f, TryPosted)
    case TryTake(f) => TakeReader(s, f, ReadGranted, TryMissed)
    case TryBack(f) => TakeWriter(s, f, Idle, TryYielded)
    case TryAgain(f) => DoYield(s, f, true)
    case Write(f, v) => TakeWriter(s, f, WriteGranted(v), WriteParking(v))
    case WriterSwapOut(f) => ParkWriter(s, f, s.pcs[f].v)
    case Add(f) => AddItem(s, f, s.pcs[f].v)
    case Signal(f) => WakeReader(s, f)
    case TryWrite(f, v) => TakeWriter(s, f, WriteGranted(v), Idle)
    case Yield(f) => DoYield(s, f, false)
    case Elsewhere(f, late, marked) => DoElsewhere(s, f, late, marked)
    case OtherGrants(f) => Goto(s, f, Back(s.pcs[f].TryYielded?))
    case OtherPops(f) => Goto(s, f, StrayHanded(s.pcs[f].again)).(looks := s.looks + multiset{f})
    case Look(f) => DoLook(s, f)
    case Change(f) => DoChange(s, f)
  }

  // A thread that finds a fiber blocked goes on to resume it.  It comes in time
  // if the fiber was popped from a line, and nobody else is resuming it.
  predicate Timely(s: State, a: Step) {
    a.Look? && s.Blocked(a.f) ==> a.f in s.pcs && Handed(s.pcs[a.f]) && a.f !in s.seen
  }

  // And a fiber left marked must not yield before it has slept or waited again,
  // unless the blocker elsewhere that left it so has a token for it.
  predicate Careful(s: State, a: Step) {
    Timely(s, a) && (a.TryAgain? || a.Yield? ==> a.f !in s.marks)
  }

  predicate Init(s: State) {
    && s.reader == Gate(0, UINT_MAX, [])
    && s.writer == Gate(s.capacity, UINT_MAX, [])
    && s.data == [] && s.delivered == [] && s.marks == map[] && s.lost == 0
    && s.looks == multiset{} && s.seen == multiset{}
    && (forall f :: f in s.pcs ==> s.pcs[f] == Idle)
    && s.capacity + |s.pcs| <= UINT_MAX
  }

  // --- what every step keeps ---

  // How many fibers stand where.
  datatype Tally = Tally(posted: int, granted: int, inFlight: int, added: int)

  function Tallied(pcs: map<Fid, Pc>): Tally {
    Tally(Count(pcs, Posted), Count(pcs, Granted), Count(pcs, InFlight), Count(pcs, Added))
  }

  function Moved(t: Tally, from: Pc, to: Pc): Tally {
    Tally(t.posted - ToInt(Posted(from)) + ToInt(Posted(to)), t.granted - ToInt(Granted(from)) + ToInt(Granted(to)),
          t.inFlight - ToInt(InFlight(from)) + ToInt(InFlight(to)), t.added - ToInt(Added(from)) + ToInt(Added(to)))
  }

  // Writer tokens, writes on their way, reader tokens and lost tokens together
  // match the capacity and the reads that wait to be served.
  predicate Balance(s: State, t: Tally) {
    s.writer.wakeup + t.inFlight + s.reader.wakeup + s.lost == s.capacity + t.posted
  }

  // Every reader token, given out or not, is backed by an item; the others are
  // those of lost reader tokens.
  predicate Items(s: State, t: Tally) {
    t.added + s.reader.wakeup + t.granted <= |s.data| <= t.added + s.reader.wakeup + t.granted + s.lost
  }

  predicate Fixed(s: State) {
    && s.reader.limit == UINT_MAX && s.writer.limit == UINT_MAX
    && s.capacity + |s.pcs| <= UINT_MAX
    && (0 < s.reader.wakeup ==> s.reader.line == [])
    && (0 < s.writer.wakeup ==> s.writer.line == [])
  }

  predicate OnReader(p: Pc) {
    p.ReadParked? || p.StrayReader?
  }

  predicate OnWriter(p: Pc) {
    p.WriteParked? || p.StrayWriter?
  }

  ghost predicate ReaderLine(s: State, f: Fid) {
    f in s.reader.line <==> f in s.pcs && OnReader(s.pcs[f])
  }

  ghost predicate WriterLine(s: State, f: Fid) {
    f in s.writer.line <==> f in s.pcs && OnWriter(s.pcs[f])
  }

  // The lines are the parked fibers.
  ghost predicate Lines(s: State) {
    && Distinct(s.reader.line) && Distinct(s.writer.line)
    && (forall f {:trigger ReaderLine(s, f)} :: ReaderLine(s, f))
    && (forall f {:trigger WriterLine(s, f)} :: WriterLine(s, f))
  }

  predicate Fits(s: State, t: Tally) {
    Balance(s, t) && Items(s, t) && Fixed(s)
  }

  // What counts, and what names.
  ghost predicate Good(s: State, t: Tally) {
    Fits(s, t) && Lines(s)
  }

  // Only a fiber that was handed a token is being resumed, by one thread, and
  // some thread is there to do it; no mark of an earlier wait outlives the next.
  ghost predicate LookOk(s: State, f: Fid) {
    && (f in s.seen ==> s.seen[f] == 1 && f in s.pcs && Handed(s.pcs[f]))
    && (f in s.pcs && Handed(s.pcs[f]) ==> f in s.looks || f in s.seen)
    && (f in s.pcs && Blocks(s.pcs[f]) ==> f !in s.marks)
  }

  ghost predicate Looks(s: State) {
    forall f {:trigger LookOk(s, f)} :: LookOk(s, f)
  }

  ghost predicate Inv(s: State) {
    Good(s, Tallied(s.pcs)) && Looks(s)
  }

  // --- the tally ---

  lemma Moves(pcs: map<Fid, Pc>, f: Fid, p: Pc)
    requires f in pcs
    ensures Tallied(pcs[f := p]) == Moved(Tallied(pcs), pcs[f], p)
  {
    CountUpdate(pcs, f, p, Posted);
    CountUpdate(pcs, f, p, Granted);
    CountUpdate(pcs, f, p, InFlight);
    CountUpdate(pcs, f, p, Added);
  }

  // What the tally of a state says about a fiber at `p`.
  predicate Plausible(s: State, t: Tally, p: Pc) {
    && 0 <= t.posted <= |s.pcs| && (!Posted(p) ==> t.posted < |s.pcs|)
    && 0 <= t.granted && (Granted(p) ==> 0 < t.granted)
    && 0 <= t.added <= t.inFlight
  }

  lemma TallyPlausible(s: State, f: Fid)
    requires f in s.pcs
    ensures Plausible(s, Tallied(s.pcs), s.pcs[f])
  {
    CountAll(s.pcs, Posted);
    CountAll(s.pcs, Granted);
    CountMonotone(s.pcs, Added, InFlight);
  }

  // The fiber that a wake-up hands its token to.
  function Receiver(s: State, a: Step): Option<Fid> {
    match a
    case Read(_) => if s.writer.line == [] then None else Some(s.writer.line[0])
    case TryRead(_) => if s.writer.line == [] then None else Some(s.writer.line[0])
    case Signal(_) => if s.reader.line == [] then None else Some(s.reader.line[0])
    case _ => None
  }

  function SideOf(a: Step): Side {
    if a.Signal? then Reader else Writer
  }

  // A step moves its fiber, and the receiver if there is one.
  function NextTally(s: State, a: Step, u: State, t: Tally): Tally
    requires a.f in s.pcs && a.f in u.pcs
  {
    var t1 := Moved(t, s.pcs[a.f], u.pcs[a.f]);
    match Receiver(s, a)
    case Some(g) => if g in s.pcs then Moved(t1, s.pcs[g], Woken(s.pcs[g], SideOf(a))) else t1
    case None => t1
  }

  predicate StepMoves(s: State, a: Step, u: State)
    requires a.f in s.pcs && a.f in u.pcs
  {
    match Receiver(s, a)
    case Some(g) => g in s.pcs && g != a.f && u.pcs == s.pcs[a.f := u.pcs[a.f]][g := Woken(s.pcs[g], SideOf(a))]
    case None => u.pcs == s.pcs[a.f := u.pcs[a.f]]
  }

  lemma StepTallies(s: State, a: Step, u: State)
    requires a.f in s.pcs && a.f in u.pcs && StepMoves(s, a, u)
    ensures Tallied(u.pcs) == NextTally(s, a, u, Tallied(s.pcs))
  {
    Moves(s.pcs, a.f, u.pcs[a.f]);
    match Receiver(s, a)
    case Some(g) => Moves(s.pcs[a.f := u.pcs[a.f]], g, Woken(s.pcs[g], SideOf(a)));
    case None =>
  }

  // --- the lines ---

  lemma SameLines(s: State, u: State, f: Fid)
    requires Lines(s) && f in s.pcs && f in u.pcs && u.pcs == s.pcs[f := u.pcs[f]]
    requires u.reader.line == s.reader.line && u.writer.line == s.writer.line
    requires OnReader(u.pcs[f]) == OnReader(s.pcs[f]) && OnWriter(u.pcs[f]) == OnWriter(s.pcs[f])
    ensures Lines(u) && |u.pcs| == |s.pcs|
  {
    assert u.pcs.Keys == s.pcs.Keys;
    forall g: nat ensures ReaderLine(u, g) { assert ReaderLine(s, g); }
    forall g: nat ensures WriterLine(u, g) { assert WriterLine(s, g); }
  }

  lemma PushReader(s: State, u: State, f: Fid)
    requires Lines(s) && f in s.pcs && f in u.pcs && u.pcs == s.pcs[f := u.pcs[f]]
    requires u.reader.line == s.reader.line + [f] && u.writer.line == s.writer.line
    requires OnReader(u.pcs[f]) && !OnReader(s.pcs[f]) && !OnWriter(s.pcs[f])
    ensures Lines(u) && |u.pcs| == |s.pcs|
  {
    assert u.pcs.Keys == s.pcs.Keys;
    assert ReaderLine(s, f);
    DistinctConcat(s.reader.line, [f]);
    forall g: nat ensures ReaderLine(u, g) { assert ReaderLine(s, g); }
    forall g: nat ensures WriterLine(u, g) { assert WriterLine(s, g); }
  }

  lemma PushWriter(s: State, u: State, f: Fid)
    requires Lines(s) && f in s.pcs && f in u.pcs && u.pcs == s.pcs[f := u.pcs[f]]
    requires u.writer.line == s.writer.line + [f] && u.reader.line == s.reader.line
    requires OnWriter(u.pcs[f]) && !OnReader(s.pcs[f]) && !OnWriter(s.pcs[f])
    ensures Lines(u) && |u.pcs| == |s.pcs|
  {
    assert u.pcs.Keys == s.pcs.Keys;
    assert WriterLine(s, f);
    DistinctConcat(s.writer.line, [f]);
    forall g: nat ensures ReaderLine(u, g) { assert ReaderLine(s, g); }
    forall g: nat ensures WriterLine(u, g) { assert WriterLine(s, g); }
  }

  lemma PopReader(s: State, u: State)
    requires Lines(s) && s.reader.line != []
    requires u.reader.line == s.reader.line[1..] && u.writer.line == s.writer.line
    requires var g := s.reader.line[0]; g in s.pcs && u.pcs == s.pcs[g := Woken(s.pcs[g], Reader)]
    ensures Lines(u) && |u.pcs| == |s.pcs|
  {
    var f := s.reader.line[0];
    assert u.pcs.Keys == s.pcs.Keys;
    assert s.reader.line == [f] + u.reader.line && ReaderLine(s, f);
    forall g: nat ensures ReaderLine(u, g) { assert ReaderLine(s, g); }
    forall g: nat ensures WriterLine(u, g) { assert WriterLine(s, g); }
  }

  lemma PopWriter(s: State, u: State)
    requires Lines(s) && s.writer.line != []
    requires u.writer.line == s.writer.line[1..] && u.reader.line == s.reader.line
    requires var g := s.writer.line[0]; g in s.pcs && u.pcs == s.pcs[g := Woken(s.pcs[g], Writer)]
    ensures Lines(u) && |u.pcs| == |s.pcs|
  {
    var f := s.writer.line[0];
    assert u.pcs.Keys == s.pcs.Keys;
    assert s.writer.line == [f] + u.writer.line && WriterLine(s, f);
    forall g: nat ensures ReaderLine(u, g) { assert ReaderLine(s, g); }
    forall g: nat ensures WriterLine(u, g) { assert WriterLine(s, g); }
  }

  // --- the steps ---

  // One fiber has moved, and what was good is good.
  ghost predicate Keeps(s: State, t: Tally, f: Fid, u: State) {
    f in s.pcs && f in u.pcs && u.pcs == s.pcs[f := u.pcs[f]] && Good(u, Moved(t, s.pcs[f], u.pcs[f]))
  }

  lemma TakeReaderKeeps(s: State, t: Tally, f: Fid, refused: Pc)
    requires Good(s, t)
    requires (s.At(f, ReadPosted) && refused == ReadParking) || (s.At(f, TryPosted) && refused == TryMissed)
    ensures Keeps(s, t, f, TakeReader(s, f, ReadGranted, refused))
  {
    SameLines(s, TakeReader(s, f, ReadGranted, refused), f);
  }

  lemma TryBackKeeps(s: State, t: Tally, f: Fid)
    requires Good(s, t) && s.At(f, TryMissed)
    ensures Keeps(s, t, f, TakeWriter(s, f, Idle, TryYielded))
  {
    SameLines(s, TakeWriter(s, f, Idle, TryYielded), f);
  }

  lemma BeginWriteKeeps(s: State, t: Tally, f: Fid, v: Value, refused: Pc)
    requires Good(s, t) && s.At(f, Idle) && (refused == WriteParking(v) || refused == Idle)
    ensures Keeps(s, t, f, TakeWriter(s, f, WriteGranted(v), refused))
  {
    SameLines(s, TakeWriter(s, f, WriteGranted(v), refused), f);
  }

  lemma ParkReaderKeeps(s: State, t: Tally, f: Fid)
    requires Good(s, t) && s.At(f, ReadParking)
    ensures Keeps(s, t, f, ParkReader(s, f))
  {
    var u := ParkReader(s, f);
    if s.reader.wakeup > 0 { SameLines(s, u, f); } else { PushReader(s, u, f); }
  }

  lemma ParkWriterKeeps(s: State, t: Tally, f: Fid, v: Value)
    requires Good(s, t) && s.At(f, WriteParking(v))
    ensures Keeps(s, t, f, ParkWriter(s, f, v))
  {
    var u := ParkWriter(s, f, v);
    if s.writer.wakeup > 0 { SameLines(s, u, f); } else { PushWriter(s, u, f); }
  }

  lemma AddItemKeeps(s: State, t: Tally, f: Fid, v: Value)
    requires Good(s, t) && s.At(f, WriteGranted(v))
    ensures Keeps(s, t, f, AddItem(s, f, v))
  {
    SameLines(s, AddItem(s, f, v), f);
  }

  lemma PollItemKeeps(s: State, t: Tally, f: Fid)
    requires Good(s, t) && s.At(f, ReadGranted) && Plausible(s, t, ReadGranted)
    ensures Keeps(s, t, f, PollItem(s, f)) && s.data != []
  {
    SameLines(s, PollItem(s, f), f);
  }

  lemma StrayToReaderKeeps(s: State, t: Tally, f: Fid, again: bool)
    requires Good(s, t) && s.At(f, if again then TryYielded else Idle)
    ensures Keeps(s, t, f, StrayToReader(s, f, again))
  {
    var u := StrayToReader(s, f, again);
    if s.reader.wakeup > 0 { SameLines(s, u, f); } else { PushReader(s, u, f); }
  }

  lemma StrayToWriterKeeps(s: State, t: Tally, f: Fid, again: bool)
    requires Good(s, t) && s.At(f, if again then TryYielded else Idle)
    ensures Keeps(s, t, f, StrayToWriter(s, f, again))
  {
    var u := StrayToWriter(s, f, again);
    if s.writer.wakeup > 0 { SameLines(s, u, f); } else { PushWriter(s, u, f); }
  }

  lemma YieldKeeps(s: State, t: Tally, f: Fid, again: bool)
    requires Good(s, t) && s.At(f, if again then TryYielded else Idle)
    ensures Keeps(s, t, f, DoYield(s, f, again))
  {
    if f !in s.marks || s.marks[f] == Other {
      SameLines(s, DoYield(s, f, again), f);
    } else if s.marks[f] == Reader {
      StrayToReaderKeeps(s, t, f, again);
    } else {
      StrayToWriterKeeps(s, t, f, again);
    }
  }

  lemma ElsewhereKeeps(s: State, t: Tally, f: Fid, late: bool, marked: bool)
    requires Good(s, t) && s.At(f, Idle)
    ensures Keeps(s, t, f, DoElsewhere(s, f, late, marked))
  {
    assert s.pcs == s.pcs[f := s.pcs[f]];
    SameLines(s, DoElsewhere(s, f, late, marked), f);
  }

  lemma OtherKeeps(s: State, t: Tally, a: Step)
    requires Good(s, t) && Enabled(s, a) && (a.OtherGrants? || a.OtherPops?)
    ensures Keeps(s, t, a.f, Apply(s, a))
  {
    SameLines(s, Apply(s, a), a.f);
  }

  lemma LookKeeps(s: State, t: Tally, f: Fid)
    requires Good(s, t) && f in s.pcs
    ensures Keeps(s, t, f, DoLook(s, f))
  {
    assert s.pcs == s.pcs[f := s.pcs[f]];
    SameLines(s, DoLook(s, f), f);
  }

  // A fiber resumed in time has what it goes on with.
  lemma ChangeKeeps(s: State, t: Tally, f: Fid)
    requires Good(s, t) && f in s.pcs && Handed(s.pcs[f])
    ensures Keeps(s, t, f, DoChange(s, f))
  {
    SameLines(s, DoChange(s, f), f);
  }

  lemma WriterReceives(s: State)
    requires Lines(s) && s.writer.line != []
    ensures var g := s.writer.line[0]; g in s.pcs && OnWriter(s.pcs[g])
  {
    assert WriterLine(s, s.writer.line[0]);
  }

  lemma ReaderReceives(s: State)
    requires Lines(s) && s.reader.line != []
    ensures var g := s.reader.line[0]; g in s.pcs && OnReader(s.pcs[g])
  {
    assert ReaderLine(s, s.reader.line[0]);
  }

  // None of the channel's wake-ups meets the limit.
  lemma WakeUpAccepted(s: State, t: Tally, p: Pc)
    requires Fits(s, t) && Plausible(s, t, p) && !Posted(p)
    ensures s.writer.wakeup < s.writer.limit && s.reader.wakeup < s.reader.limit
  {
  }

  lemma StoreWriterFits(s: State, t: Tally, f: Fid, p: Pc)
    requires Fits(s, t) && s.At(f, Idle) && (p == ReadPosted || p == TryPosted) && s.writer.wakeup < s.writer.limit
    requires s.writer.line == []
    ensures |WakeWriter(s, f, p).pcs| == |s.pcs| ==> Fits(WakeWriter(s, f, p), Moved(t, Idle, p))
  {
  }

  lemma HandWriterFits(s: State, t: Tally, f: Fid, p: Pc)
    requires Fits(s, t) && s.At(f, Idle) && (p == ReadPosted || p == TryPosted) && s.writer.wakeup < s.writer.limit
    requires s.writer.line != [] && s.writer.line[0] in s.pcs && OnWriter(s.pcs[s.writer.line[0]])
    ensures var u, p0 := WakeWriter(s, f, p), s.pcs[s.writer.line[0]];
            |u.pcs| == |s.pcs| ==> Fits(u, Moved(Moved(t, Idle, p), p0, Woken(p0, Writer)))
  {
  }

  lemma StoreReaderFits(s: State, t: Tally, f: Fid)
    requires Fits(s, t) && s.At(f, WriteAdded) && s.reader.wakeup < s.reader.limit
    requires s.reader.line == []
    ensures |WakeReader(s, f).pcs| == |s.pcs| ==> Fits(WakeReader(s, f), Moved(t, WriteAdded, Idle))
  {
  }

  lemma HandReaderFits(s: State, t: Tally, f: Fid)
    requires Fits(s, t) && s.At(f, WriteAdded) && s.reader.wakeup < s.reader.limit
    requires s.reader.line != [] && s.reader.line[0] in s.pcs && OnReader(s.pcs[s.reader.line[0]])
    ensures var u, p0 := WakeReader(s, f), s.pcs[s.reader.line[0]];
            |u.pcs| == |s.pcs| ==> Fits(u, Moved(Moved(t, WriteAdded, Idle), p0, Woken(p0, Reader)))
  {
  }

  lemma WakeWriterLines(s: State, f: Fid, p: Pc)
    requires Lines(s) && s.At(f, Idle) && (p == ReadPosted || p == TryPosted)
    ensures Lines(WakeWriter(s, f, p)) && |WakeWriter(s, f, p).pcs| == |s.pcs|
  {
    var u, v := WakeWriter(s, f, p), Goto(s, f, p);
    SameLines(s, v, f);
    if s.writer.line == [] {
      SameLines(s, u, f);
    } else {
      WriterReceives(s);
      PopWriter(v, u);
    }
  }

  lemma WakeReaderLines(s: State, f: Fid)
    requires Lines(s) && s.At(f, WriteAdded)
    ensures Lines(WakeReader(s, f)) && |WakeReader(s, f).pcs| == |s.pcs|
  {
    var u, v := WakeReader(s, f), Goto(s, f, Idle);
    SameLines(s, v, f);
    if s.reader.line == [] {
      SameLines(s, u, f);
    } else {
      ReaderReceives(s);
      PopReader(v, u);
    }
  }

  lemma WakeWriterKeeps(s: State, t: Tally, a: Step, p: Pc)
    requires Good(s, t) && Enabled(s, a) && Plausible(s, t, Idle)
    requires (a.Read? && p == ReadPosted) || (a.TryRead? && p == TryPosted)
    ensures var u := WakeWriter(s, a.f, p);
            a.f in u.pcs && StepMoves(s, a, u) && Good(u, NextTally(s, a, u, t))
  {
    WakeUpAccepted(s, t, Idle);
    WakeWriterLines(s, a.f, p);
    if s.writer.line == [] {
      StoreWriterFits(s, t, a.f, p);
    } else {
      WriterReceives(s);
      HandWriterFits(s, t, a.f, p);
    }
  }

  lemma WakeReaderKeeps(s: State, t: Tally, a: Step)
    requires Good(s, t) && Enabled(s, a) && a.Signal? && Plausible(s, t, WriteAdded)
    ensures var u := WakeReader(s, a.f);
            a.f in u.pcs && StepMoves(s, a, u) && Good(u, NextTally(s, a, u, t))
  {
    WakeUpAccepted(s, t, WriteAdded);
    WakeReaderLines(s, a.f);
    if s.reader.line == [] {
      StoreReaderFits(s, t, a.f);
    } else {
      ReaderReceives(s);
      HandReaderFits(s, t, a.f);
    }
  }

  lemma StepGood(s: State, t: Tally, a: Step)
    requires Good(s, t) && Enabled(s, a) && a.f in s.pcs && Plausible(s, t, s.pcs[a.f])
    requires a.Change? ==> Handed(s.pcs[a.f])
    ensures var u := Apply(s, a);
            a.f in u.pcs && StepMoves(s, a, u) && Good(u, NextTally(s, a, u, t))
  {
    match a
    case Read(f) => WakeWriterKeeps(s, t, a, ReadPosted);
    case ReaderWait(f) => TakeReaderKeeps(s, t, f, ReadParking);
    case ReaderSwapOut(f) => ParkReaderKeeps(s, t, f);
    case Poll(f) => PollItemKeeps(s, t, f);
    case TryRead(f) => WakeWriterKeeps(s, t, a, TryPosted);
    case TryTake(f) => TakeReaderKeeps(s, t, f, TryMissed);
    case TryBack(f) => TryBackKeeps(s, t, f);
    case TryAgain(f) => YieldKeeps(s, t, f, true);
    case Write(f, v) => BeginWriteKeeps(s, t, f, v, WriteParking(v));
    case WriterSwapOut(f) => ParkWriterKeeps(s, t, f, s.pcs[f].v);
    case Add(f) => AddItemKeeps(s, t, f, s.pcs[f].v);
    case Signal(f) => WakeReaderKeeps(s, t, a);
    case TryWrite(f, v) => BeginWriteKeeps(s, t, f, v, Idle);
    case Yield(f) => YieldKeeps(s, t, f, false);
    case Elsewhere(f, late, marked) => ElsewhereKeeps(s, t, f, late, marked);
    case OtherGrants(_) => OtherKeeps(s, t, a);
    case OtherPops(_) => OtherKeeps(s, t, a);
    case Look(f) => LookKeeps(s, t, f);
    case Change(f) => ChangeKeeps(s, t, f);
  }

  // One fiber moves, from no hand-over to none.
  ghost predicate Quiet(s: State, u: State, f: Fid) {
    && f in s.pcs && f in u.pcs && u.pcs == s.pcs[f := u.pcs[f]] && u.seen == s.seen && u.looks == s.looks
    && u.marks.Keys <= s.marks.Keys + {f} && !Handed(s.pcs[f]) && !Handed(u.pcs[f])
    && (Blocks(u.pcs[f]) ==> f !in u.marks)
  }

  // And another is handed a token.
  ghost predicate Pops(s: State, u: State, f: Fid, g: Fid) {
    && f in s.pcs && g in s.pcs && f in u.pcs && g in u.pcs && f != g
    && u.pcs == s.pcs[f := u.pcs[f]][g := u.pcs[g]]
    && u.seen == s.seen && u.looks == s.looks + multiset{g} && u.marks == s.marks
    && !Handed(s.pcs[f]) && !Blocks(u.pcs[f]) && Blocks(s.pcs[g]) && !Handed(s.pcs[g]) && Handed(u.pcs[g])
  }

  predicate Signals(a: Step) {
    a.Read? || a.TryRead? || a.Signal?
  }

  lemma ReaderPops(s: State, f: Fid)
    requires Lines(s) && s.At(f, WriteAdded)
    ensures var line := s.reader.line;
            LookOk(s, f) ==> if line == [] then Quiet(s, WakeReader(s, f), f) else Pops(s, WakeReader(s, f), f, line[0])
  {
    if s.reader.line != [] { ReaderReceives(s); }
  }

  lemma WriterPops(s: State, f: Fid, p: Pc)
    requires Lines(s) && s.At(f, Idle) && (p == ReadPosted || p == TryPosted)
    ensures var line := s.writer.line;
            LookOk(s, f) ==> if line == [] then Quiet(s, WakeWriter(s, f, p), f) else Pops(s, WakeWriter(s, f, p), f, line[0])
  {
    if s.writer.line != [] { WriterReceives(s); }
  }

  lemma SignalPops(s: State, a: Step)
    requires Lines(s) && Enabled(s, a) && Signals(a)
    ensures var line := if a.Signal? then s.reader.line else s.writer.line;
            LookOk(s, a.f) ==> if line == [] then Quiet(s, Apply(s, a), a.f) else Pops(s, Apply(s, a), a.f, line[0])
  {
    if a.Signal? { ReaderPops(s, a.f); } else { WriterPops(s, a.f, if a.Read? then ReadPosted else TryPosted); }
  }

  lemma TakesAreQuiet(s: State, a: Step)
    requires LookOk(s, a.f) && Enabled(s, a) && (a.ReaderWait? || a.TryTake? || a.TryBack? || a.Write? || a.TryWrite?)
    ensures Quiet(s, Apply(s, a), a.f)
  {
  }

  lemma SwapOutsAreQuiet(s: State, a: Step)
    requires LookOk(s, a.f) && Enabled(s, a) && (a.ReaderSwapOut? || a.WriterSwapOut?)
    ensures Quiet(s, Apply(s, a), a.f)
  {
  }

  lemma YieldsAreQuiet(s: State, a: Step)
    requires LookOk(s, a.f) && Enabled(s, a) && (a.Yield? || a.TryAgain?)
    ensures Quiet(s, Apply(s, a), a.f)
  {
  }

  lemma ItemsAreQuiet(s: State, a: Step)
    requires LookOk(s, a.f) && Enabled(s, a) && (a.Poll? || a.Add? || (a.Elsewhere? && !a.late) || a.OtherGrants?)
    ensures Quiet(s, Apply(s, a), a.f)
  {
    assert s.pcs == s.pcs[a.f := s.pcs[a.f]];
  }

  // Steps that start, end or announce a resumption.
  predicate Resumes(a: Step) {
    Signals(a) || a.Look? || a.Change? || a.OtherPops? || (a.Elsewhere? && a.late)
  }

  lemma OthersAreQuiet(s: State, a: Step)
    requires LookOk(s, a.f) && Enabled(s, a) && !Resumes(a)
    ensures Quiet(s, Apply(s, a), a.f)
  {
    if a.Poll? || a.Add? || a.Elsewhere? || a.OtherGrants? { ItemsAreQuiet(s, a); }
    else if a.ReaderSwapOut? || a.WriterSwapOut? { SwapOutsAreQuiet(s, a); }
    else if a.Yield? || a.TryAgain? { YieldsAreQuiet(s, a); }
    else { TakesAreQuiet(s, a); }
  }

  lemma QuietLooks(s: State, u: State, f: Fid)
    requires Looks(s) && Quiet(s, u, f)
    ensures Looks(u)
  {
    forall g: nat ensures LookOk(u, g) { assert LookOk(s, g); }
  }

  lemma PopLooks(s: State, u: State, f: Fid, g: Fid)
    requires Looks(s) && Pops(s, u, f, g)
    ensures Looks(u)
  {
    forall h: nat ensures LookOk(u, h) { assert LookOk(s, h); }
  }

  lemma SignalLooks(s: State, a: Step)
    requires Lines(s) && Looks(s) && Enabled(s, a) && Signals(a)
    ensures Looks(Apply(s, a))
  {
    var line := if a.Signal? then s.reader.line else s.writer.line;
    assert LookOk(s, a.f);
    SignalPops(s, a);
    if line == [] { QuietLooks(s, Apply(s, a), a.f); } else { PopLooks(s, Apply(s, a), a.f, line[0]); }
  }

  lemma LateLooks(s: State, a: Step)
    requires Looks(s) && Enabled(s, a) && ((a.Elsewhere? && a.late) || a.OtherPops?)
    ensures Looks(Apply(s, a))
  {
    forall g: nat ensures LookOk(Apply(s, a), g) { assert LookOk(s, g); }
  }

  // A look keeps order if and only if it comes in time.
  lemma LookIsTimely(s: State, f: Fid)
    requires Looks(s) && f in s.looks && f in s.pcs
    ensures Looks(DoLook(s, f)) <==> Timely(s, Look(f))
  {
    var u := DoLook(s, f);
    assert LookOk(s, f);
    if Timely(s, Look(f)) {
      forall g: nat ensures LookOk(u, g) { assert LookOk(s, g); }
    } else {
      assert !LookOk(u, f);
    }
  }

  lemma ChangeLooks(s: State, f: Fid)
    requires Looks(s) && f in s.seen && f in s.pcs
    ensures Looks(DoChange(s, f))
  {
    var u := DoChange(s, f);
    assert LookOk(s, f);
    forall g: nat ensures LookOk(u, g) { assert LookOk(s, g); }
  }

  lemma StepLooks(s: State, a: Step)
    requires Lines(s) && Looks(s) && Enabled(s, a)
    ensures Looks(Apply(s, a)) <==> Timely(s, a)
  {
    assert LookOk(s, a.f);
    if Signals(a) { SignalLooks(s, a); }
    else if a.Look? { LookIsTimely(s, a.f); }
    else if a.Change? { ChangeLooks(s, a.f); }
    else if a.OtherPops? || (a.Elsewhere? && a.late) { LateLooks(s, a); }
    else {
      OthersAreQuiet(s, a);
      QuietLooks(s, Apply(s, a), a.f);
    }
  }

  // Every step keeps the invariant, except a look that does not come in time.
  lemma StepKeepsIff(s: State, a: Step)
    requires Inv(s) && Enabled(s, a)
    ensures Inv(Apply(s, a)) <==> Timely(s, a)
  {
    assert LookOk(s, a.f);
    TallyPlausible(s, a.f);
    StepGood(s, Tallied(s.pcs), a);
    StepTallies(s, a, Apply(s, a));
    StepLooks(s, a);
  }

  lemma InitInv(s: State)
    requires Init(s)
    ensures Inv(s)
  {
    CountAll(s.pcs, Posted);
    CountAll(s.pcs, Granted);
    CountAll(s.pcs, InFlight);
    CountAll(s.pcs, Added);
    forall f: nat ensures ReaderLine(s, f) {}
    forall f: nat ensures WriterLine(s, f) {}
    forall f: nat ensures LookOk(s, f) {}
  }

  ghost predicate StepsTo(s: State, a: Step, s': State) {
    Enabled(s, a) && s' == Apply(s, a)
  }

  // A run takes one enabled step after another.
  ghost predicate Run(ss: seq<State>, steps: seq<Step>) {
    && |ss| == |steps| + 1 && Init(ss[0])
    && forall i {:trigger steps[i]} :: 0 <= i < |steps| ==> StepsTo(ss[i], steps[i], ss[i + 1])
  }

  ghost predicate TimelyRun(ss: seq<State>, steps: seq<Step>) {
    Run(ss, steps) && forall i {:trigger steps[i]} :: 0 <= i < |steps| ==> Timely(ss[i], steps[i])
  }

  // The states that end some run, and those that end one in which every look
  // came in time.
  ghost predicate Reachable(s: State) {
    exists ss, steps {:trigger Run(ss, steps)} :: Run(ss, steps) && ss[|steps|] == s
  }

  ghost predicate TimelyReachable(s: State) {
    exists ss, steps {:trigger TimelyRun(ss, steps)} :: TimelyRun(ss, steps) && ss[|steps|] == s
  }

  lemma NextKeepsIff(ss: seq<State>, steps: seq<Step>, m: nat)
    requires Run(ss, steps) && m < |steps| && Inv(ss[m])
    ensures Inv(ss[m + 1]) <==> Timely(ss[m], steps[m])
  {
    assert StepsTo(ss[m], steps[m], ss[m + 1]);
    StepKeepsIff(ss[m], steps[m]);
  }

  lemma NextKeeps(ss: seq<State>, steps: seq<Step>, m: nat)
    requires TimelyRun(ss, steps) && m < |steps| && Inv(ss[m])
    ensures Inv(ss[m + 1])
  {
    NextKeepsIff(ss, steps, m);
  }

  lemma {:induction false} RunKeeps(ss: seq<State>, steps: seq<Step>, n: nat)
    requires TimelyRun(ss, steps) && n <= |steps|
    ensures Inv(ss[n])
  {
    if n == 0 {
      InitInv(ss[0]);
    } else {
      RunKeeps(ss, steps, n - 1);
      NextKeeps(ss, steps, n - 1);
    }
  }

  lemma TimelyInv(s: State)
    requires TimelyReachable(s)
    ensures Inv(s)
  {
    var ss, steps :| TimelyRun(ss, steps) && ss[|steps|] == s;
    RunKeeps(ss, steps, |steps|);
  }

  // --- what was written, by the steps of a run alone ---

  // The value of the fiber's last call of write or tryWrite among the first `n`
  // steps.
  function Called(steps: seq<Step>, n: nat, f: Fid): Value
    requires n <= |steps|
  {
    if n == 0 then 0 else
      var a := steps[n - 1];
      if (a.Write? || a.TryWrite?) && a.f == f then a.v else Called(steps, n - 1, f)
  }

  // The values written by the first `n` steps, in the order in which their
  // fibers added them.
  function Written(steps: seq<Step>, n: nat): seq<Value>
    requires n <= |steps|
  {
    if n == 0 then [] else
      var a := steps[n - 1];
      if a.Add? then Written(steps, n - 1) + [Called(steps, n - 1, a.f)] else Written(steps, n - 1)
  }

  predicate Holds(p: Pc) {
    p.WriteParking? || p.WriteParked? || p.WriteHanded? || p.WriteGranted?
  }

  // A fiber inside write has the value it was called with.
  ghost predicate ValueOk(s: State, f: Fid, v: Value) {
    f in s.pcs && Holds(s.pcs[f]) ==> s.pcs[f].v == v
  }

  // A step leaves the value of a fiber inside write alone, and gives none to any
  // other than the one that calls write.
  predicate KeepsValue(s: State, u: State, a: Step, f: Fid) {
    f in u.pcs && Holds(u.pcs[f]) ==>
      if (a.Write? || a.TryWrite?) && a.f == f then u.pcs[f].v == a.v
      else f in s.pcs && Holds(s.pcs[f]) && u.pcs[f].v == s.pcs[f].v
  }

  lemma StepKeepsValue(s: State, a: Step, f: Fid)
    requires Enabled(s, a)
    ensures KeepsValue(s, Apply(s, a), a, f)
  {
    if a.Signal? { ReaderKeepsValue(s, a.f, f); }
    else if a.Read? { WriterKeepsValue(s, a.f, ReadPosted, f); }
    else if a.TryRead? { WriterKeepsValue(s, a.f, TryPosted, f); }
    else if a.f == f { OwnValue(s, a); }
    else { OthersKeepValue(s, a, f); }
  }

  lemma OwnValue(s: State, a: Step)
    requires Enabled(s, a) && !Signals(a)
    ensures KeepsValue(s, Apply(s, a), a, a.f)
  {
    if a.Write? || a.TryWrite? { CallsWithValue(s, a); }
    else if a.Change? || a.Look? || a.WriterSwapOut? { WaitsWithValue(s, a); }
  }

  lemma CallsWithValue(s: State, a: Step)
    requires Enabled(s, a) && (a.Write? || a.TryWrite?)
    ensures KeepsValue(s, Apply(s, a), a, a.f)
  {
  }

  lemma WaitsWithValue(s: State, a: Step)
    requires Enabled(s, a) && (a.Change? || a.Look? || a.WriterSwapOut?)
    ensures KeepsValue(s, Apply(s, a), a, a.f)
  {
  }

  lemma OthersKeepValue(s: State, a: Step, f: Fid)
    requires Enabled(s, a) && !Signals(a) && a.f != f
    ensures KeepsValue(s, Apply(s, a), a, f)
  {
  }

  predicate SameValue(s: State, u: State, f: Fid) {
    f in u.pcs && Holds(u.pcs[f]) ==> f in s.pcs && Holds(s.pcs[f]) && u.pcs[f].v == s.pcs[f].v
  }

  lemma ReaderKeepsValue(s: State, g: Fid, f: Fid)
    requires s.At(g, WriteAdded)
    ensures SameValue(s, WakeReader(s, g), f)
  {
  }

  lemma WriterKeepsValue(s: State, g: Fid, p: Pc, f: Fid)
    requires s.At(g, Idle) && (p == ReadPosted || p == TryPosted)
    ensures SameValue(s, WakeWriter(s, g, p), f)
  {
  }

  // A step changes the data queue only by adding the fiber's value behind all
  // others, or by handing out the first.
  lemma StepDelivers(s: State, a: Step)
    requires Enabled(s, a)
    ensures var u := Apply(s, a);
            && u.delivered == (if a.Poll? && s.data != [] then s.delivered + [s.data[0]] else s.delivered)
            && u.delivered + u.data == s.delivered + s.data + (if a.Add? then [s.pcs[a.f].v] else [])
  {
    if a.Poll? && s.data != [] {
      assert s.data == [s.data[0]] + s.data[1..];
    }
  }

  lemma NextKeepsValue(ss: seq<State>, steps: seq<Step>, m: nat, f: Fid)
    requires Run(ss, steps) && m < |steps|
    ensures KeepsValue(ss[m], ss[m + 1], steps[m], f)
  {
    assert StepsTo(ss[m], steps[m], ss[m + 1]);
    StepKeepsValue(ss[m], steps[m], f);
  }

  lemma CalledNext(s: State, u: State, steps: seq<Step>, n: nat, f: Fid)
    requires 0 < n <= |steps| && KeepsValue(s, u, steps[n - 1], f) && ValueOk(s, f, Called(steps, n - 1, f))
    ensures ValueOk(u, f, Called(steps, n, f))
  {
  }

  ghost predicate ValueStays(ss: seq<State>, steps: seq<Step>, m: nat, f: Fid) {
    m < |steps| < |ss| ==> KeepsValue(ss[m], ss[m + 1], steps[m], f)
  }

  lemma {:induction false} ValuesFollow(ss: seq<State>, steps: seq<Step>, n: nat, f: Fid)
    requires n <= |steps| < |ss| && ValueOk(ss[0], f, 0)
    requires forall m: nat {:trigger ValueStays(ss, steps, m, f)} :: ValueStays(ss, steps, m, f)
    ensures ValueOk(ss[n], f, Called(steps, n, f))
  {
    if 0 < n {
      ValuesFollow(ss, steps, n - 1, f);
      assert ValueStays(ss, steps, n - 1, f);
      CalledNext(ss[n - 1], ss[n], steps, n, f);
    }
  }

  lemma RunKeepsValues(ss: seq<State>, steps: seq<Step>, n: nat, f: Fid)
    requires Run(ss, steps) && n <= |steps|
    ensures ValueOk(ss[n], f, Called(steps, n, f))
  {
    InitValue(ss[0], f);
    forall m: nat ensures ValueStays(ss, steps, m, f) {
      if m < |steps| { NextKeepsValue(ss, steps, m, f); }
    }
    ValuesFollow(ss, steps, n, f);
  }

  lemma InitValue(s: State, f: Fid)
    requires Init(s)
    ensures forall v :: ValueOk(s, f, v)
  {
  }

  // What one step of a run does to the values given out and queued.
  lemma NextDelivers(ss: seq<State>, steps: seq<Step>, m: nat)
    requires Run(ss, steps) && m < |steps|
    ensures ss[m + 1].delivered + ss[m + 1].data
         == ss[m].delivered + ss[m].data + (if steps[m].Add? then [Called(steps, m, steps[m].f)] else [])
  {
    assert StepsTo(ss[m], steps[m], ss[m + 1]);
    RunKeepsValues(ss, steps, m, steps[m].f);
    StepDelivers(ss[m], steps[m]);
  }

  lemma {:induction false} RunKeepsOrder(ss: seq<State>, steps: seq<Step>, n: nat)
    requires Run(ss, steps) && n <= |steps|
    ensures ss[n].delivered + ss[n].data == Written(steps, n)
  {
    if 0 < n {
      RunKeepsOrder(ss, steps, n - 1);
      NextDelivers(ss, steps, n - 1);
    }
  }

  // --- careful runs lose no token ---

  // No fiber was parked where it does not wait, and no token was taken for
  // nothing.
  ghost predicate Clean(s: State) {
    s.lost == 0 && forall f :: f in s.pcs ==> !Stray(s.pcs[f])
  }

  lemma CarelessSpoils(s: State, f: Fid, again: bool)
    requires Clean(s) && f in s.pcs && f in s.marks
    ensures !Clean(DoYield(s, f, again))
  {
    var u := DoYield(s, f, again);
    assert u.lost == 1 || Stray(u.pcs[f]);
  }

  lemma ReaderWakesClean(s: State, f: Fid)
    requires Lines(s) && Clean(s) && s.At(f, WriteAdded)
    ensures Clean(WakeReader(s, f))
  {
    if s.reader.line != [] { ReaderReceives(s); }
  }

  lemma WriterWakesClean(s: State, f: Fid, p: Pc)
    requires Lines(s) && Clean(s) && s.At(f, Idle) && (p == ReadPosted || p == TryPosted)
    ensures Clean(WakeWriter(s, f, p))
  {
    if s.writer.line != [] { WriterReceives(s); }
  }

  lemma CarefulKeepsClean(s: State, a: Step)
    requires Lines(s) && Clean(s) && Enabled(s, a) && Careful(s, a)
    ensures Clean(Apply(s, a))
  {
    if a.Signal? { ReaderWakesClean(s, a.f); }
    else if a.Read? { WriterWakesClean(s, a.f, ReadPosted); }
    else if a.TryRead? { WriterWakesClean(s, a.f, TryPosted); }
    else if a.ReaderSwapOut? || a.WriterSwapOut? || a.Yield? || a.TryAgain? { SwapsClean(s, a); }
    else if a.Look? || a.Change? || a.OtherPops? { ResumptionsClean(s, a); }
    else { OthersClean(s, a); }
  }

  lemma SwapsClean(s: State, a: Step)
    requires Clean(s) && Enabled(s, a) && Careful(s, a) && (a.ReaderSwapOut? || a.WriterSwapOut? || a.Yield? || a.TryAgain?)
    ensures Clean(Apply(s, a))
  {
  }

  lemma ResumptionsClean(s: State, a: Step)
    requires Clean(s) && Enabled(s, a) && (a.Look? || a.Change? || a.OtherPops?)
    ensures Clean(Apply(s, a))
  {
  }

  lemma OthersClean(s: State, a: Step)
    requires !a.Look? && !a.Change? && !a.OtherPops?
    requires Clean(s) && Enabled(s, a) && !Signals(a) && !a.ReaderSwapOut? && !a.WriterSwapOut? && !a.Yield? && !a.TryAgain?
    ensures Clean(Apply(s, a))
  {
  }

  // From there every step keeps the channel in order and clean if and only if it
  // is careful.
  lemma StepCleanIff(s: State, a: Step)
    requires Inv(s) && Clean(s) && Enabled(s, a)
    ensures Inv(Apply(s, a)) && Clean(Apply(s, a)) <==> Careful(s, a)
  {
    StepKeepsIff(s, a);
    if Careful(s, a) {
      CarefulKeepsClean(s, a);
    } else if Timely(s, a) {
      CarelessSpoils(s, a.f, a.TryAgain?);
    }
  }

  ghost predicate CarefulRun(ss: seq<State>, steps: seq<Step>) {
    Run(ss, steps) && forall i {:trigger steps[i]} :: 0 <= i < |steps| ==> Careful(ss[i], steps[i])
  }

  ghost predicate CarefullyReachable(s: State) {
    exists ss, steps {:trigger CarefulRun(ss, steps)} :: CarefulRun(ss, steps) && ss[|steps|] == s
  }

  lemma {:induction false} CarefulRunClean(ss: seq<State>, steps: seq<Step>, n: nat)
    requires CarefulRun(ss, steps) && n <= |steps|
    ensures Inv(ss[n]) && Clean(ss[n])
  {
    if n == 0 {
      InitInv(ss[0]);
    } else {
      CarefulRunClean(ss, steps, n - 1);
      assert StepsTo(ss[n - 1], steps[n - 1], ss[n]) && Careful(ss[n - 1], steps[n - 1]);
      StepCleanIff(ss[n - 1], steps[n - 1]);
    }
  }

  lemma CarefulClean(s: State)
    requires CarefullyReachable(s)
    ensures Inv(s) && Clean(s)
  {
    var ss, steps :| CarefulRun(ss, steps) && ss[|steps|] == s;
    CarefulRunClean(ss, steps, |steps|);
  }

  // A swap-out that parks its fiber, as all do when every wake-up is made by a
  // fiber on the same thread.
  predicate Parks(s: State, a: Step) {
    && (a.ReaderSwapOut? ==> s.reader.wakeup == 0)
    && (a.WriterSwapOut? ==> s.writer.wakeup == 0)
    && (a.Elsewhere? ==> !a.marked)
  }

  // No fiber is resumed late from a wait elsewhere.
  predicate Prompt(a: Step) {
    a.Elsewhere? ==> !a.late
  }

  // One thread is to resume each fiber handed a token, and none any other.
  ghost predicate OneLook(s: State, f: Fid) {
    s.looks[f] + s.seen[f] == ToInt(f in s.pcs && Handed(s.pcs[f]))
  }

  ghost predicate OneLooks(s: State) {
    forall f {:trigger OneLook(s, f)} :: OneLook(s, f)
  }

  lemma QuietKeepsOne(s: State, u: State, f: Fid)
    requires OneLooks(s) && Quiet(s, u, f)
    ensures OneLooks(u)
  {
    forall g: nat ensures OneLook(u, g) { assert OneLook(s, g); }
  }

  lemma SignalKeepsOne(s: State, a: Step)
    requires Lines(s) && LookOk(s, a.f) && OneLooks(s) && Enabled(s, a) && Signals(a)
    ensures OneLooks(Apply(s, a))
  {
    var line := if a.Signal? then s.reader.line else s.writer.line;
    SignalPops(s, a);
    if line == [] {
      QuietKeepsOne(s, Apply(s, a), a.f);
    } else {
      forall h: nat ensures OneLook(Apply(s, a), h) { assert OneLook(s, h); }
    }
  }

  lemma ResumptionKeepsOne(s: State, a: Step)
    requires Looks(s) && OneLooks(s) && Enabled(s, a) && (a.Look? || a.Change? || a.OtherPops?)
    ensures Timely(s, a) && OneLooks(Apply(s, a))
  {
    assert OneLook(s, a.f) && LookOk(s, a.f);
    forall h: nat ensures OneLook(Apply(s, a), h) { assert OneLook(s, h); }
  }

  lemma PromptStep(s: State, a: Step)
    requires Inv(s) && OneLooks(s) && Enabled(s, a) && Prompt(a)
    ensures Timely(s, a) && OneLooks(Apply(s, a))
  {
    assert LookOk(s, a.f);
    if Signals(a) { SignalKeepsOne(s, a); }
    else if a.Look? || a.Change? || a.OtherPops? { ResumptionKeepsOne(s, a); }
    else {
      OthersAreQuiet(s, a);
      QuietKeepsOne(s, Apply(s, a), a.f);
    }
  }

  ghost predicate PromptRun(ss: seq<State>, steps: seq<Step>) {
    Run(ss, steps) && forall i {:trigger steps[i]} :: 0 <= i < |steps| ==> Prompt(steps[i])
  }

  lemma {:induction false} PromptRunKeeps(ss: seq<State>, steps: seq<Step>, n: nat)
    requires PromptRun(ss, steps) && n <= |steps|
    ensures Inv(ss[n]) && OneLooks(ss[n])
  {
    if n == 0 {
      InitInv(ss[0]);
      forall f: nat ensures OneLook(ss[0], f) {}
    } else {
      PromptRunKeeps(ss, steps, n - 1);
      PromptNext(ss, steps, n - 1);
    }
  }

  lemma PromptNext(ss: seq<State>, steps: seq<Step>, m: nat)
    requires PromptRun(ss, steps) && m < |steps| && Inv(ss[m]) && OneLooks(ss[m])
    ensures Timely(ss[m], steps[m]) && Inv(ss[m + 1]) && OneLooks(ss[m + 1])
  {
    assert StepsTo(ss[m], steps[m], ss[m + 1]);
    PromptStep(ss[m], steps[m]);
    NextKeepsIff(ss, steps, m);
  }

  // Without late resumptions every look comes in time: pop, look and change of a
  // wake-up may lie as far apart as they like.
  lemma PromptRunIsTimely(ss: seq<State>, steps: seq<Step>)
    requires PromptRun(ss, steps)
    ensures TimelyRun(ss, steps)
  {
    forall i {:trigger steps[i]} | 0 <= i < |steps| ensures Timely(ss[i], steps[i]) {
      PromptRunKeeps(ss, steps, i);
      PromptNext(ss, steps, i);
    }
  }

  // Where every swap-out parks, nobody is left marked.
  lemma {:induction false} ParkingRunLeavesNoMark(ss: seq<State>, steps: seq<Step>, n: nat)
    requires Run(ss, steps) && n <= |steps|
    requires forall i {:trigger steps[i]} :: 0 <= i < |steps| ==> Parks(ss[i], steps[i])
    ensures ss[n].marks == map[]
  {
    if 0 < n {
      ParkingRunLeavesNoMark(ss, steps, n - 1);
      assert StepsTo(ss[n - 1], steps[n - 1], ss[n]) && Parks(ss[n - 1], steps[n - 1]);
    }
  }

  // So without late resumptions a run whose swap-outs all park is careful.
  lemma ParkingRunIsCareful(ss: seq<State>, steps: seq<Step>)
    requires PromptRun(ss, steps)
    requires forall i {:trigger steps[i]} :: 0 <= i < |steps| ==> Parks(ss[i], steps[i])
    ensures CarefulRun(ss, steps)
  {
    PromptRunIsTimely(ss, steps);
    forall i {:trigger steps[i]} | 0 <= i < |steps| ensures Careful(ss[i], steps[i]) {
      ParkingRunLeavesNoMark(ss, steps, i);
    }
  }

  // --- what undisturbed steps do together ---

  // A write that finds a token, with no reader parked: one token goes from the
  // writers' side to the readers', and the value is last in the queue.
  lemma WriteStores(s: State, f: Fid, v: Value)
    requires s.At(f, Idle) && s.writer.wakeup > 0 && s.reader.line == [] && s.reader.wakeup < s.reader.limit
    ensures var s1 := Apply(s, Write(f, v));
            && Enabled(s1, Add(f))
            && var s2 := Apply(s1, Add(f));
            && Enabled(s2, Signal(f))
            && Apply(s2, Signal(f)) == s.(writer := s.writer.(wakeup := s.writer.wakeup - 1),
                                          reader := s.reader.(wakeup := s.reader.wakeup + 1), data := s.data + [v])
  {
    assert s.pcs[f := WriteGranted(v)][f := WriteAdded][f := Idle] == s.pcs;
  }

  // A read that finds a token and an item, with no writer parked: the token goes
  // back, and the reader has the first value.
  lemma ReadTakes(s: State, f: Fid)
    requires s.At(f, Idle) && s.reader.wakeup > 0 && s.data != [] && s.writer.line == [] && s.writer.wakeup < s.writer.limit
    ensures var s1 := Apply(s, Read(f));
            && Enabled(s1, ReaderWait(f))
            && var s2 := Apply(s1, ReaderWait(f));
            && Enabled(s2, Poll(f))
            && Apply(s2, Poll(f)) == s.(writer := s.writer.(wakeup := s.writer.wakeup + 1),
                                        reader := s.reader.(wakeup := s.reader.wakeup - 1),
                                        data := s.data[1..], delivered := s.delivered + [s.data[0]])
  {
    assert s.pcs[f := ReadPosted][f := ReadGranted][f := Idle] == s.pcs;
  }

  // The same by tryRead; and tryWrite goes on to add its value if there is a
  // token, and changes nothing if there is none.
  lemma TryReadTakes(s: State, f: Fid)
    requires s.At(f, Idle) && s.reader.wakeup > 0 && s.data != [] && s.writer.line == [] && s.writer.wakeup < s.writer.limit
    ensures var s1 := Apply(s, TryRead(f));
            && Enabled(s1, TryTake(f))
            && var s2 := Apply(s1, TryTake(f));
            && Enabled(s2, Poll(f))
            && Apply(s2, Poll(f)) == s.(writer := s.writer.(wakeup := s.writer.wakeup + 1),
                                        reader := s.reader.(wakeup := s.reader.wakeup - 1),
                                        data := s.data[1..], delivered := s.delivered + [s.data[0]])
  {
    assert s.pcs[f := TryPosted][f := ReadGranted][f := Idle] == s.pcs;
  }

  lemma TryWriteIff(s: State, f: Fid, v: Value)
    requires s.At(f, Idle)
    ensures Apply(s, TryWrite(f, v))
         == if s.writer.wakeup > 0 then s.(writer := s.writer.(wakeup := s.writer.wakeup - 1), pcs := s.pcs[f := WriteGranted(v)])
            else s
  {
    assert s.pcs[f := Idle] == s.pcs;
  }

  // A read without a token parks its fiber last in the reader's line, marked no
  // more by any earlier wait; so does a write, with its value, in the writer's.
  lemma ReadParks(s: State, f: Fid)
    requires s.At(f, ReadPosted) && s.reader.wakeup == 0
    ensures var s1 := Apply(s, ReaderWait(f));
            && Enabled(s1, ReaderSwapOut(f))
            && Apply(s1, ReaderSwapOut(f)) == s.(reader := s.reader.(line := s.reader.line + [f]),
                                                 pcs := s.pcs[f := ReadParked], marks := s.marks - {f})
  {
    assert s.pcs[f := ReadParking][f := ReadParked] == s.pcs[f := ReadParked];
  }

  lemma WriteParks(s: State, f: Fid, v: Value)
    requires s.At(f, Idle) && s.writer.wakeup == 0
    ensures var s1 := Apply(s, Write(f, v));
            && Enabled(s1, WriterSwapOut(f))
            && Apply(s1, WriterSwapOut(f)) == s.(writer := s.writer.(line := s.writer.line + [f]),
                                                 pcs := s.pcs[f := WriteParked(v)], marks := s.marks - {f})
  {
    assert s.pcs[f := WriteParking(v)][f := WriteParked(v)] == s.pcs[f := WriteParked(v)];
  }

  // The look and the change of a fiber handed a token: it goes on with what it
  // waited for.
  lemma HandedGoesOn(s: State, f: Fid)
    requires Inv(s) && f in s.looks && f in s.pcs && Handed(s.pcs[f]) && f !in s.seen
    ensures var s1 := Apply(s, Look(f));
            && Enabled(s1, Change(f))
            && var s2 := Apply(s1, Change(f));
            && s2.reader == s.reader && s2.writer == s.writer && s2.data == s.data && s2.seen == s.seen
            && s2.looks == s.looks - multiset{f} && s2.lost == s.lost
            && (s.pcs[f].ReadHanded? ==> s2.At(f, ReadGranted))
            && (s.pcs[f].WriteHanded? ==> s2.At(f, WriteGranted(s.pcs[f].v)))
            && (s.pcs[f].StrayHanded? ==> s2.At(f, if s.pcs[f].again then TryPosted else Idle))
            && forall g :: g in s.pcs && g != f ==> g in s2.pcs && s2.pcs[g] == s.pcs[g]
  {
    assert LookOk(s, f);
    assert s.seen + multiset{f} - multiset{f} == s.seen;
  }

  // A thread that finds its fiber resumed already does nothing more.
  lemma LateLookDoesNothing(s: State, f: Fid)
    requires Enabled(s, Look(f)) && !s.Blocked(f)
    ensures Apply(s, Look(f)) == s.(looks := s.looks - multiset{f})
  {
  }

  // The record is true: tokens are lost by yields that take them and by wake-ups
  // of fibers that do not wait there, and in no other way.
  lemma LostIs(s: State, a: Step)
    requires Inv(s) && Enabled(s, a)
    ensures Apply(s, a).lost == s.lost + ToInt(Loses(s, a))
  {
    if a.Signal? && s.reader.line != [] { ReaderReceives(s); }
    if (a.Read? || a.TryRead?) && s.writer.line != [] { WriterReceives(s); }
  }

  predicate Loses(s: State, a: Step) {
    match a
    case Signal(_) => s.reader.line != [] && !s.At(s.reader.line[0], ReadParked)
    case Read(_) => s.writer.line != [] && s.writer.line[0] in s.pcs && !s.pcs[s.writer.line[0]].WriteParked?
    case TryRead(_) => s.writer.line != [] && s.writer.line[0] in s.pcs && !s.pcs[s.writer.line[0]].WriteParked?
    case TryAgain(f) => Swallows(s, f)
    case Yield(f) => Swallows(s, f)
    case _ => false
  }

  predicate Swallows(s: State, f: Fid) {
    && f in s.marks
    && ((s.marks[f] == Reader && s.reader.wakeup > 0) || (s.marks[f] == Writer && s.writer.wakeup > 0))
  }

  // --- what the channel promises ---

  // At every point of every run at all, readers got the written values in order,
  // without gaps or repeats, and what they did not get is still in the queue.
  lemma DeliveryIsPrefix(ss: seq<State>, steps: seq<Step>, n: nat)
    requires Run(ss, steps) && n <= |steps|
    ensures var written := Written(steps, n);
            ss[n].delivered <= written && written[|ss[n].delivered|..] == ss[n].data
  {
    RunKeepsOrder(ss, steps, n);
  }

  // No wake-up is lost: a fiber that was handed a token and not yet resumed is
  // in the hand of a thread that will resume it.
  lemma HandedIsAnswered(s: State, f: Fid)
    requires TimelyReachable(s) && f in s.pcs && Handed(s.pcs[f])
    ensures s.Blocked(f) && (f in s.looks || f in s.seen)
  {
    TimelyInv(s);
    assert LookOk(s, f);
  }

  // The rest is over every run in which all looks come in time.  A reader that
  // got its token never finds the queue empty.
  lemma GrantedReaderFindsItem(s: State, f: Fid)
    requires TimelyReachable(s) && Enabled(s, Poll(f))
    ensures s.data != [] && Apply(s, Poll(f)).delivered == s.delivered + [s.data[0]]
  {
    TimelyInv(s);
    TallyPlausible(s, f);
    PollItemKeeps(s, Tallied(s.pcs), f);
  }

  // The queue holds no more than the capacity and one item for each read in
  // progress; an unbuffered channel holds items only for readers.
  lemma Occupancy(s: State)
    requires TimelyReachable(s)
    ensures |s.data| <= s.capacity + Count(s.pcs, Posted) + Count(s.pcs, Granted)
  {
    TimelyInv(s);
    CountMonotone(s.pcs, Added, InFlight);
  }

  // A read that waits while neither blocker has a token implies
  // a write on its way, or a token that was lost.
  lemma WaitingReadIsServed(s: State, f: Fid)
    requires TimelyReachable(s) && f in s.pcs && Posted(s.pcs[f]) && s.reader.wakeup == 0 && s.writer.wakeup == 0
    ensures s.lost > 0 || exists g :: g in s.pcs && InFlight(s.pcs[g])
  {
    TimelyInv(s);
    CountAll(s.pcs, Posted);
    CountAll(s.pcs, InFlight);
  }

  // Deadlock-freedom, over careful runs: a reader and a writer are never both
  // parked unless a write is on its way, and a tryRead that finds neither kind
  // of token goes round its loop only while a write is on its way.
  lemma NeverBothParked(s: State, f: Fid)
    requires CarefullyReachable(s)
    requires f in s.pcs && Posted(s.pcs[f]) && s.reader.wakeup == 0 && s.writer.wakeup == 0
    ensures exists g :: g in s.pcs && InFlight(s.pcs[g])
  {
    CarefulClean(s);
    CountAll(s.pcs, Posted);
    CountAll(s.pcs, InFlight);
  }

  lemma ParkedMeansNoToken(s: State, r: Fid, w: Fid)
    requires CarefullyReachable(s) && r in s.pcs && w in s.pcs && s.pcs[r].ReadParked? && s.pcs[w].WriteParked?
    ensures exists g :: g in s.pcs && InFlight(s.pcs[g])
  {
    CarefulClean(s);
    assert ReaderLine(s, r) && WriterLine(s, w);
    NeverBothParked(s, r);
  }

  // None of the channel's own wake-ups is refused, so the blockers' limit is
  // never felt.
  lemma WakeUpsAccepted(s: State, f: Fid)
    requires TimelyReachable(s)
    ensures s.At(f, Idle) ==> !s.writer.WakeUp().1.Refused?
    ensures s.At(f, WriteAdded) ==> !s.reader.WakeUp().1.Refused?
  {
    TimelyInv(s);
    if f in s.pcs && !Posted(s.pcs[f]) {
      TallyPlausible(s, f);
      WakeUpAccepted(s, Tallied(s.pcs), s.pcs[f]);
    }
  }

  // A channel that does not call itself empty has an item to read.
  lemma NotEmptyHasItem(s: State)
    requires TimelyReachable(s) && s.reader.wakeup > 0
    ensures s.data != []
  {
    TimelyInv(s);
  }

  function WriterTokens(s: State): int {
    s.writer.wakeup + Tallied(s.pcs).inFlight
  }

  lemma TryReadTally(s: State, t: Tally, a: Step)
    requires Good(s, t) && Clean(s) && Enabled(s, a) && a.TryRead? && Plausible(s, t, Idle)
    ensures var u := Apply(s, a);
            a.f in u.pcs && u.writer.wakeup + NextTally(s, a, u, t).inFlight == s.writer.wakeup + t.inFlight + 1
  {
    WakeUpAccepted(s, t, Idle);
    if s.writer.line != [] { WriterReceives(s); }
    StepGood(s, t, a);
  }

  // Over careful runs, a tryRead that returns false takes back exactly the token
  // it brought: one goes in at its start, one comes out at its end, ...
  lemma TryReadFalseIsNeutral(s: State, a: Step)
    requires CarefullyReachable(s) && Enabled(s, a)
    ensures a.TryRead? ==> WriterTokens(Apply(s, a)) == WriterTokens(s) + 1
    ensures a.TryBack? && s.writer.wakeup > 0 ==>
              Apply(s, a).At(a.f, Idle) && WriterTokens(Apply(s, a)) == WriterTokens(s) - 1
  {
    CarefulClean(s);
    if a.TryRead? || a.TryBack? {
      TallyPlausible(s, a.f);
      StepGood(s, Tallied(s.pcs), a);
      StepTallies(s, a, Apply(s, a));
    }
    if a.TryRead? {
      TryReadTally(s, Tallied(s.pcs), a);
    }
  }

  lemma TurnIs(s: State, a: Step)
    requires Enabled(s, a) && Careful(s, a)
    requires a.TryAgain? || (a.TryTake? && s.reader.wakeup == 0) || (a.TryBack? && s.writer.wakeup == 0)
    ensures var u := Apply(s, a);
            && a.f in u.pcs && u.pcs == s.pcs[a.f := u.pcs[a.f]] && !InFlight(s.pcs[a.f]) && !InFlight(u.pcs[a.f])
            && u.reader == s.reader && u.writer == s.writer && u.data == s.data
  {
  }

  // ... and its turns in between move none.
  lemma TryReadTurnMovesNone(s: State, a: Step)
    requires Enabled(s, a) && Careful(s, a)
    requires a.TryAgain? || (a.TryTake? && s.reader.wakeup == 0) || (a.TryBack? && s.writer.wakeup == 0)
    ensures WriterTokens(Apply(s, a)) == WriterTokens(s)
    ensures Apply(s, a).reader == s.reader && Apply(s, a).writer == s.writer && Apply(s, a).data == s.data
  {
    TurnIs(s, a);
    Moves(s.pcs, a.f, Apply(s, a).pcs[a.f]);
  }
}
