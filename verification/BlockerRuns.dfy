/**
 * One blocker under every interleaving: any number of fibers enter plain and
 * timed waits, are parked later by their scheduler, time out, are woken and
 * resume, while fibers or threads wake it up.  Each SYNCHRONIZED block is one
 * step; what `wakeUp` does after leaving it, the look at the fiber's state and
 * the change of it, are two more.
 */
module BlockerRuns {
  import opened Base
  import opened Blocker

  type Fid = nat
  type Tid = nat

  // `timer` is true while the wait has a timer that has not fired.
  datatype Wait =
    | NoWait
    | Parking(timed: bool, timer: bool)   // marked BLOCKED, its worker has yet to park it
    | Inside(timed: bool, timer: bool)    // parked or granted, not yet back from the yield

  // `ready` counts how often the fiber stands in a run queue or on a thread,
  // `blocked` is state == BLOCKED with this blocker as its blocker, `away` the
  // same with another, and `flag` is isIoWaitTimeout.  `token` records that a
  // token was consumed for the wait.
  datatype FiberRec = FiberRec(wait: Wait, ready: nat, blocked: bool, away: bool, flag: bool, token: bool)
  {
    predicate IsBlocked() {
      blocked || away
    }
  }

  // A thread that is about to resume a fiber (a wake-up that popped it, or its
  // timer); `seen` once it has found the fiber's state to be BLOCKED.
  datatype Hand = Hand(f: Fid, seen: bool)

  datatype Fate = InLine | Handed | TimedOut

  // One parking, with what became of it.
  datatype Ticket = Ticket(fiber: Fid, fate: Fate)

  // `gate`, `fibers` and `hands` are the program, except for the tokens; the
  // other fields record the run: tokens stored or handed by wake-ups, tokens
  // consumed by waits, tokens taken for no wait, all parkings in order, and the
  // ticket of each fiber in line.
  datatype State = State(
    gate: Gate<Fid>,
    fibers: map<Fid, FiberRec>,
    hands: map<Tid, Hand>,
    capacity: nat,
    woken: nat,
    granted: nat,
    eaten: nat,
    tickets: seq<Ticket>,
    line: seq<nat>)
  {
    function Of(f: Fid): FiberRec {
      if f in fibers then fibers[f] else FiberRec(NoWait, 0, false, false, false, false)
    }

    // Running, or about to, outside any wait on this blocker.
    predicate Free(f: Fid) {
      f in fibers && fibers[f].wait == NoWait && fibers[f].ready > 0
    }
  }

  predicate Init(s: State) {
    && s.gate.limit <= UINT_MAX && s.capacity <= s.gate.limit
    && s.gate == Gate(s.capacity, s.gate.limit, [])
    && (forall f :: f in s.fibers ==> s.fibers[f] == FiberRec(NoWait, 1, false, false, s.fibers[f].flag, false))
    && s.hands == map[] && s.woken == 0 && s.granted == 0 && s.eaten == 0 && s.tickets == [] && s.line == []
  }

  datatype Step =
    | EnterWait(f: Fid, timed: bool, timer: bool)
    | TryWait(f: Fid)
    | SwapOut(f: Fid)
    | Pop(w: Tid)
    | FireTimer(w: Tid, f: Fid)
    | OtherWake(w: Tid, f: Fid)         // a wake-up of some other wait of the fiber, come late
    | Look(w: Tid)
    | Change(w: Tid)
    | Resume(f: Fid)
    | Yield(f: Fid)
    | Elsewhere(f: Fid, flag: bool, away: bool)   // a sleep or a wait elsewhere, which may leave
                                                  // the flag set or the fiber marked

  predicate Enabled(s: State, a: Step) {
    match a
    case EnterWait(f, timed, timer) => s.Free(f) && (timer ==> timed)
    case TryWait(f) => s.Free(f)
    case SwapOut(f) => f in s.fibers && s.fibers[f].wait.Parking? && s.fibers[f].ready > 0
    case Pop(w) => w !in s.hands
    case FireTimer(w, f) => w !in s.hands && f in s.fibers && s.fibers[f].wait.Inside? && s.fibers[f].wait.timer
    case OtherWake(w, f) => w !in s.hands && f in s.fibers
    case Look(w) => w in s.hands && !s.hands[w].seen
    case Change(w) => w in s.hands && s.hands[w].seen
    case Resume(f) => f in s.fibers && s.fibers[f].wait.Inside? && s.fibers[f].ready > 0
    case Yield(f) => s.Free(f)
    case Elsewhere(f, _, _) => s.Free(f)
  }

  function Put(s: State, f: Fid, x: FiberRec): State {
    s.(fibers := s.fibers[f := x])
  }

  // A wait that finds a token takes it; otherwise the fiber is marked.  Setting
  // up the timer clears the flag.
  function DoEnterWait(s: State, f: Fid, timed: bool, timer: bool): State {
    var (g, done) := s.gate.Take();
    if done then s.(gate := g, granted := s.granted + 1)
    else Put(s, f, s.Of(f).(wait := Parking(timed, timer), blocked := true, away := false, flag := s.Of(f).flag && !timer))
  }

  function DoTryWait(s: State): State {
    var (g, done) := s.gate.Take();
    if done then s.(gate := g, granted := s.granted + 1) else s
  }

  // To the end of the line, off the thread.
  function Park(s: State, f: Fid, x: FiberRec): State {
    Put(s, f, x.(ready := if x.ready > 0 then x.ready - 1 else 0)).(
      gate := s.gate.(line := s.gate.line + [f]),
      tickets := s.tickets + [Ticket(f, InLine)], line := s.line + [|s.tickets|])
  }

  // The scheduler's switch on a fiber that yielded inside a wait.
  function DoSwapOut(s: State, f: Fid): State
    requires s.Of(f).wait.Parking?
  {
    var x := s.Of(f).(wait := Inside(s.Of(f).wait.timed, s.Of(f).wait.timer));
    if !x.blocked then Put(s, f, x)
    else if s.gate.wakeup > 0 then
      Put(s, f, x.(token := true)).(gate := s.gate.SwapOut(f).0, granted := s.granted + 1)
    else Park(s, f, x)
  }

  function Settle(tickets: seq<Ticket>, k: nat, fate: Fate): seq<Ticket> {
    if k < |tickets| then tickets[k := tickets[k].(fate := fate)] else tickets
  }

  // wakeUp, inside the lock.
  function DoPop(s: State, w: Tid): State {
    match s.gate.WakeUp()
    case (g, Refused) => s
    case (g, Stored) => s.(gate := g, woken := s.woken + 1)
    case (g, Handed(f)) =>
      var x := s.Of(f);
      Put(s, f, x.(token := true)).(
        gate := g, hands := s.hands[w := Hand(f, false)], woken := s.woken + 1,
        granted := s.granted + ToInt(x.wait.Inside?), eaten := s.eaten + ToInt(!x.wait.Inside?),
        tickets := if s.line == [] then s.tickets else Settle(s.tickets, s.line[0], Fate.Handed),
        line := if s.line == [] then [] else s.line[1..])
  }

  function DoFireTimer(s: State, w: Tid, f: Fid): State
    requires s.Of(f).wait.Inside?
  {
    Put(s, f, s.Of(f).(flag := true, wait := s.Of(f).wait.(timer := false))).(hands := s.hands[w := Hand(f, false)])
  }

  // swapIn: the look at the state.
  function DoLook(s: State, w: Tid): State
    requires w in s.hands
  {
    if s.Of(s.hands[w].f).IsBlocked() then s.(hands := s.hands[w := s.hands[w].(seen := true)])
    else s.(hands := s.hands - {w})
  }

  // swapIn: the new state, and the run queue.
  function DoChange(s: State, w: Tid): State
    requires w in s.hands
  {
    var f := s.hands[w].f;
    Put(s, f, s.Of(f).(blocked := false, away := false, ready := s.Of(f).ready + 1)).(hands := s.hands - {w})
  }

  // The fiber leaves the line, if it is in it, and its ticket is settled.
  function LeaveLine(s: State, f: Fid): State {
    var (g, left) := s.gate.Leave(f);
    var k := IndexOf(s.gate.line, f);
    if left && k < |s.line|
    then s.(gate := g, tickets := Settle(s.tickets, s.line[k], TimedOut), line := s.line[..k] + s.line[k + 1..])
    else s.(gate := g)
  }

  // A timed wait that finds the flag set.
  predicate TimesOut(s: State, f: Fid) {
    s.Of(f).wait.Inside? && s.Of(f).wait.timed && s.Of(f).flag
  }

  // After the yield: a plain wait just goes on; a timed one reads and clears
  // the flag and, when it was set, tries to leave the line.
  function DoResume(s: State, f: Fid): State {
    var x := s.Of(f);
    var s1 := Put(s, f, x.(wait := NoWait, token := false, flag := x.flag && !TimesOut(s, f)));
    if TimesOut(s, f) then LeaveLine(s1, f) else s1
  }

  // What the wait returns to its caller.
  predicate ResumeResult(s: State, f: Fid) {
    !TimesOut(s, f) || !s.gate.Leave(f).1
  }

  // A plain yield: the scheduler switches on whatever state the fiber has.
  function DoYield(s: State, f: Fid): State {
    if !s.Of(f).blocked then s
    else if s.gate.wakeup > 0 then s.(gate := s.gate.SwapOut(f).0, eaten := s.eaten + 1)
    else Park(s, f, s.Of(f))
  }

  function Apply(s: State, a: Step): State
    requires Enabled(s, a)
  {
    match a
    case EnterWait(f, timed, timer) => DoEnterWait(s, f, timed, timer)
    case TryWait(f) => DoTryWait(s)
    case SwapOut(f) => DoSwapOut(s, f)
    case Pop(w) => DoPop(s, w)
    case FireTimer(w, f) => DoFireTimer(s, w, f)
    case OtherWake(w, f) => s.(hands := s.hands[w := Hand(f, false)])
    case Look(w) => DoLook(s, w)
    case Change(w) => DoChange(s, w)
    case Resume(f) => DoResume(s, f)
    case Yield(f) => DoYield(s, f)
    case Elsewhere(f, flag, away) => Put(s, f, s.Of(f).(blocked := false, away := away, flag := flag))
  }

  // --- the steps that keep the protocol ---

  // Parked, and to be resumed: granted, or flagged in a timed wait.
  predicate Due(x: FiberRec) {
    x.wait.Inside? && x.ready == 0 && (x.token || (x.wait.timed && x.flag))
  }

  predicate SeenBy(s: State, v: Tid, f: Fid) {
    v in s.hands && s.hands[v] == Hand(f, true)
  }

  // A resumption that comes late may find the fiber blocked again: it may go on
  // only if the fiber is due anyhow and no other thread is resuming it.
  ghost predicate InTime(s: State, f: Fid) {
    s.Of(f).IsBlocked() ==> Due(s.Of(f)) && forall v {:trigger SeenBy(s, v, f)} :: !SeenBy(s, v, f)
  }

  // And a fiber left marked by a grant at its swap-out must not yield before it
  // has slept or waited again.
  ghost predicate Careful(s: State, a: Step) {
    match a
    case Look(w) => w in s.hands ==> InTime(s, s.hands[w].f)
    case Yield(f) => !s.Of(f).blocked
    case _ => true
  }

  // --- what every step keeps ---

  // Nothing is created or lost: a token is initial or woken, and it is stored,
  // has been consumed by one wait, or was taken for none.
  predicate TokensBalance(s: State) {
    s.capacity + s.woken == s.gate.wakeup + s.granted + s.eaten
  }

  predicate Bounded(s: State) {
    s.gate.wakeup <= s.gate.limit <= UINT_MAX
  }

  // No barging: a token is stored only when nobody is in line.
  predicate NoBarging(s: State) {
    0 < s.gate.wakeup ==> s.gate.line == []
  }

  predicate Counted(s: State) {
    TokensBalance(s) && Bounded(s) && NoBarging(s)
  }

  // --- what every careful step keeps ---

  ghost predicate LineAt(s: State, i: nat) {
    i < |s.line| == |s.gate.line| ==>
      && s.line[i] < |s.tickets| && s.tickets[s.line[i]] == Ticket(s.gate.line[i], InLine)
      && s.gate.line[i] in s.fibers && s.fibers[s.gate.line[i]].wait.Inside? && !s.fibers[s.gate.line[i]].token
  }

  predicate Increasing(l: seq<nat>) {
    forall i, j :: 0 <= i < j < |l| ==> l[i] < l[j]
  }

  // The line is fibers inside a wait without a token, in the order of their
  // tickets.
  ghost predicate LineOk(s: State) {
    && |s.line| == |s.gate.line|
    && (forall i {:trigger LineAt(s, i)} :: LineAt(s, i))
    && Increasing(s.line) && Distinct(s.gate.line)
  }

  // A fiber is ready once or hung; inside a wait it is in line exactly while it
  // has no token, and it is ready only if granted or timed out.
  ghost predicate FiberOk(s: State, f: Fid) {
    f in s.fibers ==>
      var x := s.fibers[f];
      match x.wait
      case NoWait => x.ready == 1 && !x.token
      case Parking(timed, timer) => x.ready == 1 && !x.token && x.blocked && !x.away && (timer ==> timed)
      case Inside(timed, timer) =>
        && x.ready <= 1 && !x.away && (f in s.gate.line <==> !x.token) && (timer ==> timed)
        && (if x.ready == 0 then x.blocked else x.token || (timed && x.flag))
  }

  // A thread that has seen a fiber blocked is the only one, and the fiber stays
  // due until the thread has changed it.
  ghost predicate HandOk(s: State, w: Tid) {
    w in s.hands ==>
      && s.hands[w].f in s.fibers
      && (s.hands[w].seen ==> Due(s.fibers[s.hands[w].f]) && s.fibers[s.hands[w].f].blocked)
  }

  ghost predicate SeenOnce(s: State, v: Tid, w: Tid) {
    v in s.hands && w in s.hands && s.hands[v].seen && s.hands[w].seen && s.hands[v].f == s.hands[w].f ==> v == w
  }

  ghost predicate InSomeHand(s: State, f: Fid) {
    exists w :: w in s.hands && s.hands[w].f == f
  }

  // No wake-up is lost: a granted fiber that still hangs is in some thread's
  // hand.
  ghost predicate Answered(s: State, f: Fid) {
    f in s.fibers && s.fibers[f].wait.Inside? && s.fibers[f].ready == 0 && s.fibers[f].token ==> InSomeHand(s, f)
  }

  ghost predicate TicketOk(s: State, k: nat) {
    k < |s.tickets| && s.tickets[k].fate == InLine ==> k in s.line
  }

  // First parked, first granted: no ticket is handed a token while an earlier
  // one is still in line.
  ghost predicate NoOvertaking(s: State) {
    forall j, k :: 0 <= j < k < |s.tickets| && s.tickets[k].fate == Fate.Handed ==> s.tickets[j].fate != InLine
  }

  ghost predicate HandsOk(s: State) {
    && (forall w {:trigger HandOk(s, w)} :: HandOk(s, w))
    && (forall v, w {:trigger SeenOnce(s, v, w)} :: SeenOnce(s, v, w))
    && (forall f {:trigger Answered(s, f)} :: Answered(s, f))
  }

  ghost predicate LinesOk(s: State) {
    LineOk(s) && NoOvertaking(s) && forall k {:trigger TicketOk(s, k)} :: TicketOk(s, k)
  }

  ghost predicate FibersOk(s: State) {
    forall f {:trigger FiberOk(s, f)} :: FiberOk(s, f)
  }

  ghost predicate Inv(s: State) {
    Counted(s) && s.eaten == 0 && LinesOk(s) && FibersOk(s) && HandsOk(s)
  }

  // Over all steps, careful or not, tokens are counted.
  lemma StepCounts(s: State, a: Step)
    requires Counted(s) && Enabled(s, a)
    ensures Counted(Apply(s, a))
  {
    if a.Resume? && TimesOut(s, a.f) && s.gate.line == [] {
      assert DoResume(s, a.f).gate == s.gate;
    }
  }

  // --- the line ---

  // A step that changes neither the line nor who is in it.
  lemma SameLine(s: State, t: State)
    requires LinesOk(s) && t.gate.line == s.gate.line && t.line == s.line && t.tickets == s.tickets
    requires forall f {:trigger f in s.gate.line} :: f in s.gate.line ==>
               f in t.fibers && t.fibers[f].wait.Inside? && !t.fibers[f].token
    ensures LinesOk(t)
  {
    forall i: nat ensures LineAt(t, i) {
      assert LineAt(s, i);
      if i < |s.gate.line| { assert s.gate.line[i] in s.gate.line; }
    }
    forall k: nat ensures TicketOk(t, k) { assert TicketOk(s, k); }
  }

  lemma MemberInside(s: State, f: Fid)
    requires LineOk(s) && f in s.gate.line
    ensures f in s.fibers && s.fibers[f].wait.Inside? && !s.fibers[f].token
  {
    var i :| 0 <= i < |s.gate.line| && s.gate.line[i] == f;
    assert LineAt(s, i);
  }

  lemma PushLine(s: State, t: State, f: Fid)
    requires LinesOk(s) && f !in s.gate.line && f in t.fibers && t.fibers[f].wait.Inside? && !t.fibers[f].token
    requires t.gate.line == s.gate.line + [f] && t.line == s.line + [|s.tickets|]
    requires t.tickets == s.tickets + [Ticket(f, InLine)] && t.fibers == s.fibers[f := t.fibers[f]]
    ensures LinesOk(t)
  {
    DistinctConcat(s.gate.line, [f]);
    forall i: nat ensures LineAt(t, i) { assert LineAt(s, i); }
    forall i, j | 0 <= i < j < |t.line| ensures t.line[i] < t.line[j] { assert LineAt(s, i); }
    forall k: nat ensures TicketOk(t, k) { assert TicketOk(s, k); }
  }

  // The first in line is handed the token: its ticket is the oldest in line.
  lemma PopLine(s: State, t: State)
    requires LineOk(s) && s.line != [] && t.line == s.line[1..] && t.gate.line == s.gate.line[1..]
    requires t.tickets == Settle(s.tickets, s.line[0], Fate.Handed)
    requires s.gate.line[0] in t.fibers && t.fibers == s.fibers[s.gate.line[0] := t.fibers[s.gate.line[0]]]
    ensures LineOk(t)
  {
    forall i: nat ensures LineAt(t, i) {
      assert LineAt(s, i + 1);
      assert i + 1 < |s.line| ==> s.line[0] < s.line[i + 1] && s.gate.line[0] != s.gate.line[i + 1];
    }
  }

  lemma PopTickets(s: State, t: State)
    requires LinesOk(s) && s.line != [] && t.line == s.line[1..]
    requires t.tickets == Settle(s.tickets, s.line[0], Fate.Handed)
    ensures NoOvertaking(t) && forall k {:trigger TicketOk(t, k)} :: TicketOk(t, k)
  {
    assert LineAt(s, 0);
    forall k: nat ensures TicketOk(t, k) { assert TicketOk(s, k); }
    forall j, k | 0 <= j < k < |t.tickets| && t.tickets[k].fate == Fate.Handed ensures t.tickets[j].fate != InLine {
      assert TicketOk(s, j);
    }
  }

  lemma CutAt<T>(s: seq<T>, k: nat, i: nat)
    requires k < |s| && i < |s| - 1
    ensures (s[..k] + s[k + 1..])[i] == s[if i < k then i else i + 1]
  {
  }

  lemma CutMembers<T>(s: seq<T>, k: nat)
    requires Distinct(s) && k < |s|
    ensures var cut := s[..k] + s[k + 1..];
            Distinct(cut) && forall e :: e in cut <==> e in s && e != s[k]
  {
    var cut := s[..k] + s[k + 1..];
    forall i, j | 0 <= i < j < |cut| ensures cut[i] != cut[j] {
      CutAt(s, k, i);
      CutAt(s, k, j);
    }
    forall e | e in s && e != s[k] ensures e in cut {
      var i :| 0 <= i < |s| && s[i] == e;
      assert cut[if i < k then i else i - 1] == e;
    }
    forall i | 0 <= i < |cut| ensures cut[i] in s && cut[i] != s[k] { CutAt(s, k, i); }
  }

  lemma CutIncreasing(l: seq<nat>, k: nat)
    requires Increasing(l) && k < |l|
    ensures Increasing(l[..k] + l[k + 1..]) && Distinct(l)
  {
    var cut := l[..k] + l[k + 1..];
    forall i, j | 0 <= i < j < |cut| ensures cut[i] < cut[j] {
      CutAt(l, k, i);
      CutAt(l, k, j);
    }
  }

  lemma CutLine(s: State, t: State, k: nat)
    requires LinesOk(s) && k < |s.line| && t.line == s.line[..k] + s.line[k + 1..]
    requires t.gate.line == s.gate.line[..k] + s.gate.line[k + 1..]
    requires t.tickets == Settle(s.tickets, s.line[k], TimedOut)
    requires s.gate.line[k] in t.fibers && t.fibers == s.fibers[s.gate.line[k] := t.fibers[s.gate.line[k]]]
    ensures LinesOk(t)
  {
    CutMembers(s.gate.line, k);
    CutIncreasing(s.line, k);
    CutMembers(s.line, k);
    forall i: nat ensures LineAt(t, i) {
      if i < |t.line| {
        var j := if i < k then i else i + 1;
        CutAt(s.line, k, i);
        CutAt(s.gate.line, k, i);
        assert LineAt(s, j) && s.line[j] != s.line[k] && s.gate.line[j] != s.gate.line[k];
      }
    }
    forall j: nat ensures TicketOk(t, j) { assert TicketOk(s, j); }
  }

  // --- the steps ---

  // A step of a fiber that is not hung, before and after, leaves the hands
  // alone.
  lemma SameHands(s: State, t: State, f: Fid)
    requires HandsOk(s) && t.hands == s.hands && f in s.fibers && t.fibers.Keys == s.fibers.Keys
    requires s.fibers[f].ready > 0 && (Due(t.fibers[f]) ==> !t.fibers[f].token)
    requires forall g :: g in s.fibers && g != f ==> t.fibers[g] == s.fibers[g]
    ensures HandsOk(t)
  {
    forall w: nat ensures HandOk(t, w) { assert HandOk(s, w); }
    forall v: nat, w: nat ensures SeenOnce(t, v, w) { assert SeenOnce(s, v, w); }
    forall g: nat ensures Answered(t, g) {
      assert Answered(s, g);
      if g in s.fibers && g != f && InSomeHand(s, g) {
        var w :| w in s.hands && s.hands[w].f == g;
        assert w in t.hands;
      }
    }
  }

  // A change of one fiber that is in no line, before and after.
  lemma SameOthers(s: State, t: State, f: Fid)
    requires FibersOk(s) && t.gate.line == s.gate.line && t.fibers.Keys == s.fibers.Keys
    requires forall g :: g in s.fibers && g != f ==> t.fibers[g] == s.fibers[g]
    requires FiberOk(t, f)
    ensures FibersOk(t)
  {
    forall g: nat ensures FiberOk(t, g) { assert FiberOk(s, g); }
  }

  // A step outside any wait, or into one.
  lemma FreeKeeps(s: State, f: Fid, x: FiberRec, t: State)
    requires Inv(s) && s.Free(f) && x.ready == 1 && !x.token && Counted(t)
    requires x.wait == NoWait || (x.wait.Parking? && x.blocked && !x.away && (x.wait.timer ==> x.wait.timed))
    requires t == Put(s, f, x).(gate := t.gate, granted := t.granted) && t.gate.line == s.gate.line
    ensures Inv(t)
  {
    assert FiberOk(s, f);
    if f in s.gate.line { MemberInside(s, f); }
    forall g | g in s.gate.line ensures g in t.fibers && t.fibers[g].wait.Inside? && !t.fibers[g].token {
      MemberInside(s, g);
    }
    SameLine(s, t);
    SameOthers(s, t, f);
    SameHands(s, t, f);
  }

  lemma SwapOutKeeps(s: State, f: Fid)
    requires Inv(s) && Enabled(s, SwapOut(f))
    ensures Inv(DoSwapOut(s, f))
  {
    var t := DoSwapOut(s, f);
    StepCounts(s, SwapOut(f));
    assert FiberOk(s, f);
    if f in s.gate.line { MemberInside(s, f); }
    if s.gate.wakeup == 0 {
      PushLine(s, t, f);
      forall g: nat ensures FiberOk(t, g) { assert FiberOk(s, g); }
    } else {
      SameLine(s, t);
      SameOthers(s, t, f);
    }
    SameHands(s, t, f);
  }

  lemma PopHands(s: State, w: Tid, t: State, f: Fid)
    requires HandsOk(s) && w !in s.hands && f in s.fibers && s.fibers[f].wait.Inside?
    requires t.hands == s.hands[w := Hand(f, false)] && t.fibers == s.fibers[f := s.fibers[f].(token := true)]
    ensures HandsOk(t)
  {
    forall v: nat ensures HandOk(t, v) { assert HandOk(s, v); }
    forall v: nat, u: nat ensures SeenOnce(t, v, u) { assert SeenOnce(s, v, u); }
    forall g: nat ensures Answered(t, g) {
      assert Answered(s, g);
      if g == f {
        assert w in t.hands && t.hands[w].f == g;
      } else if InSomeHand(s, g) {
        var v :| v in s.hands && s.hands[v].f == g;
        assert v in t.hands && t.hands[v].f == g;
      }
    }
  }

  lemma PopFibers(s: State, t: State)
    requires FibersOk(s) && LineOk(s) && s.gate.line != [] && t.gate.line == s.gate.line[1..]
    requires var f := s.gate.line[0]; f in s.fibers && t.fibers == s.fibers[f := s.fibers[f].(token := true)]
    ensures FibersOk(t)
  {
    var f := s.gate.line[0];
    assert s.gate.line == [f] + t.gate.line && LineAt(s, 0);
    forall g: nat ensures FiberOk(t, g) { assert FiberOk(s, g); }
  }

  lemma PopKeeps(s: State, w: Tid)
    requires Inv(s) && w !in s.hands
    ensures Inv(DoPop(s, w))
  {
    var t := DoPop(s, w);
    StepCounts(s, Pop(w));
    if s.gate.line != [] {
      assert LineAt(s, 0);
      PopLine(s, t);
      PopTickets(s, t);
      PopFibers(s, t);
      PopHands(s, w, t, s.gate.line[0]);
    } else {
      SameAll(s, t);
    }
  }

  // A step that changes only counts.
  lemma SameAll(s: State, t: State)
    requires LinesOk(s) && FibersOk(s) && HandsOk(s)
    requires t.gate.line == s.gate.line && t.fibers == s.fibers && t.hands == s.hands
    requires t.tickets == s.tickets && t.line == s.line
    ensures LinesOk(t) && FibersOk(t) && HandsOk(t)
  {
    forall g | g in s.gate.line ensures g in t.fibers && t.fibers[g].wait.Inside? && !t.fibers[g].token {
      MemberInside(s, g);
    }
    SameLine(s, t);
    forall g: nat ensures FiberOk(t, g) { assert FiberOk(s, g); }
    forall v: nat ensures HandOk(t, v) { assert HandOk(s, v); }
    forall v: nat, u: nat ensures SeenOnce(t, v, u) { assert SeenOnce(s, v, u); }
    forall g: nat ensures Answered(t, g) {
      assert Answered(s, g);
      if InSomeHand(s, g) {
        var v :| v in s.hands && s.hands[v].f == g;
        assert v in t.hands;
      }
    }
  }

  // A thread takes a fiber in hand; at most the fiber's flag and timer change.
  lemma TakeInHandKeeps(s: State, w: Tid, f: Fid, x: FiberRec)
    requires Inv(s) && w !in s.hands && f in s.fibers
    requires x == s.fibers[f] || (s.fibers[f].wait.Inside? && s.fibers[f].wait.timer
               && x == s.fibers[f].(flag := true, wait := s.fibers[f].wait.(timer := false)))
    ensures Inv(Put(s, f, x).(hands := s.hands[w := Hand(f, false)]))
  {
    var t := Put(s, f, x).(hands := s.hands[w := Hand(f, false)]);
    assert FiberOk(s, f);
    forall g | g in s.gate.line ensures g in t.fibers && t.fibers[g].wait.Inside? && !t.fibers[g].token {
      MemberInside(s, g);
    }
    SameLine(s, t);
    SameOthers(s, t, f);
    forall v: nat ensures HandOk(t, v) { assert HandOk(s, v); }
    forall v: nat, u: nat ensures SeenOnce(t, v, u) { assert SeenOnce(s, v, u); }
    forall g: nat ensures Answered(t, g) {
      assert Answered(s, g);
      if InSomeHand(s, g) {
        var v :| v in s.hands && s.hands[v].f == g;
        assert v in t.hands && t.hands[v].f == g;
      }
    }
  }

  // A look in time keeps everything, and one out of time does not.
  lemma LookKeepsIff(s: State, w: Tid)
    requires Inv(s) && Enabled(s, Look(w))
    ensures Inv(DoLook(s, w)) <==> InTime(s, s.hands[w].f)
  {
    var t, f := DoLook(s, w), s.hands[w].f;
    assert HandOk(s, w);
    if InTime(s, f) {
      LookKeeps(s, w);
    } else if Inv(t) {
      assert HandOk(t, w) && t.hands[w] == Hand(f, true);
      forall v: nat ensures !SeenBy(s, v, f) { assert SeenOnce(t, v, w) && HandOk(s, v); }
    }
  }

  lemma LookKeeps(s: State, w: Tid)
    requires Inv(s) && Enabled(s, Look(w)) && InTime(s, s.hands[w].f)
    ensures Inv(DoLook(s, w))
  {
    var t, f := DoLook(s, w), s.hands[w].f;
    assert HandOk(s, w) && FiberOk(s, f);
    forall g | g in s.gate.line ensures g in t.fibers && t.fibers[g].wait.Inside? && !t.fibers[g].token {
      MemberInside(s, g);
    }
    SameLine(s, t);
    forall g: nat ensures FiberOk(t, g) { assert FiberOk(s, g); }
    forall v: nat ensures HandOk(t, v) { assert HandOk(s, v); }
    forall v: nat, u: nat ensures SeenOnce(t, v, u) {
      assert SeenOnce(s, v, u);
      assert SeenBy(s, v, f) || SeenBy(s, u, f) ==> !s.Of(f).IsBlocked();
    }
    forall g: nat ensures Answered(t, g) {
      assert Answered(s, g) && FiberOk(s, g);
      if g in s.fibers && s.fibers[g].wait.Inside? && s.fibers[g].ready == 0 && s.fibers[g].token {
        var v :| v in s.hands && s.hands[v].f == g;
        assert v in t.hands && t.hands[v].f == g;
      }
    }
  }

  lemma ChangeKeeps(s: State, w: Tid)
    requires Inv(s) && Enabled(s, Change(w))
    ensures Inv(DoChange(s, w))
  {
    var t, f := DoChange(s, w), s.hands[w].f;
    assert HandOk(s, w) && FiberOk(s, f);
    forall g | g in s.gate.line ensures g in t.fibers && t.fibers[g].wait.Inside? && !t.fibers[g].token {
      MemberInside(s, g);
    }
    SameLine(s, t);
    SameOthers(s, t, f);
    forall v: nat ensures HandOk(t, v) { assert HandOk(s, v) && SeenOnce(s, v, w); }
    forall v: nat, u: nat ensures SeenOnce(t, v, u) { assert SeenOnce(s, v, u); }
    forall g: nat ensures Answered(t, g) {
      assert Answered(s, g);
      if g != f && InSomeHand(s, g) {
        var v :| v in s.hands && s.hands[v].f == g;
        assert v in t.hands && t.hands[v].f == g;
      }
    }
  }

  // Where a resuming fiber stands: granted and out of the line, or timed out and
  // in it.
  lemma ResumeIs(s: State, f: Fid)
    requires LineOk(s) && FiberOk(s, f) && Enabled(s, Resume(f))
    ensures s.fibers[f].token <==> ResumeResult(s, f)
    ensures f in s.gate.line <==> !ResumeResult(s, f)
    ensures !ResumeResult(s, f) ==> TimesOut(s, f)
  {
  }

  lemma TimedOutLeaves(s: State, f: Fid)
    requires Inv(s) && Enabled(s, Resume(f)) && f in s.gate.line
    ensures LinesOk(DoResume(s, f)) && Counted(DoResume(s, f))
    ensures forall g :: g in DoResume(s, f).gate.line <==> g in s.gate.line && g != f
  {
    var k := IndexOf(s.gate.line, f);
    assert FiberOk(s, f);
    WithoutIs(s.gate.line, f);
    CutLine(s, DoResume(s, f), k);
    CutMembers(s.gate.line, k);
  }

  lemma TimedOutIsFree(s: State, f: Fid)
    requires Inv(s) && Enabled(s, Resume(f)) && f in s.gate.line
    ensures FibersOk(DoResume(s, f))
  {
    var t := DoResume(s, f);
    TimedOutLeaves(s, f);
    assert FiberOk(s, f);
    forall g: nat ensures FiberOk(t, g) { assert FiberOk(s, g); }
  }

  lemma GrantedStays(s: State, f: Fid)
    requires Inv(s) && Enabled(s, Resume(f)) && f !in s.gate.line
    ensures LinesOk(DoResume(s, f)) && FibersOk(DoResume(s, f)) && Counted(DoResume(s, f))
  {
    var t := DoResume(s, f);
    assert FiberOk(s, f);
    WithoutIs(s.gate.line, f);
    forall g | g in s.gate.line ensures g in t.fibers && t.fibers[g].wait.Inside? && !t.fibers[g].token {
      MemberInside(s, g);
    }
    SameLine(s, t);
    SameOthers(s, t, f);
  }

  lemma ResumeKeeps(s: State, f: Fid)
    requires Inv(s) && Enabled(s, Resume(f))
    ensures Inv(DoResume(s, f))
  {
    assert FiberOk(s, f);
    if f in s.gate.line { TimedOutLeaves(s, f); TimedOutIsFree(s, f); } else { GrantedStays(s, f); }
    SameHands(s, DoResume(s, f), f);
  }

  // A plain yield keeps everything if and only if the fiber is not left marked.
  lemma YieldKeepsIff(s: State, f: Fid)
    requires Inv(s) && s.Free(f)
    ensures Inv(DoYield(s, f)) <==> !s.fibers[f].blocked
  {
    var t := DoYield(s, f);
    if s.fibers[f].blocked && s.gate.wakeup == 0 {
      assert !LineAt(t, |s.line|);
    }
  }

  // Every step keeps the protocol if and only if it is careful.
  lemma StepKeepsIff(s: State, a: Step)
    requires Inv(s) && Enabled(s, a)
    ensures Inv(Apply(s, a)) <==> Careful(s, a)
  {
    match a
    case EnterWait(f, timed, timer) =>
      StepCounts(s, a);
      assert FiberOk(s, f);
      FreeKeeps(s, f, Apply(s, a).Of(f), Apply(s, a));
    case TryWait(f) =>
      StepCounts(s, a);
      SameAll(s, Apply(s, a));
    case SwapOut(f) => SwapOutKeeps(s, f);
    case Pop(w) => PopKeeps(s, w);
    case FireTimer(w, f) => TakeInHandKeeps(s, w, f, Apply(s, a).Of(f));
    case OtherWake(w, f) =>
      TakeInHandKeeps(s, w, f, s.fibers[f]);
      assert Put(s, f, s.fibers[f]) == s;
    case Look(w) => LookKeepsIff(s, w);
    case Change(w) => ChangeKeeps(s, w);
    case Resume(f) => ResumeKeeps(s, f);
    case Yield(f) => YieldKeepsIff(s, f);
    case Elsewhere(f, _, _) =>
      assert FiberOk(s, f);
      FreeKeeps(s, f, Apply(s, a).Of(f), Apply(s, a));
  }

  // --- runs ---

  ghost predicate StepsTo(s: State, a: Step, t: State) {
    Enabled(s, a) && t == Apply(s, a)
  }

  // A run takes one enabled step after another.
  ghost predicate Run(ss: seq<State>, steps: seq<Step>) {
    && |ss| == |steps| + 1 && Init(ss[0])
    && forall i {:trigger steps[i]} :: 0 <= i < |steps| ==> StepsTo(ss[i], steps[i], ss[i + 1])
  }

  ghost predicate CarefulRun(ss: seq<State>, steps: seq<Step>) {
    Run(ss, steps) && forall i {:trigger steps[i]} :: 0 <= i < |steps| ==> Careful(ss[i], steps[i])
  }

  // The states that end some run, and those that end a careful one.
  ghost predicate Reachable(s: State) {
    exists ss, steps {:trigger Run(ss, steps)} :: Run(ss, steps) && ss[|steps|] == s
  }

  ghost predicate CarefullyReachable(s: State) {
    exists ss, steps {:trigger CarefulRun(ss, steps)} :: CarefulRun(ss, steps) && ss[|steps|] == s
  }

  lemma {:induction false} RunCounts(ss: seq<State>, steps: seq<Step>, n: nat)
    requires Run(ss, steps) && n <= |steps|
    ensures Counted(ss[n])
  {
    if 0 < n {
      RunCounts(ss, steps, n - 1);
      assert StepsTo(ss[n - 1], steps[n - 1], ss[n]);
      StepCounts(ss[n - 1], steps[n - 1]);
    }
  }

  lemma InitInv(s: State)
    requires Init(s)
    ensures Inv(s)
  {
    forall f: nat ensures FiberOk(s, f) {}
    forall w: nat ensures HandOk(s, w) {}
    forall f: nat ensures Answered(s, f) {}
    forall i: nat ensures LineAt(s, i) {}
    forall k: nat ensures TicketOk(s, k) {}
  }

  // A run keeps the protocol to its end if and only if all its steps are
  // careful.
  lemma {:induction false} RunKeepsIff(ss: seq<State>, steps: seq<Step>, n: nat)
    requires Run(ss, steps) && n <= |steps|
    ensures (forall i :: 0 <= i <= n ==> Inv(ss[i])) <==> (forall i :: 0 <= i < n ==> Careful(ss[i], steps[i]))
  {
    if n == 0 {
      InitInv(ss[0]);
    } else {
      var m := n - 1;
      RunKeepsIff(ss, steps, m);
      if Inv(ss[m]) {
        NextKeepsIff(ss, steps, m);
      }
    }
  }

  lemma NextKeepsIff(ss: seq<State>, steps: seq<Step>, m: nat)
    requires Run(ss, steps) && m < |steps| && Inv(ss[m])
    ensures Inv(ss[m + 1]) <==> Careful(ss[m], steps[m])
  {
    assert StepsTo(ss[m], steps[m], ss[m + 1]);
    StepKeepsIff(ss[m], steps[m]);
  }

  lemma CarefulInv(s: State)
    requires CarefullyReachable(s)
    ensures Inv(s)
  {
    var ss, steps :| CarefulRun(ss, steps) && ss[|steps|] == s;
    RunKeepsIff(ss, steps, |steps|);
  }

  lemma ReachableCounts(s: State)
    requires Reachable(s)
    ensures Counted(s)
  {
    var ss, steps :| Run(ss, steps) && ss[|steps|] == s;
    RunCounts(ss, steps, |steps|);
  }

  // --- without timers every look is in time ---

  // No timer fires, no other wait's wake-up comes late, and a fiber left marked
  // does not yield.
  predicate Timeless(s: State, a: Step) {
    !a.FireTimer? && !a.OtherWake? && (a.Yield? ==> !s.Of(a.f).blocked)
  }

  ghost predicate TimelessRun(ss: seq<State>, steps: seq<Step>) {
    Run(ss, steps) && forall i {:trigger steps[i]} :: 0 <= i < |steps| ==> Timeless(ss[i], steps[i])
  }

  ghost predicate PlainHand(s: State, w: Tid) {
    w in s.hands ==> s.hands[w].f in s.fibers && Due(s.fibers[s.hands[w].f]) && s.fibers[s.hands[w].f].token
  }

  ghost predicate OneHand(s: State, v: Tid, w: Tid) {
    v in s.hands && w in s.hands && s.hands[v].f == s.hands[w].f ==> v == w
  }

  ghost predicate PlainWait(s: State, f: Fid) {
    s.Of(f).wait.Inside? && !s.Of(f).token ==> s.Of(f).ready == 0
  }

  ghost predicate Plain(s: State) {
    && (forall w {:trigger PlainHand(s, w)} :: PlainHand(s, w))
    && (forall v, w {:trigger OneHand(s, v, w)} :: OneHand(s, v, w))
    && (forall f {:trigger PlainWait(s, f)} :: PlainWait(s, f))
  }

  lemma PopKeepsPlain(s: State, w: Tid)
    requires Inv(s) && Plain(s) && w !in s.hands
    ensures Plain(DoPop(s, w))
  {
    var t := DoPop(s, w);
    if s.gate.line != [] { assert LineAt(s, 0) && PlainWait(s, s.gate.line[0]); }
    forall f: nat ensures PlainWait(t, f) { assert PlainWait(s, f); }
    forall v: nat ensures PlainHand(t, v) { assert PlainHand(s, v); }
    forall v: nat, u: nat ensures OneHand(t, v, u) { assert OneHand(s, v, u) && PlainHand(s, v) && PlainHand(s, u); }
  }

  lemma ChangeKeepsPlain(s: State, w: Tid)
    requires Inv(s) && Plain(s) && Enabled(s, Change(w))
    ensures Plain(DoChange(s, w))
  {
    var t := DoChange(s, w);
    assert PlainHand(s, w);
    forall f: nat ensures PlainWait(t, f) { assert PlainWait(s, f); }
    forall v: nat ensures PlainHand(t, v) { assert PlainHand(s, v) && OneHand(s, v, w); }
    forall v: nat, u: nat ensures OneHand(t, v, u) { assert OneHand(s, v, u); }
  }

  lemma StepKeepsPlain(s: State, a: Step)
    requires Inv(s) && Plain(s) && Enabled(s, a) && Timeless(s, a)
    ensures Plain(Apply(s, a))
  {
    if a.Pop? { PopKeepsPlain(s, a.w); }
    else if a.Change? { ChangeKeepsPlain(s, a.w); }
    else {
      var t := Apply(s, a);
      if a.SwapOut? { assert FiberOk(s, a.f); }
      forall f: nat ensures PlainWait(t, f) { assert PlainWait(s, f); }
      forall w: nat ensures PlainHand(t, w) { assert PlainHand(s, w); }
      forall v: nat, w: nat ensures OneHand(t, v, w) { assert OneHand(s, v, w); }
    }
  }

  lemma PlainInit(s: State)
    requires Init(s)
    ensures Plain(s)
  {
    forall f: nat ensures PlainWait(s, f) {}
    forall w: nat ensures PlainHand(s, w) {}
  }

  lemma PlainStep(s: State, a: Step)
    requires Inv(s) && Plain(s) && Enabled(s, a) && Timeless(s, a)
    ensures Careful(s, a) && Inv(Apply(s, a)) && Plain(Apply(s, a))
  {
    if a.Look? {
      PlainInTime(s, a.w);
    }
    StepKeepsIff(s, a);
    StepKeepsPlain(s, a);
  }

  lemma {:induction false} TimelessInv(ss: seq<State>, steps: seq<Step>, n: nat)
    requires TimelessRun(ss, steps) && n <= |steps|
    ensures Inv(ss[n]) && Plain(ss[n])
  {
    if n == 0 {
      InitInv(ss[0]);
      PlainInit(ss[0]);
    } else {
      TimelessInv(ss, steps, n - 1);
      assert StepsTo(ss[n - 1], steps[n - 1], ss[n]) && Timeless(ss[n - 1], steps[n - 1]);
      PlainStep(ss[n - 1], steps[n - 1]);
    }
  }

  // Without late resumptions the only step that is not careful is a yield by a
  // fiber left marked.
  lemma TimelessCareful(ss: seq<State>, steps: seq<Step>)
    requires TimelessRun(ss, steps)
    ensures CarefulRun(ss, steps)
  {
    forall i | 0 <= i < |steps| ensures Careful(ss[i], steps[i]) {
      TimelessInv(ss, steps, i);
      assert StepsTo(ss[i], steps[i], ss[i + 1]) && Timeless(ss[i], steps[i]);
      PlainStep(ss[i], steps[i]);
    }
  }

  lemma PlainInTime(s: State, w: Tid)
    requires Plain(s) && w in s.hands && !s.hands[w].seen
    ensures InTime(s, s.hands[w].f)
  {
    assert PlainHand(s, w);
    forall v: nat ensures !SeenBy(s, v, s.hands[w].f) { assert OneHand(s, v, w); }
  }

  // --- and where every swap-out parks, nobody is left marked ---

  predicate Parks(s: State, a: Step) {
    !a.FireTimer? && !a.OtherWake? && (a.SwapOut? ==> s.gate.wakeup == 0)
  }

  ghost predicate ParkingRun(ss: seq<State>, steps: seq<Step>) {
    Run(ss, steps) && forall i {:trigger steps[i]} :: 0 <= i < |steps| ==> Parks(ss[i], steps[i])
  }

  ghost predicate NoMark(s: State, f: Fid) {
    s.Of(f).blocked ==> s.Of(f).wait.Parking? || (s.Of(f).wait.Inside? && s.Of(f).ready == 0)
  }

  ghost predicate NoMarks(s: State) {
    forall f {:trigger NoMark(s, f)} :: NoMark(s, f)
  }

  lemma ParkingStep(s: State, a: Step)
    requires Inv(s) && Plain(s) && NoMarks(s) && Enabled(s, a) && Parks(s, a)
    ensures Careful(s, a) && Inv(Apply(s, a)) && Plain(Apply(s, a)) && NoMarks(Apply(s, a))
  {
    if a.Yield? || a.Resume? { assert NoMark(s, a.f); }
    PlainStep(s, a);
    if a.SwapOut? { assert FiberOk(s, a.f); }
    if a.Change? { assert HandOk(s, a.w); }
    forall f: nat ensures NoMark(Apply(s, a), f) { assert NoMark(s, f); }
  }

  lemma {:induction false} ParkingInv(ss: seq<State>, steps: seq<Step>, n: nat)
    requires ParkingRun(ss, steps) && n <= |steps|
    ensures Inv(ss[n]) && Plain(ss[n]) && NoMarks(ss[n])
  {
    if n == 0 {
      InitInv(ss[0]);
      PlainInit(ss[0]);
      forall f: nat ensures NoMark(ss[0], f) {}
    } else {
      ParkingInv(ss, steps, n - 1);
      assert StepsTo(ss[n - 1], steps[n - 1], ss[n]) && Parks(ss[n - 1], steps[n - 1]);
      ParkingStep(ss[n - 1], steps[n - 1]);
    }
  }

  // Without late resumptions, and with no token coming between a fiber's mark and
  // its swap-out, every run is careful.
  lemma ParkingRunIsCareful(ss: seq<State>, steps: seq<Step>)
    requires ParkingRun(ss, steps)
    ensures CarefulRun(ss, steps)
  {
    forall i | 0 <= i < |steps| ensures Careful(ss[i], steps[i]) {
      ParkingInv(ss, steps, i);
      assert StepsTo(ss[i], steps[i], ss[i + 1]) && Parks(ss[i], steps[i]);
      ParkingStep(ss[i], steps[i]);
    }
  }

  // --- the record of a run is true ---

  // The step consumes a token for a wait: one in store, or one handed to the
  // first fiber in line.
  predicate Grants(s: State, a: Step) {
    match a
    case EnterWait(_, _, _) => s.gate.wakeup > 0
    case TryWait(_) => s.gate.wakeup > 0
    case SwapOut(f) => s.Of(f).blocked && s.gate.wakeup > 0
    case Pop(_) => s.gate.line != [] && s.Of(s.gate.line[0]).wait.Inside?
    case _ => false
  }

  // The step consumes a token for no wait.
  predicate Eats(s: State, a: Step) {
    match a
    case Pop(_) => s.gate.line != [] && !s.Of(s.gate.line[0]).wait.Inside?
    case Yield(f) => s.Of(f).blocked && s.gate.wakeup > 0
    case _ => false
  }

  // The step parks its fiber.
  predicate ParksNow(s: State, a: Step) {
    (a.SwapOut? || a.Yield?) && s.Of(a.f).blocked && s.gate.wakeup == 0
  }

  // What the counts and tickets of a run say is what its steps did: accepted
  // wake-ups, tokens consumed for waits and for none, and parkings, each of which
  // puts its fiber last in line and gives up the thread.
  lemma RecordIsTrue(s: State, a: Step)
    requires Enabled(s, a)
    ensures var t := Apply(s, a);
            && t.capacity == s.capacity && t.gate.limit == s.gate.limit
            && t.woken == s.woken + ToInt(a.Pop? && (s.gate.line != [] || s.gate.wakeup < s.gate.limit))
            && t.granted == s.granted + ToInt(Grants(s, a))
            && t.eaten == s.eaten + ToInt(Eats(s, a))
            && |t.tickets| == |s.tickets| + ToInt(ParksNow(s, a))
            && (forall k :: 0 <= k < |s.tickets| ==> t.tickets[k].fiber == s.tickets[k].fiber)
            && (ParksNow(s, a) ==> t.tickets[|s.tickets|] == Ticket(a.f, InLine) && t.gate.line == s.gate.line + [a.f])
  {
  }

  // --- what undisturbed steps do together ---

  // A wait without a token: the fiber is off its thread, last in line, with its
  // timer if it asked for one.
  lemma WaitParks(s: State, f: Fid, timed: bool, timer: bool)
    requires Enabled(s, EnterWait(f, timed, timer)) && s.gate.wakeup == 0
    ensures var t := Apply(s, EnterWait(f, timed, timer));
            && Enabled(t, SwapOut(f))
            && var u := Apply(t, SwapOut(f));
            && u.gate == s.gate.(line := s.gate.line + [f]) && u.Of(f).wait == Inside(timed, timer)
            && u.Of(f).ready == s.Of(f).ready - 1 && u.Of(f).blocked && (timer ==> !u.Of(f).flag)
            && forall g: Fid :: g != f ==> u.Of(g) == s.Of(g)
  {
  }

  // A wait with one goes on at once, for exactly that token.
  lemma WaitGoesOn(s: State, f: Fid, timed: bool, timer: bool)
    requires Enabled(s, EnterWait(f, timed, timer)) && s.gate.wakeup > 0
    ensures var t := Apply(s, EnterWait(f, timed, timer));
            t.fibers == s.fibers && t.gate == s.gate.(wakeup := s.gate.wakeup - 1) && t.granted == s.granted + 1
  {
  }

  // The three parts of a wake-up: the first in line, found hung, is ready with
  // its token, and the thread is done.
  lemma WakeResumes(s: State, w: Tid)
    requires w !in s.hands && s.gate.line != [] && s.Of(s.gate.line[0]).IsBlocked()
    ensures var f := s.gate.line[0];
            var t := DoPop(s, w);
            && Enabled(t, Look(w))
            && var u := DoLook(t, w);
            && Enabled(u, Change(w))
            && var v := DoChange(u, w);
            && v.gate == s.gate.(line := s.gate.line[1..]) && v.hands == s.hands && v.Of(f).token
            && v.Of(f).ready == s.Of(f).ready + 1 && !v.Of(f).IsBlocked() && v.Of(f).wait == s.Of(f).wait
            && forall g: Fid :: g != f ==> v.Of(g) == s.Of(g)
  {
    var t := DoPop(s, w);
    assert t.hands == s.hands[w := Hand(s.gate.line[0], false)];
    assert DoChange(DoLook(t, w), w).hands == s.hands;
  }

  // And those of a timer: the fiber, found hung, is ready, flagged, and still in
  // line.
  lemma TimerResumes(s: State, w: Tid, f: Fid)
    requires Enabled(s, FireTimer(w, f)) && s.Of(f).IsBlocked()
    ensures var t := DoFireTimer(s, w, f);
            && Enabled(t, Look(w))
            && var u := DoLook(t, w);
            && Enabled(u, Change(w))
            && var v := DoChange(u, w);
            && v.gate == s.gate && v.hands == s.hands && v.Of(f).flag && !v.Of(f).wait.timer
            && v.Of(f).ready == s.Of(f).ready + 1 && !v.Of(f).IsBlocked()
            && forall g: Fid :: g != f ==> v.Of(g) == s.Of(g)
  {
    assert DoChange(DoLook(DoFireTimer(s, w, f), w), w).hands == s.hands;
  }

  // A wake-up or a timer that finds its fiber resumed already does nothing more.
  lemma LateLookDoesNothing(s: State, w: Tid)
    requires Enabled(s, Look(w)) && !s.Of(s.hands[w].f).IsBlocked()
    ensures DoLook(s, w) == s.(hands := s.hands - {w})
  {
  }

  // Back from the yield: the wait is over, a flag that was read is cleared, the
  // line has lost at most this fiber, in its place, and nobody else is touched.
  lemma ResumeEnds(s: State, f: Fid)
    requires Enabled(s, Resume(f))
    ensures var t := DoResume(s, f);
            && t.Of(f).wait == NoWait && !t.Of(f).token && t.Of(f).ready == s.Of(f).ready
            && t.Of(f).flag == (s.Of(f).flag && !(s.Of(f).wait.timed && s.Of(f).flag))
            && t.gate.line == (if s.Of(f).wait.timed && s.Of(f).flag then Without(s.gate.line, f) else s.gate.line)
            && t.gate.wakeup == s.gate.wakeup && t.hands == s.hands
            && forall g: Fid :: g != f ==> t.Of(g) == s.Of(g)
  {
  }

  // --- what the blocker promises ---

  // Over every run at all: what was there plus what was woken is what is stored,
  // what waits have consumed and what was taken for no wait; the store stays
  // within the limit, and a token is stored only while nobody is in line.
  lemma TokensCounted(s: State)
    requires Reachable(s)
    ensures s.capacity + s.woken == s.gate.wakeup + s.granted + s.eaten
    ensures s.gate.wakeup <= s.gate.limit && (0 < s.gate.wakeup ==> s.gate.line == [])
  {
    ReachableCounts(s);
  }

  // Over every careful run no token is taken for nothing.
  lemma TokensConserved(s: State)
    requires CarefullyReachable(s)
    ensures s.capacity + s.woken == s.gate.wakeup + s.granted
    ensures s.gate.wakeup <= s.gate.limit && (0 < s.gate.wakeup ==> s.gate.line == [])
  {
    CarefulInv(s);
  }

  // Of two fibers that parked, the later is not granted while the earlier is
  // still in line.
  lemma HandedInOrder(s: State, j: nat, k: nat)
    requires CarefullyReachable(s) && j < k < |s.tickets| && s.tickets[k].fate == Fate.Handed
    ensures s.tickets[j].fate != InLine
  {
    CarefulInv(s);
  }

  // The answer of a wait is the truth about its token: it ends with true exactly
  // when a token was consumed for it, and with false exactly when it leaves the
  // line without one, however timer and wake-up raced.
  lemma TimedWaitTruthful(s: State, f: Fid)
    requires CarefullyReachable(s) && Enabled(s, Resume(f))
    ensures ResumeResult(s, f) <==> s.fibers[f].token
    ensures !ResumeResult(s, f) <==> f in s.gate.line
    ensures f !in DoResume(s, f).gate.line
    ensures DoResume(s, f).gate.wakeup == s.gate.wakeup && DoResume(s, f).granted == s.granted
  {
    CarefulInv(s);
    assert FiberOk(s, f);
    ResumeIs(s, f);
    WithoutMembers(s.gate.line, f);
  }

  // No wake-up is lost: a fiber that was granted and still hangs is in the hand
  // of a thread that will look at it, find it blocked and resume it.
  lemma GrantedIsAnswered(s: State, f: Fid)
    requires CarefullyReachable(s) && f in s.fibers && s.fibers[f].wait.Inside? && s.fibers[f].ready == 0 && s.fibers[f].token
    ensures s.fibers[f].blocked && exists w :: w in s.hands && s.hands[w].f == f
  {
    CarefulInv(s);
    assert FiberOk(s, f) && Answered(s, f);
  }

  // A token is taken on the spot only when no fiber is waiting in line for it.
  lemma ImmediateGrantPassesNobody(s: State, a: Step)
    requires Reachable(s) && Enabled(s, a) && (a.EnterWait? || a.TryWait? || a.SwapOut?)
    requires Apply(s, a).granted != s.granted
    ensures s.gate.line == [] && Apply(s, a).gate.wakeup == s.gate.wakeup - 1
  {
    ReachableCounts(s);
  }
}
