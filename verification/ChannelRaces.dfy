/**
 * Three runs of an unbuffered channel that are not careful, moment by moment: a
 * yield inside `tryRead` parks a fiber on a blocker it no longer waits for, and a
 * token is lost; a thread that comes late to a fiber from a wait elsewhere
 * resumes it in the middle of a read.
 */
module ChannelRaces {
  import opened Blocker
  import opened ChannelRuns
  import opened Counting

  // The fibers are numbered from 0.
  function Scene(readTokens: nat, readers: seq<Fid>, writeTokens: nat, writers: seq<Fid>, data: seq<Value>, pcs: seq<Pc>,
                 delivered: seq<Value>, lost: nat := 0, marks: map<Fid, Side> := map[],
                 looks: multiset<Fid> := multiset{}, seen: multiset<Fid> := multiset{}): State {
    State(Gate(readTokens, UINT_MAX, readers), Gate(writeTokens, UINT_MAX, writers), data,
          map f | 0 <= f < |pcs| :: pcs[f], marks, looks, seen, 0, delivered, lost)
  }

  // Fiber 0 reads; a write by fiber 1 on another thread comes between its mark
  // and its swap-out, so it is granted there and left marked.  Fiber 2 writes and
  // is parked.  Fiber 0 goes on to tryRead: it wakes fiber 2, misses, and yields;
  // the yield parks it on the reader, where the token of fiber 2 finds it.
  function Spin(i: nat): State {
    match i
    case 0 => Scene(0, [], 0, [], [], [Idle, Idle, Idle], [])
    case 1 => Scene(0, [], 1, [], [], [ReadPosted, Idle, Idle], [])
    case 2 => Scene(0, [], 1, [], [], [ReadParking, Idle, Idle], [])
    case 3 => Scene(0, [], 0, [], [], [ReadParking, WriteGranted(7), Idle], [])
    case 4 => Scene(0, [], 0, [], [7], [ReadParking, WriteAdded, Idle], [])
    case 5 => Scene(1, [], 0, [], [7], [ReadParking, Idle, Idle], [])
    case 6 => Scene(0, [], 0, [], [7], [ReadGranted, Idle, Idle], [], marks := map[0 := Reader])
    case 7 => Scene(0, [], 0, [], [], [Idle, Idle, Idle], [7], marks := map[0 := Reader])
    case 8 => Scene(0, [], 0, [], [], [Idle, Idle, WriteParking(8)], [7], marks := map[0 := Reader])
    case 9 => Scene(0, [], 0, [2], [], [Idle, Idle, WriteParked(8)], [7], marks := map[0 := Reader])
    case 10 => Scene(0, [], 0, [], [], [TryPosted, Idle, WriteHanded(8)], [7], marks := map[0 := Reader], looks := multiset{2})
    case 11 => Scene(0, [], 0, [], [], [TryPosted, Idle, WriteHanded(8)], [7], marks := map[0 := Reader], seen := multiset{2})
    case 12 => Scene(0, [], 0, [], [], [TryPosted, Idle, WriteGranted(8)], [7], marks := map[0 := Reader])
    case 13 => Scene(0, [], 0, [], [], [TryMissed, Idle, WriteGranted(8)], [7], marks := map[0 := Reader])
    case 14 => Scene(0, [], 0, [], [], [TryYielded, Idle, WriteGranted(8)], [7], marks := map[0 := Reader])
    case 15 => Scene(0, [0], 0, [], [], [StrayReader(true), Idle, WriteGranted(8)], [7])
    case 16 => Scene(0, [0], 0, [], [8], [StrayReader(true), Idle, WriteAdded], [7])
    case 17 => Scene(0, [], 0, [], [8], [StrayHanded(true), Idle, Idle], [7], lost := 1, looks := multiset{0})
    case 18 => Scene(0, [], 0, [], [8], [StrayHanded(true), Idle, Idle], [7], lost := 1, seen := multiset{0})
    case _ => Scene(0, [], 0, [], [8], [TryPosted, Idle, Idle], [7], lost := 1)
  }

  function SpinStep(i: nat): Step {
    match i
    case 0 => Read(0)
    case 1 => ReaderWait(0)
    case 2 => Write(1, 7)
    case 3 => Add(1)
    case 4 => Signal(1)
    case 5 => ReaderSwapOut(0)
    case 6 => Poll(0)
    case 7 => Write(2, 8)
    case 8 => WriterSwapOut(2)
    case 9 => TryRead(0)
    case 10 => Look(2)
    case 11 => Change(2)
    case 12 => TryTake(0)
    case 13 => TryBack(0)
    case 14 => TryAgain(0)
    case 15 => Add(2)
    case 16 => Signal(2)
    case 17 => Look(0)
    case _ => Change(0)
  }

  lemma SpinReads(i: nat)
    requires i < 2
    ensures StepsTo(Spin(i), SpinStep(i), Spin(i + 1))
  {
  }

  lemma SpinWrites(i: nat)
    requires 2 <= i < 4
    ensures StepsTo(Spin(i), SpinStep(i), Spin(i + 1))
  {
  }

  lemma SpinSignals(i: nat)
    requires i == 4
    ensures StepsTo(Spin(i), SpinStep(i), Spin(i + 1))
  {
  }

  lemma SpinIsGranted(i: nat)
    requires i == 5
    ensures StepsTo(Spin(i), SpinStep(i), Spin(i + 1))
  {
  }

  lemma SpinPolls(i: nat)
    requires i == 6
    ensures StepsTo(Spin(i), SpinStep(i), Spin(i + 1))
  {
  }

  lemma SpinParks(i: nat)
    requires 7 <= i < 9
    ensures StepsTo(Spin(i), SpinStep(i), Spin(i + 1))
  {
  }

  lemma SpinTriesAgain(i: nat)
    requires i == 9
    ensures StepsTo(Spin(i), SpinStep(i), Spin(i + 1))
  {
  }

  lemma SpinLooks(i: nat)
    requires i == 10
    ensures StepsTo(Spin(i), SpinStep(i), Spin(i + 1))
  {
  }

  lemma SpinWakes(i: nat)
    requires i == 11
    ensures StepsTo(Spin(i), SpinStep(i), Spin(i + 1))
  {
  }

  lemma SpinMisses(i: nat)
    requires i == 12
    ensures StepsTo(Spin(i), SpinStep(i), Spin(i + 1))
  {
  }

  lemma SpinMissesBack(i: nat)
    requires i == 13
    ensures StepsTo(Spin(i), SpinStep(i), Spin(i + 1))
  {
  }

  lemma SpinStrays(i: nat)
    requires i == 14
    ensures StepsTo(Spin(i), SpinStep(i), Spin(i + 1))
  {
  }

  lemma SpinAdds(i: nat)
    requires i == 15
    ensures StepsTo(Spin(i), SpinStep(i), Spin(i + 1))
  {
  }

  lemma SpinLoses(i: nat)
    requires i == 16
    ensures StepsTo(Spin(i), SpinStep(i), Spin(i + 1))
  {
  }

  lemma SpinLooksBack(i: nat)
    requires i == 17
    ensures StepsTo(Spin(i), SpinStep(i), Spin(i + 1))
  {
  }

  lemma SpinResumes(i: nat)
    requires i == 18
    ensures StepsTo(Spin(i), SpinStep(i), Spin(i + 1))
  {
  }

  lemma SpinHop(i: nat)
    requires i < 19
    ensures StepsTo(Spin(i), SpinStep(i), Spin(i + 1))
  {
    if i < 2 { SpinReads(i); }
    else if i < 4 { SpinWrites(i); }
    else if i < 5 { SpinSignals(i); }
    else if i < 6 { SpinIsGranted(i); }
    else if i < 7 { SpinPolls(i); }
    else if i < 9 { SpinParks(i); }
    else if i < 10 { SpinTriesAgain(i); }
    else if i < 11 { SpinLooks(i); }
    else if i < 12 { SpinWakes(i); }
    else if i < 13 { SpinMisses(i); }
    else if i < 14 { SpinMissesBack(i); }
    else if i < 15 { SpinStrays(i); }
    else if i < 16 { SpinAdds(i); }
    else if i < 17 { SpinLoses(i); }
    else if i < 18 { SpinLooksBack(i); }
    else { SpinResumes(i); }
  }

  lemma SpinRun()
    ensures Reachable(Spin(19))
  {
    var ss, steps := seq(20, i requires 0 <= i < 20 => Spin(i)), seq(19, i requires 0 <= i < 19 => SpinStep(i));
    forall i | 0 <= i < 19 ensures StepsTo(ss[i], steps[i], ss[i + 1]) {
      SpinHop(i);
    }
    SpinStarts();
    assert Run(ss, steps) && ss[|steps|] == Spin(19);
  }

  lemma SpinStarts()
    ensures Init(Spin(0))
  {
    assert Spin(0).pcs.Keys == {0, 1, 2};
  }

  // The only careless step up to there is the yield.
  lemma SpinCareless(i: nat)
    requires i <= 14
    ensures Careful(Spin(i), SpinStep(i)) <==> i < 14
  {
  }

  // A read waits, no blocker has a token, no write is on its way, and an item
  // lies in the queue.
  ghost predicate Spinning(s: State, f: Fid) {
    && s.At(f, TryPosted) && s.reader.wakeup == 0 && s.writer.wakeup == 0 && s.data != []
    && forall g :: g in s.pcs ==> !InFlight(s.pcs[g])
  }

  lemma ReadCanSpin()
    ensures exists s, f :: Reachable(s) && Spinning(s, f)
  {
    SpinRun();
    SpinEnd();
  }

  lemma SpinEnd()
    ensures Spinning(Spin(19), 0)
  {
  }

  // Each turn of such a tryRead leads back to where it began, past the item.
  lemma SpinsInPlace(s: State, f: Fid)
    requires s.At(f, TryPosted) && s.reader.wakeup == 0 && s.writer.wakeup == 0 && f !in s.marks
    ensures Enabled(s, TryTake(f))
    ensures var s1 := Apply(s, TryTake(f));
            Enabled(s1, TryBack(f)) &&
            var s2 := Apply(s1, TryBack(f));
            Enabled(s2, TryAgain(f)) && Apply(s2, TryAgain(f)) == s
  {
    assert s.pcs[f := TryMissed][f := TryYielded][f := TryPosted] == s.pcs;
  }

  // Fiber 0 has waited elsewhere and timed out, with a thread still to resume it.
  // It reads and is parked; the thread finds it BLOCKED and resumes it, and it
  // finds no item.  The write of fiber 1 then wakes it up where it no longer waits.
  function Early(i: nat): State {
    match i
    case 0 => Scene(0, [], 0, [], [], [Idle, Idle], [])
    case 1 => Scene(0, [], 0, [], [], [Idle, Idle], [], looks := multiset{0})
    case 2 => Scene(0, [], 1, [], [], [ReadPosted, Idle], [], looks := multiset{0})
    case 3 => Scene(0, [], 1, [], [], [ReadParking, Idle], [], looks := multiset{0})
    case 4 => Scene(0, [0], 1, [], [], [ReadParked, Idle], [], looks := multiset{0})
    case 5 => Scene(0, [0], 1, [], [], [ReadParked, Idle], [], seen := multiset{0})
    case 6 => Scene(0, [0], 1, [], [], [ReadGranted, Idle], [])
    case 7 => Scene(0, [0], 1, [], [], [Idle, Idle], [])
    case 8 => Scene(0, [0], 0, [], [], [Idle, WriteGranted(7)], [])
    case 9 => Scene(0, [0], 0, [], [7], [Idle, WriteAdded], [])
    case _ => Scene(0, [], 0, [], [7], [Idle, Idle], [], lost := 1, looks := multiset{0})
  }

  function EarlyStep(i: nat): Step {
    match i
    case 0 => Elsewhere(0, true, false)
    case 1 => Read(0)
    case 2 => ReaderWait(0)
    case 3 => ReaderSwapOut(0)
    case 4 => Look(0)
    case 5 => Change(0)
    case 6 => Poll(0)
    case 7 => Write(1, 7)
    case 8 => Add(1)
    case _ => Signal(1)
  }

  lemma EarlySleeps(i: nat)
    requires i < 1
    ensures StepsTo(Early(i), EarlyStep(i), Early(i + 1))
  {
  }

  lemma EarlyReads(i: nat)
    requires i == 1
    ensures StepsTo(Early(i), EarlyStep(i), Early(i + 1))
  {
  }

  lemma EarlyWaits(i: nat)
    requires i == 2
    ensures StepsTo(Early(i), EarlyStep(i), Early(i + 1))
  {
  }

  lemma EarlyParks(i: nat)
    requires i == 3
    ensures StepsTo(Early(i), EarlyStep(i), Early(i + 1))
  {
  }

  lemma EarlyLooks(i: nat)
    requires i == 4
    ensures StepsTo(Early(i), EarlyStep(i), Early(i + 1))
  {
  }

  lemma EarlyComes(i: nat)
    requires i == 5
    ensures StepsTo(Early(i), EarlyStep(i), Early(i + 1))
  {
  }

  lemma EarlyMisses(i: nat)
    requires i == 6
    ensures StepsTo(Early(i), EarlyStep(i), Early(i + 1))
  {
  }

  lemma EarlyWrites(i: nat)
    requires i == 7
    ensures StepsTo(Early(i), EarlyStep(i), Early(i + 1))
  {
  }

  lemma EarlyAdds(i: nat)
    requires i == 8
    ensures StepsTo(Early(i), EarlyStep(i), Early(i + 1))
  {
  }

  lemma EarlyLoses(i: nat)
    requires i == 9
    ensures StepsTo(Early(i), EarlyStep(i), Early(i + 1))
  {
  }

  lemma EarlyHop(i: nat)
    requires i < 10
    ensures StepsTo(Early(i), EarlyStep(i), Early(i + 1))
  {
    if i < 1 { EarlySleeps(i); }
    else if i < 2 { EarlyReads(i); }
    else if i < 3 { EarlyWaits(i); }
    else if i < 4 { EarlyParks(i); }
    else if i < 5 { EarlyLooks(i); }
    else if i < 6 { EarlyComes(i); }
    else if i < 7 { EarlyMisses(i); }
    else if i < 8 { EarlyWrites(i); }
    else if i < 9 { EarlyAdds(i); }
    else { EarlyLoses(i); }
  }

  lemma EarlyRun()
    ensures Reachable(Early(10))
  {
    var ss, steps := seq(11, i requires 0 <= i < 11 => Early(i)), seq(10, i requires 0 <= i < 10 => EarlyStep(i));
    forall i | 0 <= i < 10 ensures StepsTo(ss[i], steps[i], ss[i + 1]) {
      EarlyHop(i);
    }
    EarlyStarts();
    assert Run(ss, steps) && ss[|steps|] == Early(10);
  }

  lemma EarlyStarts()
    ensures Init(Early(0))
  {
    assert Early(0).pcs.Keys == {0, 1};
  }

  // The first careless step is the late thread's look.
  lemma EarlyCareless(i: nat)
    requires i <= 4
    ensures Careful(Early(i), EarlyStep(i)) <==> i < 4
  {
  }

  // An item lies in the queue of a channel without capacity, and nobody reads.
  ghost predicate Overfull(s: State) {
    |s.data| > s.capacity + Count(s.pcs, Posted) + Count(s.pcs, Granted)
  }

  lemma ReadCanComeEarly()
    ensures exists s :: Reachable(s) && Overfull(s) && s.reader.wakeup == 0 && s.writer.wakeup == 0
  {
    EarlyRun();
    EarlyEnd();
  }

  lemma EarlyEnd()
    ensures Overfull(Early(10)) && Early(10).reader.wakeup == 0 && Early(10).writer.wakeup == 0
  {
    CountAll(Early(10).pcs, Posted);
    CountAll(Early(10).pcs, Granted);
  }

  // Fiber 2 reads and is parked, then fiber 0, late thread and all.  The write of
  // fiber 1 hands fiber 2 its token, but the late thread resumes fiber 0 first.
  function Thief(i: nat): State {
    match i
    case 0 => Scene(0, [], 0, [], [], [Idle, Idle, Idle], [])
    case 1 => Scene(0, [], 0, [], [], [Idle, Idle, Idle], [], looks := multiset{0})
    case 2 => Scene(0, [], 1, [], [], [Idle, Idle, ReadPosted], [], looks := multiset{0})
    case 3 => Scene(0, [], 1, [], [], [Idle, Idle, ReadParking], [], looks := multiset{0})
    case 4 => Scene(0, [2], 1, [], [], [Idle, Idle, ReadParked], [], looks := multiset{0})
    case 5 => Scene(0, [2], 2, [], [], [ReadPosted, Idle, ReadParked], [], looks := multiset{0})
    case 6 => Scene(0, [2], 2, [], [], [ReadParking, Idle, ReadParked], [], looks := multiset{0})
    case 7 => Scene(0, [2, 0], 2, [], [], [ReadParked, Idle, ReadParked], [], looks := multiset{0})
    case 8 => Scene(0, [2, 0], 1, [], [], [ReadParked, WriteGranted(7), ReadParked], [], looks := multiset{0})
    case 9 => Scene(0, [2, 0], 1, [], [7], [ReadParked, WriteAdded, ReadParked], [], looks := multiset{0})
    case 10 => Scene(0, [0], 1, [], [7], [ReadParked, Idle, ReadHanded], [], looks := multiset{0, 2})
    case 11 => Scene(0, [0], 1, [], [7], [ReadParked, Idle, ReadHanded], [], looks := multiset{2}, seen := multiset{0})
    case 12 => Scene(0, [0], 1, [], [7], [ReadGranted, Idle, ReadHanded], [], looks := multiset{2})
    case 13 => Scene(0, [0], 1, [], [], [Idle, Idle, ReadHanded], [7], looks := multiset{2})
    case 14 => Scene(0, [0], 1, [], [], [Idle, Idle, ReadHanded], [7], seen := multiset{2})
    case _ => Scene(0, [0], 1, [], [], [Idle, Idle, ReadGranted], [7])
  }

  function ThiefStep(i: nat): Step {
    match i
    case 0 => Elsewhere(0, true, false)
    case 1 => Read(2)
    case 2 => ReaderWait(2)
    case 3 => ReaderSwapOut(2)
    case 4 => Read(0)
    case 5 => ReaderWait(0)
    case 6 => ReaderSwapOut(0)
    case 7 => Write(1, 7)
    case 8 => Add(1)
    case 9 => Signal(1)
    case 10 => Look(0)
    case 11 => Change(0)
    case 12 => Poll(0)
    case 13 => Look(2)
    case _ => Change(2)
  }

  lemma ThiefSleeps(i: nat)
    requires i < 1
    ensures StepsTo(Thief(i), ThiefStep(i), Thief(i + 1))
  {
  }

  lemma ThiefReads(i: nat)
    requires i == 1
    ensures StepsTo(Thief(i), ThiefStep(i), Thief(i + 1))
  {
  }

  lemma ThiefWaits(i: nat)
    requires i == 2
    ensures StepsTo(Thief(i), ThiefStep(i), Thief(i + 1))
  {
  }

  lemma ThiefParks(i: nat)
    requires i == 3
    ensures StepsTo(Thief(i), ThiefStep(i), Thief(i + 1))
  {
  }

  lemma ThiefFollows(i: nat)
    requires 4 <= i < 6
    ensures StepsTo(Thief(i), ThiefStep(i), Thief(i + 1))
  {
  }

  lemma ThiefJoins(i: nat)
    requires i == 6
    ensures StepsTo(Thief(i), ThiefStep(i), Thief(i + 1))
  {
  }

  lemma ThiefWrites(i: nat)
    requires 7 <= i < 9
    ensures StepsTo(Thief(i), ThiefStep(i), Thief(i + 1))
  {
  }

  lemma ThiefPops(i: nat)
    requires i == 9
    ensures StepsTo(Thief(i), ThiefStep(i), Thief(i + 1))
  {
  }

  lemma ThiefLooks(i: nat)
    requires i == 10
    ensures StepsTo(Thief(i), ThiefStep(i), Thief(i + 1))
  {
  }

  lemma ThiefComes(i: nat)
    requires i == 11
    ensures StepsTo(Thief(i), ThiefStep(i), Thief(i + 1))
  {
  }

  lemma ThiefTakes(i: nat)
    requires i == 12
    ensures StepsTo(Thief(i), ThiefStep(i), Thief(i + 1))
  {
  }

  lemma ThiefLooksBack(i: nat)
    requires i == 13
    ensures StepsTo(Thief(i), ThiefStep(i), Thief(i + 1))
  {
  }

  lemma ThiefResumes(i: nat)
    requires i == 14
    ensures StepsTo(Thief(i), ThiefStep(i), Thief(i + 1))
  {
  }

  lemma ThiefHop(i: nat)
    requires i < 15
    ensures StepsTo(Thief(i), ThiefStep(i), Thief(i + 1))
  {
    if i < 1 { ThiefSleeps(i); }
    else if i < 2 { ThiefReads(i); }
    else if i < 3 { ThiefWaits(i); }
    else if i < 4 { ThiefParks(i); }
    else if i < 6 { ThiefFollows(i); }
    else if i < 7 { ThiefJoins(i); }
    else if i < 9 { ThiefWrites(i); }
    else if i < 10 { ThiefPops(i); }
    else if i < 11 { ThiefLooks(i); }
    else if i < 12 { ThiefComes(i); }
    else if i < 13 { ThiefTakes(i); }
    else if i < 14 { ThiefLooksBack(i); }
    else { ThiefResumes(i); }
  }

  lemma ThiefRun()
    ensures Reachable(Thief(15))
  {
    var ss, steps := seq(16, i requires 0 <= i < 16 => Thief(i)), seq(15, i requires 0 <= i < 15 => ThiefStep(i));
    forall i | 0 <= i < 15 ensures StepsTo(ss[i], steps[i], ss[i + 1]) {
      ThiefHop(i);
    }
    ThiefStarts();
    assert Run(ss, steps) && ss[|steps|] == Thief(15);
  }

  lemma ThiefStarts()
    ensures Init(Thief(0))
  {
    assert Thief(0).pcs.Keys == {0, 1, 2};
  }

  // The first careless step is the late thread's look.
  lemma ThiefCareless(i: nat)
    requires i <= 10
    ensures Careful(Thief(i), ThiefStep(i)) <==> i < 10
  {
  }

  // A reader with its token finds the queue empty.
  lemma GrantedReaderCanMiss()
    ensures exists s, f :: Reachable(s) && Enabled(s, Poll(f)) && s.data == [] && s.lost == 0
  {
    ThiefRun();
    ThiefEnd();
  }

  lemma ThiefEnd()
    ensures Enabled(Thief(15), Poll(2)) && Thief(15).data == [] && Thief(15).lost == 0
  {
  }
}
