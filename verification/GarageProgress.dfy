/** Deadlock freedom, termination and the closing count of whole runs. */
module GarageProgress {
  import opened CarQueue
  import opened GarageModel
  import opened GarageInvariants
  import opened GarageRuns
  import opened Wrappers

  // ----- deadlock freedom -----

  predicate HasEnded(pc: Pc) {
    pc == Finished || pc == Failed
  }

  /** Created, and not yet ended. */
  predicate Underway(pc: Pc) {
    pc != NotCreated && pc != FailPost && !HasEnded(pc)
  }

  ghost predicate NoCarMoves(s: State) {
    forall i: nat :: !CarEnabled(s, i)
  }

  /** The holder of a mutex can move, so when nobody moves every mutex is free. */
  lemma StuckMutexesAreFree(c: Config, s: State)
    requires QueueOwned(s) && StationOk(c, s, Mechanics) && StationOk(c, s, Testers) && NoCarMoves(s)
    ensures s.queueOwner == None && s.mechanicOwner == None && s.testerOwner == None
  {
    if s.queueOwner.Some? {
      assert CarEnabled(s, s.queueOwner.value);
    }
    if s.mechanicOwner.Some? {
      var i := s.mechanicOwner.value;
      assert InSection(Phases(s.cars, Mechanics)[i]);
      assert CarEnabled(s, i);
    }
    if s.testerOwner.Some? {
      var i := s.testerOwner.value;
      assert InSection(Phases(s.cars, Testers)[i]);
      assert CarEnabled(s, i);
    }
  }

  /** If nobody in the state holds a unit of r, then nobody is blocked on r. */
  lemma FreeResourceBlocksNobody(c: Config, s: State, r: Resource)
    requires Positive(c) && Conserved(c, s) && NoCarMoves(s) && r != Slots
    requires forall i :: 0 <= i < |s.cars| ==> !HoldsUnit(s.cars[i].pc, r)
    ensures forall i :: 0 <= i < |s.cars| ==> WaitsFor(s.cars[i].pc) != Some(r)
  {
    TotalZero(s.cars, Holds(r));
    assert s.sems.Get(r) + ManagerHolds(s.manager, r) + Total(s.cars, Holds(r)) == Capacity(c, r);
    forall i | 0 <= i < |s.cars| ensures WaitsFor(s.cars[i].pc) != Some(r) {
      if WaitsFor(s.cars[i].pc) == Some(r) {
        assert CarEnabled(s, i);
      }
    }
  }

  /** The stations drain from the exit backwards: with every mutex free and no car able to
      move, no car is anywhere between admission and exit. */
  lemma StuckGarageIsEmpty(c: Config, s: State)
    requires Positive(c) && Conserved(c, s) && NoCarMoves(s)
    requires s.queueOwner == None && s.mechanicOwner == None && s.testerOwner == None
    ensures forall i :: 0 <= i < |s.cars| ==>
      s.cars[i].pc == NotCreated || s.cars[i].pc == FailPost || HasEnded(s.cars[i].pc)
      || (s.cars[i].pc == AwaitAdmission && s.cars[i].sem == 0)
  {
    forall i | 0 <= i < |s.cars|
      ensures StuckAt(s.cars[i])
    {
      assert !CarEnabled(s, i);
    }
    FreeResourceBlocksNobody(c, s, Box);
    FreeResourceBlocksNobody(c, s, Worker);
    FreeResourceBlocksNobody(c, s, Transfer);
    FreeResourceBlocksNobody(c, s, Wrench);
    FreeResourceBlocksNobody(c, s, Tablet);
    FreeResourceBlocksNobody(c, s, Mechanic);
  }

  predicate StuckAt(car: Car) {
    || car.pc == NotCreated || car.pc == FailPost || HasEnded(car.pc)
    || (car.pc == AwaitAdmission && car.sem == 0)
    || WaitsFor(car.pc).Some?
  }

  /** With nobody between admission and exit, a waiting car is enough to let the manager move. */
  lemma WaitingCarFreesManager(c: Config, s: State, i: nat)
    requires Positive(c) && Conserved(c, s) && TicketsMatch(s) && QueueExact(s) && Handover(s)
    requires s.queueOwner == None && i < |s.cars| && s.cars[i].pc == AwaitAdmission
    requires forall j :: 0 <= j < |s.cars| ==>
      s.cars[j].sem == 0 && !Inside(s.cars[j].pc) && s.cars[j].pc != QueuePost
    ensures ManagerEnabled(s)
  {
    match s.manager
    case WaitSlots =>
      TotalZero(s.cars, Holds(Slots));
      assert s.sems.Get(Slots) + ManagerHolds(s.manager, Slots) + Total(s.cars, Holds(Slots)) == Capacity(c, Slots);
    case WaitQueue =>
      TotalZero(s.cars, Unannounced);
      assert Waiting(s, i);
      assert Has(s.queue, i);
    case _ =>
  }

  /** In every reachable state with a car under way, a car or the manager can move; the
      creator, main and the monitor are not needed for that. */
  lemma NeverDeadlocked(c: Config, s: State, i: nat)
    requires Positive(c) && Inv(c, s)
    requires i < |s.cars| && Underway(s.cars[i].pc)
    ensures ManagerEnabled(s) || exists j: nat :: CarEnabled(s, j)
  {
    hide StationOk, CarEnabled, QueueExact, QueueOwned, TicketsMatch, DoneMatches, Conserved, Handover, ManagerEnabled;
    if NoCarMoves(s) {
      StuckMutexesAreFree(c, s);
      StuckGarageIsEmpty(c, s);
      assert forall j :: 0 <= j < |s.cars| ==> s.cars[j].sem == 0;
      WaitingCarFreesManager(c, s, i);
    }
  }

  // ----- termination -----

  function ManagerRank(m: ManagerPc): nat {
    match m
    case WaitQueue => 0
    case WaitSlots => 3
    case PopQueue => 2
    case PostCar(_) => 1
    case ReturnSlot => 1
  }

  /** The steps that the creator, the cars, the manager and main can still take, at most. */
  function Remaining(c: Config, s: State): int {
    Total(s.cars, Rank(c.mechanics, c.testers)) + 5 * s.queueSem + ManagerRank(s.manager) + (c.cars - s.waited)
  }

  predicate Progress(l: Label) {
    !l.MonitorPass?
  }

  lemma PcRankDrops(pc: Pc, m: nat, t: nat)
    requires WaitsFor(pc).Some? || PostsTo(pc).Some?
    ensures RankOf(Following(pc), m, t) < RankOf(pc, m, t)
  {
  }

  lemma SharedRankDrops(c: Config, s: State, i: nat)
    requires Shape(c, s) && CarEnabled(s, i)
    requires WaitsFor(s.cars[i].pc).None? && PostsTo(s.cars[i].pc).None?
    ensures RankOf(SharedNext(c, s, i).cars[i].pc, c.mechanics, c.testers) + 5 * SharedNext(c, s, i).queueSem
          < RankOf(s.cars[i].pc, c.mechanics, c.testers) + 5 * s.queueSem
  {
    if s.cars[i].pc.ScanMechanic? || s.cars[i].pc.ScanTester? {
      ScanRankDrops(c, s, i);
    } else {
      StraightRankDrops(c, s, i);
    }
    hide SharedNext, CarEnabled, RankOf, Shape;
  }

  lemma ScanRankDrops(c: Config, s: State, i: nat)
    requires Shape(c, s) && CarEnabled(s, i) && (s.cars[i].pc.ScanMechanic? || s.cars[i].pc.ScanTester?)
    ensures RankOf(SharedNext(c, s, i).cars[i].pc, c.mechanics, c.testers) < RankOf(s.cars[i].pc, c.mechanics, c.testers)
    ensures SharedNext(c, s, i).queueSem == s.queueSem
  {
  }

  lemma StraightRankDrops(c: Config, s: State, i: nat)
    requires CarEnabled(s, i) && !s.cars[i].pc.ScanMechanic? && !s.cars[i].pc.ScanTester?
    requires WaitsFor(s.cars[i].pc).None? && PostsTo(s.cars[i].pc).None?
    ensures RankOf(SharedNext(c, s, i).cars[i].pc, c.mechanics, c.testers) + 5 * SharedNext(c, s, i).queueSem
          < RankOf(s.cars[i].pc, c.mechanics, c.testers) + 5 * s.queueSem
  {
  }

  lemma CarStepDecreases(c: Config, s: State, i: nat)
    requires Shape(c, s) && CarEnabled(s, i)
    ensures Remaining(c, CarNext(c, s, i)) < Remaining(c, s)
  {
    var s', pc := CarNext(c, s, i), s.cars[i].pc;
    CarStepFrame(c, s, i);
    TotalUpdate(s.cars, i, s'.cars[i], Rank(c.mechanics, c.testers));
    if WaitsFor(pc).Some? || PostsTo(pc).Some? {
      PcRankDrops(pc, c.mechanics, c.testers);
      hide RankOf, Following, SharedNext, HoldsUnit;
    } else {
      SharedRankDrops(c, s, i);
      hide RankOf, Following, SharedNext, HoldsUnit;
    }
  }

  lemma ManagerStepDecreases(c: Config, s: State)
    requires ManagerEnabled(s)
    ensures Remaining(c, ManagerNext(s)) < Remaining(c, s)
  {
    if s.manager.PostCar? {
      var j, s' := s.manager.car, ManagerNext(s);
      TotalUpdate(s.cars, j, s'.cars[j], Rank(c.mechanics, c.testers));
      hide RankOf;
    }
  }

  lemma CreatorStepDecreases(c: Config, s: State, l: Label)
    requires Shape(c, s) && CreatorLabel(l) && Enabled(c, s, l)
    ensures Remaining(c, Next(c, s, l)) < Remaining(c, s)
  {
    var s' := Next(c, s, l);
    TotalUpdate(s.cars, s.next, s'.cars[s.next], Rank(c.mechanics, c.testers));
    hide Shape;
  }

  /** Every step but the monitor's makes the measure smaller; the monitor's leaves it alone. */
  lemma StepDecreases(c: Config, s: State, l: Label)
    requires Shape(c, s) && Enabled(c, s, l)
    ensures Progress(l) ==> Remaining(c, Next(c, s, l)) < Remaining(c, s)
    ensures !Progress(l) ==> Remaining(c, Next(c, s, l)) == Remaining(c, s)
  {
    match l
    case CarStep(i) => CarStepDecreases(c, s, i);
    case ManagerStep => ManagerStepDecreases(c, s);
    case MainStep => hide Shape;
    case MonitorPass(_) => hide Shape;
    case _ =>
      assert CreatorLabel(l);
      CreatorStepDecreases(c, s, l);
  }

  lemma RemainingIsNonnegative(c: Config, s: State)
    requires Shape(c, s)
    ensures Remaining(c, s) >= 0
  {
  }

  function ProgressSteps(ls: seq<Label>): nat {
    if ls == [] then 0 else (if Progress(ls[0]) then 1 else 0) + ProgressSteps(ls[1..])
  }

  lemma {:induction false} RunSpendsRemaining(c: Config, s: State, ls: seq<Label>)
    requires Inv(c, s) && IsRun(c, s, ls)
    ensures ProgressSteps(ls) + Remaining(c, After(c, s, ls)) <= Remaining(c, s)
    decreases |ls|
  {
    if ls != [] {
      StepDecreases(c, s, ls[0]);
      StepKeepsInv(c, s, ls[0]);
      RunSpendsRemaining(c, Next(c, s, ls[0]), ls[1..]);
    }
  }

  lemma InitRemaining(c: Config)
    ensures Remaining(c, Init(c)) == c.cars * (37 + c.mechanics + c.testers)
  {
    var w := 36 + c.mechanics + c.testers;
    TotalOfUniform(Init(c).cars, Rank(c.mechanics, c.testers), w);
    assert c.cars * (w + 1) == c.cars * w + c.cars;
  }

  /** No run from the start, whatever the schedule, the clock and the draw, makes more than
      this many steps outside the monitor. */
  lemma RunsAreBounded(c: Config, ls: seq<Label>)
    requires IsRun(c, Init(c), ls)
    ensures ProgressSteps(ls) <= c.cars * (37 + c.mechanics + c.testers)
  {
    InitHolds(c);
    InitRemaining(c);
    RunSpendsRemaining(c, Init(c), ls);
    RunKeepsInv(c, Init(c), ls);
    RemainingIsNonnegative(c, After(c, Init(c), ls));
  }

  // ----- how runs end -----

  /** Only the monitor can still step. */
  ghost predicate Quiet(c: Config, s: State) {
    forall l :: Progress(l) ==> !Enabled(c, s, l)
  }

  lemma QuietMeansAllEnded(c: Config, s: State)
    requires Positive(c) && Inv(c, s) && Quiet(c, s)
    ensures s.next == c.cars
    ensures forall i :: 0 <= i < |s.cars| ==> HasEnded(s.cars[i].pc) && s.cars[i].sem == 0
  {
    assert !Enabled(c, s, CreateFails(0, 0)) && !Enabled(c, s, CreatorPosts);
    forall i | 0 <= i < |s.cars| ensures HasEnded(s.cars[i].pc) {
      if Underway(s.cars[i].pc) {
        NeverDeadlocked(c, s, i);
        assert !Enabled(c, s, ManagerStep);
        forall j: nat ensures !CarEnabled(s, j) { assert !Enabled(c, s, CarStep(j)); }
      }
    }
  }

  /** With every car ended nobody counts for anything but having ended. */
  lemma EndedCarsHoldNothing(s: State, t: Tally)
    requires forall i :: 0 <= i < |s.cars| ==> HasEnded(s.cars[i].pc) && s.cars[i].sem == 0
    ensures t == Ended ==> Total(s.cars, t) == |s.cars|
    ensures !t.Rank? && t != Ended ==> Total(s.cars, t) == 0
  {
    if t == Ended {
      TotalOfUniform(s.cars, t, 1);
    } else if !t.Rank? {
      TotalZero(s.cars, t);
    }
  }

  lemma NobodyWaitsInAnEmptyQueue(s: State)
    requires QueueExact(s)
    ensures s.queue == [] <==> forall i: nat :: !Waiting(s, i)
  {
    if s.queue != [] {
      assert Has(s.queue, s.queue[0].id);
    }
  }

  lemma QuietQueueIsEmpty(c: Config, s: State)
    requires Positive(c) && Inv(c, s) && Quiet(c, s)
    ensures s.queue == [] && s.queueSem == 0 && s.manager == WaitQueue
  {
    hide Shape, StationOk, Conserved, DoneMatches, QueueOwned, QueueExact, Waiting;
    QuietMeansAllEnded(c, s);
    EndedCarsHoldNothing(s, Unannounced);
    NobodyWaitsInAnEmptyQueue(s);
    forall i: nat ensures !Waiting(s, i) {
      EndedIsNotWaiting(s, i);
    }
    assert !Enabled(c, s, ManagerStep);
  }

  lemma EndedIsNotWaiting(s: State, i: nat)
    requires i < |s.cars| ==> HasEnded(s.cars[i].pc)
    ensures !Waiting(s, i)
  {
  }

  lemma QuietReturnsEverything(c: Config, s: State)
    requires Positive(c) && Inv(c, s) && Quiet(c, s)
    ensures forall r :: s.sems.Get(r) == Capacity(c, r)
    ensures Busy(s.mechanicFree) == 0 && Busy(s.testerFree) == 0
  {
    QuietMeansAllEnded(c, s);
    QuietQueueIsEmpty(c, s);
    hide Shape, QueueExact, QueueOwned, TicketsMatch, Handover, DoneMatches, Quiet;
    EndedCarsHoldNothing(s, Claimed(Mechanics));
    EndedCarsHoldNothing(s, Claimed(Testers));
    assert Free(s, Mechanics) == s.mechanicFree && Free(s, Testers) == s.testerFree;
    forall r ensures s.sems.Get(r) == Capacity(c, r) {
      EndedCarsHoldNothing(s, Holds(r));
      assert s.sems.Get(r) + ManagerHolds(s.manager, r) + Total(s.cars, Holds(r)) == Capacity(c, r);
    }
  }

  lemma QuietCounts(c: Config, s: State)
    requires Positive(c) && Inv(c, s) && Quiet(c, s)
    ensures s.waited == c.cars && s.doneSem == 0
  {
    hide StationOk, Conserved, QueueExact, QueueOwned, TicketsMatch, Handover, Weight, CarEnabled, ManagerEnabled;
    QuietMeansAllEnded(c, s);
    EndedCarsHoldNothing(s, Ended);
    assert !Enabled(c, s, MainStep);
  }

  lemma QuietPopped(c: Config, s: State, i: nat)
    requires Positive(c) && Inv(c, s) && Quiet(c, s)
    ensures i in s.popped <==> i < c.cars && s.cars[i].pc == Finished
  {
    QuietMeansAllEnded(c, s);
    assert i in s.popped <==> Admitted(s, i);
    hide StationOk, Conserved, QueueExact, QueueOwned, TicketsMatch, DoneMatches, Handover, Quiet;
  }

  /** A run that only the monitor could continue has closed the institute: main has waited
      for exactly K posts and no post is left over, every resource and every worker is back,
      the queue is empty, and the cars the queue handed out are those that finished. */
  lemma QuietMeansClosed(c: Config, s: State)
    requires Positive(c) && Inv(c, s) && Quiet(c, s)
    ensures s.waited == c.cars && s.doneSem == 0
    ensures forall r :: s.sems.Get(r) == Capacity(c, r)
    ensures s.queue == [] && s.queueSem == 0 && s.manager == WaitQueue
    ensures Busy(s.mechanicFree) == 0 && Busy(s.testerFree) == 0
    ensures forall i: nat :: i in s.popped <==> i < c.cars && s.cars[i].pc == Finished
  {
    assert |s.cars| == c.cars;
    hide Inv, Quiet;
    QuietQueueIsEmpty(c, s);
    QuietReturnsEverything(c, s);
    QuietCounts(c, s);
    forall i: nat ensures i in s.popped <==> i < c.cars && s.cars[i].pc == Finished {
      QuietPopped(c, s, i);
    }
  }

  /** From every reachable state the institute can still be closed: some schedule of
      progress steps leads to a quiet state. */
  lemma {:induction false} CanAlwaysClose(c: Config, s: State) returns (ls: seq<Label>)
    requires Positive(c) && Inv(c, s)
    ensures IsRun(c, s, ls) && Quiet(c, After(c, s, ls))
    decreases Remaining(c, s)
  {
    RemainingIsNonnegative(c, s);
    if Quiet(c, s) {
      ls := [];
    } else {
      var l :| Progress(l) && Enabled(c, s, l);
      StepDecreases(c, s, l);
      StepKeepsInv(c, s, l);
      var rest := CanAlwaysClose(c, Next(c, s, l));
      ls := [l] + rest;
      assert ls[1..] == rest;
    }
  }

  /** Every run from the start can be completed, and every completed run has delivered
      exactly one post per car and let main finish its loop, creation failures included. */
  lemma EveryRunCloses(c: Config, ls: seq<Label>) returns (more: seq<Label>)
    requires Positive(c) && IsRun(c, Init(c), ls)
    ensures IsRun(c, Init(c), ls + more)
    ensures var t := After(c, Init(c), ls + more);
      Quiet(c, t) && t.waited == c.cars && t.doneSem == 0 && t.queue == []
    ensures ProgressSteps(ls + more) <= c.cars * (37 + c.mechanics + c.testers)
  {
    hide Inv, Quiet;
    InitHolds(c);
    RunKeepsInv(c, Init(c), ls);
    more := CanAlwaysClose(c, After(c, Init(c), ls));
    RunsCompose(c, Init(c), ls, more);
    RunKeepsInv(c, Init(c), ls + more);
    QuietMeansClosed(c, After(c, Init(c), ls + more));
    RunsAreBounded(c, ls + more);
  }

  /** While a car is under way in a reachable state, a car or the manager can move. */
  lemma CarsNeverDeadlock(c: Config, s: State, i: nat)
    requires Positive(c) && Reachable(c, s)
    requires i < |s.cars| && Underway(s.cars[i].pc)
    ensures Enabled(c, s, ManagerStep) || exists j: nat :: Enabled(c, s, CarStep(j))
  {
    ReachableInv(c, s);
    NeverDeadlocked(c, s, i);
    if j: nat :| CarEnabled(s, j) {
      assert Enabled(c, s, CarStep(j));
    }
  }
}
