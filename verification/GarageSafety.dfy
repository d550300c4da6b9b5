/** What the invariant means for the garage, in the words of its comments. */
module GarageSafety {
  import opened CarQueue
  import opened GarageModel
  import opened GarageInvariants
  import opened GarageRuns

  /** No two cars ever work with the same mechanic or tester, and none with one that does not
      exist, although release stores interleave with scans. */
  lemma WorkersAreNeverShared(c: Config, s: State, st: Station, i: nat)
    requires Reachable(c, s) && i < |s.cars|
    ensures WorkerOf(s.cars[i].pc, st) <= |Free(s, st)|
    ensures forall j :: 0 <= j < |s.cars| && j != i && WorkerOf(s.cars[i].pc, st) > 0 ==>
      WorkerOf(s.cars[j].pc, st) != WorkerOf(s.cars[i].pc, st)
  {
    ReachableInv(c, s);
    var ps := Phases(s.cars, st);
    assert StationOk(c, s, st);
    hide Inv, StationOk;
    forall j | 0 <= j < |s.cars| && j != i && WorkerOf(s.cars[i].pc, st) > 0
      ensures WorkerOf(s.cars[j].pc, st) != WorkerOf(s.cars[i].pc, st)
    {
      assert WorkerIn(ps[i]) != WorkerIn(ps[j]);
    }
  }

  /** No car is ever in a branch for "no worker despite the semaphore", at the mechanics for any
      constants, at the testers when they are enough. */
  lemma NobodyComesAwayEmptyHanded(c: Config, s: State, st: Station, i: nat)
    requires Reachable(c, s) && i < |s.cars| && Sure(c, st)
    ensures PhaseOf(s.cars[i].pc, st) != EmptyHanded && PhaseOf(s.cars[i].pc, st) != Leaving(-1)
  {
    ReachableInv(c, s);
    assert StationOk(c, s, st);
    assert PhaseOk(true, Phases(s.cars, st)[i], Free(s, st));
    hide StationOk, Inv;
  }

  /** Free places, the manager's place and the cars inside make up the capacity, so the
      institute is never overfull; and the same for every other resource. */
  lemma NeverOverCapacity(c: Config, s: State, r: Resource)
    requires Reachable(c, s)
    ensures s.sems.Get(r) + ManagerHolds(s.manager, r) + Total(s.cars, Holds(r)) == Capacity(c, r)
    ensures InHands(s.cars, r) <= Capacity(c, r)
  {
    ReachableInv(c, s);
    HandsAreCounted(s.cars, r);
    hide StationOk, QueueExact, Handover;
  }

  /** The number of cars that hold a unit of r, counted without weights. */
  function InHands(cars: seq<Car>, r: Resource): nat {
    if cars == [] then 0
    else InHands(cars[..|cars| - 1], r) + (if HoldsUnit(cars[|cars| - 1].pc, r) then 1 else 0)
  }

  lemma {:induction false} HandsAreCounted(cars: seq<Car>, r: Resource)
    ensures InHands(cars, r) <= Total(cars, Holds(r))
  {
    if cars != [] {
      HandsAreCounted(cars[..|cars| - 1], r);
    }
  }

  /** pq_pop is never called on an empty queue and pq_insert never on a full one. */
  lemma QueueBranchesUnreachable(c: Config, s: State, i: nat)
    requires Reachable(c, s)
    ensures s.manager == PopQueue ==> s.queue != []
    ensures s.manager != ReturnSlot
    ensures i < |s.cars| && s.cars[i].pc == Insert ==> |s.queue| < c.cars
  {
    ReachableInv(c, s);
    if s.manager == PopQueue {
      PopFindsCar(s);
    }
    if i < |s.cars| && s.cars[i].pc == Insert {
      QueueHasRoom(c, s, i);
    }
  }

  /** The queue is sorted and duplicate-free, holds exactly the cars that have joined and not
      been taken out, and hands every car out at most once. */
  lemma QueueHoldsTheWaiting(c: Config, s: State, i: nat)
    requires Reachable(c, s)
    ensures Sorted(s.queue) && DistinctIds(s.queue)
    ensures Has(s.queue, i) <==> Waiting(s, i)
    ensures i in s.popped <==> Admitted(s, i)
    ensures forall j, k :: 0 <= j < k < |s.popped| ==> s.popped[j] != s.popped[k]
    ensures |s.queue| == s.queueSem + Ticket(s.manager) + Total(s.cars, Unannounced)
  {
    hide StationOk, Conserved, Waiting, Admitted, Has;
    ReachableInv(c, s);
  }

  /** Whoever the manager pops is unbeaten by every car that waits. */
  lemma PopTakesTheBest(c: Config, s: State, j: nat)
    requires Reachable(c, s) && s.manager == PopQueue && ManagerEnabled(s) && j < |s.queue|
    ensures var s' := ManagerNext(s);
      && s'.manager == PostCar(s.queue[0].id) && s'.popped == s.popped + [s.queue[0].id]
      && s.queue[0].id !in s.popped
      && !Before(s.queue[j], s.queue[0])
  {
    ReachableInv(c, s);
    assert Has(s.queue, s.queue[0].id);
    assert s.queue[0].id in s.popped <==> Admitted(s, s.queue[0].id);
  }

  // ----- the comment on mechanic_available[] -----

  /** Car i holds the station's semaphore but no slot: before its claim, or after its
      release store. */
  predicate BetweenSemAndSlot(s: State, st: Station, i: nat) {
    i < |s.cars| && HoldsUnit(s.cars[i].pc, Permit(st)) && WorkerOf(s.cars[i].pc, st) <= 0
  }

  lemma EqualTotals(cars: seq<Car>, t: Tally, u: Tally)
    requires forall j :: 0 <= j < |cars| ==> Weight(cars[j], t) <= Weight(cars[j], u)
    ensures Total(cars, t) == Total(cars, u) <==> forall j :: 0 <= j < |cars| ==> Weight(cars[j], t) == Weight(cars[j], u)
  {
    hide Weight, Total;
    if j :| 0 <= j < |cars| && Weight(cars[j], t) < Weight(cars[j], u) {
      TotalBelow(cars, t, u, j);
    } else {
      TotalAtMost(cars, t, u);
      TotalAtMost(cars, u, t);
    }
  }

  /** threads.c claims that exactly as many slots are busy as there are active holders of the
      semaphore. That is so exactly when no car is between its semaphore and its slot. */
  lemma BusySlotsVersusHolders(c: Config, s: State, st: Station)
    requires Reachable(c, s)
    ensures Busy(Free(s, st)) <= Capacity(c, Permit(st)) - s.sems.Get(Permit(st))
    ensures Busy(Free(s, st)) == Capacity(c, Permit(st)) - s.sems.Get(Permit(st))
       <==> forall i: nat :: !BetweenSemAndSlot(s, st, i)
  {
    ReachableInv(c, s);
    assert StationOk(c, s, st);
    assert s.sems.Get(Permit(st)) + ManagerHolds(s.manager, Permit(st)) + Total(s.cars, Holds(Permit(st)))
        == Capacity(c, Permit(st));
    hide Inv, StationOk, Weight, BetweenSemAndSlot;
    forall j | 0 <= j < |s.cars|
      ensures Weight(s.cars[j], Claimed(st)) <= Weight(s.cars[j], Holds(Permit(st)))
      ensures Weight(s.cars[j], Claimed(st)) == Weight(s.cars[j], Holds(Permit(st))) <==> !BetweenSemAndSlot(s, st, j)
    {
      ClaimIsHeld(s, st, j);
    }
    TotalAtMost(s.cars, Claimed(st), Holds(Permit(st)));
    EqualTotals(s.cars, Claimed(st), Holds(Permit(st)));
    assert forall i: nat :: BetweenSemAndSlot(s, st, i) ==> i < |s.cars| by { BetweenIsACar(s, st); }
  }

  lemma ClaimIsHeld(s: State, st: Station, j: nat)
    requires j < |s.cars|
    ensures Weight(s.cars[j], Claimed(st)) <= Weight(s.cars[j], Holds(Permit(st)))
    ensures Weight(s.cars[j], Claimed(st)) == Weight(s.cars[j], Holds(Permit(st))) <==> !BetweenSemAndSlot(s, st, j)
  {
  }

  lemma BetweenIsACar(s: State, st: Station)
    ensures forall i: nat :: BetweenSemAndSlot(s, st, i) ==> i < |s.cars|
  {
  }

  /** The comment's equation fails in some reachable state of every configuration: right
      after a car's sem_wait(&mechanic_sem). */
  lemma SlotCommentFails(c: Config) returns (s: State)
    requires Positive(c)
    ensures Reachable(c, s) && Busy(Free(s, Mechanics)) != Capacity(c, Permit(Mechanics)) - s.sems.Get(Permit(Mechanics))
  {
    hide Leads;
    LeadsHere(c, Init(c));
    s := Joins(c, Init(c), Init(c), 0, 0, 0);
    assert s.queue == [Entry(0, 0, 0)];
    s := IsAdmitted(c, Init(c), s, 0);
    s := GoOn(c, Init(c), s, 0);
    assert BetweenSemAndSlot(s, Mechanics, 0);
    BusySlotsVersusHolders(c, s, Mechanics);
  }
}
