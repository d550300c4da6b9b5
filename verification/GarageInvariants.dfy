/** What every step of the service centre keeps. The invariant is the conjunction of
    parts that are each preserved by a lemma of their own. */
module GarageInvariants {
  import opened CarQueue
  import opened GarageModel
  import opened Wrappers

  // ----- the parts -----

  /** Array sizes, the creator's position, and personal semaphores. */
  ghost predicate Shape(c: Config, s: State) {
    && |s.cars| == c.cars
    && |s.mechanicFree| == c.mechanics
    && |s.testerFree| == c.testers
    && s.next <= |s.cars|
    && s.waited <= c.cars
    && (forall i :: 0 <= i < s.next ==> s.cars[i].pc != NotCreated && s.cars[i].pc != FailPost)
    && (forall i :: s.next < i < |s.cars| ==> s.cars[i].pc == NotCreated)
    && (s.next < |s.cars| ==> s.cars[s.next].pc == NotCreated || s.cars[s.next].pc == FailPost)
    && (forall i :: 0 <= i < |s.cars| ==> s.cars[i].sem <= 1)
    && (forall i :: 0 <= i < |s.cars| && s.cars[i].sem > 0 ==> s.cars[i].pc == AwaitAdmission)
    && (forall i :: 0 <= i < |s.cars| ==> 0 <= s.cars[i].priority <= 1)
  }

  function ManagerHolds(m: ManagerPc, r: Resource): nat {
    if r == Slots && (m == PopQueue || m.PostCar? || m == ReturnSlot) then 1 else 0
  }

  /** Every unit of every resource is in its semaphore, with a car, or with the manager. */
  ghost predicate Conserved(c: Config, s: State) {
    forall r :: s.sems.Get(r) + ManagerHolds(s.manager, r) + Total(s.cars, Holds(r)) == Capacity(c, r)
  }

  function Ticket(m: ManagerPc): nat {
    if m == WaitSlots || m == PopQueue then 1 else 0
  }

  /** The queue is as long as queue_sem says, up to tickets in flight. */
  ghost predicate TicketsMatch(s: State) {
    |s.queue| == s.queueSem + Ticket(s.manager) + Total(s.cars, Unannounced)
  }

  /** done_sem and main's counter account for every car that has ended. */
  ghost predicate DoneMatches(s: State) {
    s.doneSem + s.waited == Total(s.cars, Ended)
  }

  predicate InQueueSection(pc: Pc) {
    pc == QueuePost || pc == QueueUnlock
  }

  /** Car i stands in the queue. */
  ghost predicate Waiting(s: State, i: nat) {
    && i < |s.cars|
    && (InQueueSection(s.cars[i].pc) || s.cars[i].pc == AwaitAdmission)
    && s.cars[i].sem == 0
    && s.manager != PostCar(i)
  }

  /** Car i has been taken out of the queue. */
  ghost predicate Admitted(s: State, i: nat) {
    && i < |s.cars|
    && (|| Inside(s.cars[i].pc) || s.cars[i].pc == PostDone || s.cars[i].pc == Finished
        || (s.cars[i].pc == AwaitAdmission && (s.cars[i].sem > 0 || s.manager == PostCar(i))))
  }

  ghost predicate QueueOwned(s: State) {
    && (s.queueOwner.Some? ==> s.queueOwner.value < |s.cars|)
    && (forall i :: 0 <= i < |s.cars| ==> (s.queueOwner == Some(i) <==> InQueueSection(s.cars[i].pc)))
  }

  /** The queue is sorted and duplicate-free and holds exactly the waiting cars. */
  ghost predicate QueueExact(s: State) {
    && Sorted(s.queue) && DistinctIds(s.queue)
    && (forall i: nat :: Has(s.queue, i) <==> Waiting(s, i))
    && (forall j :: 0 <= j < |s.queue| ==>
          && s.queue[j].id < |s.cars|
          && s.queue[j].enterTime == s.cars[s.queue[j].id].enterTime
          && 0 <= s.queue[j].priority <= 1)
  }

  /** The manager is never left with an empty hand, and each car is popped once. */
  ghost predicate Handover(s: State) {
    && s.manager != ReturnSlot
    && (s.manager.PostCar? ==>
          && s.manager.car < |s.cars|
          && s.cars[s.manager.car].pc == AwaitAdmission
          && s.cars[s.manager.car].sem == 0)
    && (forall i, j :: 0 <= i < j < |s.popped| ==> s.popped[i] != s.popped[j])
    && (forall i: nat :: i in s.popped <==> Admitted(s, i))
  }

  // ----- the two stations -----

  function Free(s: State, st: Station): seq<bool> {
    if st == Mechanics then s.mechanicFree else s.testerFree
  }

  function SectionOwner(s: State, st: Station): Option<nat> {
    if st == Mechanics then s.mechanicOwner else s.testerOwner
  }

  /** The semaphore that is meant to guarantee a free slot. */
  function Permit(st: Station): Resource {
    if st == Mechanics then Mechanic else Worker
  }

  predicate InSection(p: Phase) {
    p.Scanning? || p.Claiming? || p.Leaving?
  }

  function Busy(free: seq<bool>): nat {
    if free == [] then 0 else Busy(free[..|free| - 1]) + (if free[|free| - 1] then 0 else 1)
  }

  ghost predicate SomeFreeFrom(free: seq<bool>, k: nat) {
    exists j :: k <= j < |free| && free[j]
  }

  /** The cars as the station sees them. */
  function Phases(cars: seq<Car>, st: Station): (ps: seq<Phase>)
    ensures |ps| == |cars| && forall i :: 0 <= i < |cars| ==> ps[i] == PhaseOf(cars[i].pc, st)
  {
    seq(|cars|, i requires 0 <= i < |cars| => PhaseOf(cars[i].pc, st))
  }

  /** A claimed worker's slot is marked busy, and no worker is claimed twice. */
  ghost predicate WorkersExclusive(free: seq<bool>, ps: seq<Phase>) {
    && (forall i :: 0 <= i < |ps| && WorkerIn(ps[i]) > 0 ==>
          WorkerIn(ps[i]) <= |free| && !free[WorkerIn(ps[i]) - 1])
    && (forall i, j :: 0 <= i < j < |ps| && WorkerIn(ps[i]) > 0 ==> WorkerIn(ps[i]) != WorkerIn(ps[j]))
  }

  /** The owner of the station's mutex is the one car in its critical section. */
  ghost predicate SectionOwned(owner: Option<nat>, ps: seq<Phase>) {
    && (owner.Some? ==> owner.value < |ps|)
    && (forall i :: 0 <= i < |ps| ==> (owner == Some(i) <==> InSection(ps[i])))
  }

  /** Whether the station's semaphore does guarantee a free slot. */
  ghost predicate Sure(c: Config, st: Station) {
    st == Mechanics || Staffed(c)
  }

  /** A claim is made on a free slot. At a sure station a scan always has a free slot ahead,
      and no car comes away empty-handed. */
  ghost predicate PhaseOk(sure: bool, p: Phase, free: seq<bool>) {
    match p
    case Elsewhere => true
    case Scanning(k) => sure ==> SomeFreeFrom(free, k)
    case Claiming(k) => k < |free| && free[k]
    case Leaving(id) => id > 0 || (!sure && id == -1)
    case Holding(id) => id > 0
    case EmptyHanded => !sure
  }

  ghost predicate ScansSucceed(sure: bool, free: seq<bool>, ps: seq<Phase>) {
    forall i :: 0 <= i < |ps| ==> PhaseOk(sure, ps[i], free)
  }

  ghost predicate SectionOk(sure: bool, free: seq<bool>, owner: Option<nat>, ps: seq<Phase>) {
    WorkersExclusive(free, ps) && SectionOwned(owner, ps) && ScansSucceed(sure, free, ps)
  }

  ghost predicate StationOk(c: Config, s: State, st: Station) {
    && SectionOk(Sure(c, st), Free(s, st), SectionOwner(s, st), Phases(s.cars, st))
    && Busy(Free(s, st)) == Total(s.cars, Claimed(st))
  }

  ghost predicate Inv(c: Config, s: State) {
    && Shape(c, s) && Conserved(c, s) && TicketsMatch(s) && DoneMatches(s)
    && QueueOwned(s) && QueueExact(s) && Handover(s)
    && StationOk(c, s, Mechanics) && StationOk(c, s, Testers)
  }

  // ----- slot counting -----

  lemma {:induction false} BusyUpdate(free: seq<bool>, k: nat, v: bool)
    requires k < |free|
    ensures Busy(free[k := v]) + (if free[k] then 0 else 1) == Busy(free) + (if v then 0 else 1)
  {
    var n := |free| - 1;
    if k < n {
      assert free[k := v][..n] == free[..n][k := v];
      BusyUpdate(free[..n], k, v);
    } else {
      assert free[k := v][..n] == free[..n];
    }
  }

  lemma {:induction false} NotAllBusy(free: seq<bool>)
    requires Busy(free) < |free|
    ensures SomeFreeFrom(free, 0)
  {
    var n := |free| - 1;
    if free[n] {
    } else {
      NotAllBusy(free[..n]);
      var j :| 0 <= j < n && free[..n][j];
      assert free[j];
    }
  }

  lemma {:induction false} NoneBusy(free: seq<bool>)
    requires forall k :: 0 <= k < |free| ==> free[k]
    ensures Busy(free) == 0
  {
    if free != [] { NoneBusy(free[..|free| - 1]); }
  }

  // ----- the initial state -----

  lemma InitCounts(c: Config, t: Tally)
    requires !t.Rank?
    ensures Total(Init(c).cars, t) == 0
  {
    TotalZero(Init(c).cars, t);
  }

  lemma InitStations(c: Config, st: Station)
    ensures StationOk(c, Init(c), st)
  {
    var s := Init(c);
    InitCounts(c, Claimed(st));
    NoneBusy(Free(s, st));
    assert forall i :: 0 <= i < |s.cars| ==> s.cars[i].pc == NotCreated;
  }

  lemma InitHolds(c: Config)
    ensures Inv(c, Init(c))
  {
    InitStations(c, Mechanics);
    InitStations(c, Testers);
    hide StationOk;
    var s := Init(c);
    InitCounts(c, Unannounced);
    InitCounts(c, Ended);
    forall r ensures s.sems.Get(r) + ManagerHolds(s.manager, r) + Total(s.cars, Holds(r)) == Capacity(c, r) {
      InitCounts(c, Holds(r));
    }
    assert QueueExact(s) && Handover(s);
  }

  // ----- car steps -----

  /** A car step moves one car and leaves the other threads' counters alone. */
  lemma CarStepFrame(c: Config, s: State, i: nat)
    requires CarEnabled(s, i)
    ensures var s' := CarNext(c, s, i);
      && i < |s'.cars| == |s.cars| && s'.cars == s.cars[i := s'.cars[i]]
      && s'.next == s.next && s'.manager == s.manager && s'.waited == s.waited && s'.popped == s.popped
      && |s'.mechanicFree| == |s.mechanicFree| && |s'.testerFree| == |s.testerFree|
      && s'.cars[i].priority == s.cars[i].priority && s'.cars[i].enterTime == s.cars[i].enterTime
  {
    if WaitsFor(s.cars[i].pc).Some? {
    } else if PostsTo(s.cars[i].pc).Some? {
    } else {
      hide Following;
    }
  }

  lemma SharedPcMoves(c: Config, s: State, i: nat)
    requires CarEnabled(s, i) && WaitsFor(s.cars[i].pc).None? && PostsTo(s.cars[i].pc).None?
    ensures var car, car' := s.cars[i], SharedNext(c, s, i).cars[i];
      && car.pc != NotCreated && car.pc != FailPost && car'.pc != NotCreated && car'.pc != FailPost
      && car'.sem == (if car.pc == AwaitAdmission then car.sem - 1 else car.sem)
      && (car'.pc == Finished <==> car.pc == PostDone) && car'.pc != Failed && car.pc != Failed && car.pc != Finished
      && (car'.pc == QueuePost <==> car.pc == Insert && |s.queue| < c.cars)
  {
  }

  lemma CarPcMoves(c: Config, s: State, i: nat)
    requires CarEnabled(s, i)
    ensures var car, car' := s.cars[i], CarNext(c, s, i).cars[i];
      && car.pc != NotCreated && car.pc != FailPost && car'.pc != NotCreated && car'.pc != FailPost
      && car'.sem == (if car.pc == AwaitAdmission then car.sem - 1 else car.sem)
      && (car'.pc == Finished <==> car.pc == PostDone) && car'.pc != Failed && car.pc != Failed && car.pc != Finished
      && (car'.pc == QueuePost <==> car.pc == Insert && |s.queue| < c.cars)
  {
    var pc := s.cars[i].pc;
    if WaitsFor(pc).None? && PostsTo(pc).None? {
      SharedPcMoves(c, s, i);
      hide SharedNext, Following;
    } else {
      hide SharedNext;
    }
  }

  lemma CarKeepsShape(c: Config, s: State, i: nat)
    requires Shape(c, s) && CarEnabled(s, i)
    ensures Shape(c, CarNext(c, s, i))
  {
    hide CarNext, CarEnabled;
    CarStepFrame(c, s, i);
    CarPcMoves(c, s, i);
    assert i < s.next;
  }

  lemma CarMovesSems(c: Config, s: State, i: nat, r: Resource)
    requires CarEnabled(s, i)
    ensures CarNext(c, s, i).sems.Get(r)
         == s.sems.Get(r) - (if WaitsFor(s.cars[i].pc) == Some(r) then 1 else 0)
                          + (if PostsTo(s.cars[i].pc) == Some(r) then 1 else 0)
  {
  }

  function Unit(pc: Pc, r: Resource): nat {
    if HoldsUnit(pc, r) then 1 else 0
  }

  lemma PcMovesHands(pc: Pc, r: Resource)
    requires WaitsFor(pc).Some? || PostsTo(pc).Some?
    ensures Unit(Following(pc), r) == Unit(pc, r) + (if WaitsFor(pc) == Some(r) then 1 else 0)
                                                  - (if PostsTo(pc) == Some(r) then 1 else 0)
  {
  }

  lemma SharedKeepsHands(c: Config, s: State, i: nat, r: Resource)
    requires CarEnabled(s, i) && WaitsFor(s.cars[i].pc).None? && PostsTo(s.cars[i].pc).None?
    ensures Unit(SharedNext(c, s, i).cars[i].pc, r)
         == Unit(s.cars[i].pc, r) + if s.cars[i].pc == AwaitAdmission && r == Slots then 1 else 0
  {
    IsACar(s, i);
    hide SharedNext, CarEnabled, Unit, AtMechanics, AtTesters;
    if AtMechanics(s.cars[i].pc) {
      MechanicsKeepHands(c, s, i, r);
    } else if AtTesters(s.cars[i].pc) {
      TestersKeepHands(c, s, i, r);
    } else {
      OthersKeepHands(c, s, i, r);
    }
  }

  lemma IsACar(s: State, i: nat)
    requires CarEnabled(s, i)
    ensures i < |s.cars|
  {
  }

  /** The steps of the two stations that are neither waits nor posts. */
  predicate AtMechanics(pc: Pc) {
    || pc.LockMechanic? || pc.ScanMechanic? || pc.ClaimMechanic? || pc.UnlockMechanic? || pc.Repair? || pc.FreeMechanic?
  }

  predicate AtTesters(pc: Pc) {
    || pc.LockTester? || pc.ScanTester? || pc.ClaimTester? || pc.UnlockTester? || pc.Test? || pc.FreeTester?
  }

  lemma MechanicsKeepHands(c: Config, s: State, i: nat, r: Resource)
    requires CarEnabled(s, i) && AtMechanics(s.cars[i].pc)
    ensures Unit(SharedNext(c, s, i).cars[i].pc, r) == Unit(s.cars[i].pc, r) && s.cars[i].pc != AwaitAdmission
  {
    hide Store;
  }

  lemma TestersKeepHands(c: Config, s: State, i: nat, r: Resource)
    requires CarEnabled(s, i) && AtTesters(s.cars[i].pc)
    ensures Unit(SharedNext(c, s, i).cars[i].pc, r) == Unit(s.cars[i].pc, r) && s.cars[i].pc != AwaitAdmission
  {
    hide Store;
  }

  lemma OthersKeepHands(c: Config, s: State, i: nat, r: Resource)
    requires CarEnabled(s, i) && WaitsFor(s.cars[i].pc).None? && PostsTo(s.cars[i].pc).None?
    requires !AtMechanics(s.cars[i].pc) && !AtTesters(s.cars[i].pc)
    ensures Unit(SharedNext(c, s, i).cars[i].pc, r)
         == Unit(s.cars[i].pc, r) + if s.cars[i].pc == AwaitAdmission && r == Slots then 1 else 0
  {
    hide CarQueue.Insert;
  }

  /** What a car's hands gain, a semaphore loses. */
  lemma CarMovesHands(c: Config, s: State, i: nat, r: Resource)
    requires CarEnabled(s, i)
    requires s.cars[i].sem > 0 ==> s.cars[i].pc == AwaitAdmission
    ensures Weight(CarNext(c, s, i).cars[i], Holds(r))
         == Weight(s.cars[i], Holds(r)) + (if WaitsFor(s.cars[i].pc) == Some(r) then 1 else 0)
                                        - (if PostsTo(s.cars[i].pc) == Some(r) then 1 else 0)
  {
    CarPcMoves(c, s, i);
    var pc := s.cars[i].pc;
    if WaitsFor(pc).Some? || PostsTo(pc).Some? {
      PcMovesHands(pc, r);
      hide HoldsUnit, Following, SharedNext;
    } else {
      SharedKeepsHands(c, s, i, r);
      hide HoldsUnit, Following, SharedNext;
    }
  }

  lemma CarKeepsConserved(c: Config, s: State, i: nat)
    requires Shape(c, s) && Conserved(c, s) && CarEnabled(s, i)
    ensures Conserved(c, CarNext(c, s, i))
  {
    var s' := CarNext(c, s, i);
    CarStepFrame(c, s, i);
    forall r ensures s'.sems.Get(r) + ManagerHolds(s'.manager, r) + Total(s'.cars, Holds(r)) == Capacity(c, r) {
      hide CarNext, Weight;
      CarMovesSems(c, s, i, r);
      CarMovesHands(c, s, i, r);
      TotalUpdate(s.cars, i, s'.cars[i], Holds(r));
    }
  }

  /** Which steps touch the queue and the two signalling semaphores, and how. */
  lemma CarMovesQueue(c: Config, s: State, i: nat)
    requires CarEnabled(s, i)
    ensures var s', car := CarNext(c, s, i), s.cars[i];
      && s'.queue == (if car.pc == Insert && |s.queue| < c.cars
                      then CarQueue.Insert(s.queue, Entry(i, car.priority, car.enterTime)) else s.queue)
      && s'.queueOwner == (if car.pc == Insert && |s.queue| < c.cars then Some(i)
                           else if car.pc == QueueUnlock then None else s.queueOwner)
      && s'.queueSem == s.queueSem + (if car.pc == QueuePost then 1 else 0)
      && s'.doneSem == s.doneSem + (if car.pc == PostDone then 1 else 0)
  {
  }

  lemma CarKeepsTickets(c: Config, s: State, i: nat)
    requires TicketsMatch(s) && CarEnabled(s, i)
    ensures TicketsMatch(CarNext(c, s, i))
  {
    hide CarNext, CarEnabled;
    var s' := CarNext(c, s, i);
    CarStepFrame(c, s, i);
    CarPcMoves(c, s, i);
    CarMovesQueue(c, s, i);
    TotalUpdate(s.cars, i, s'.cars[i], Unannounced);
  }

  lemma CarKeepsDone(c: Config, s: State, i: nat)
    requires DoneMatches(s) && CarEnabled(s, i)
    ensures DoneMatches(CarNext(c, s, i))
  {
    hide CarNext, CarEnabled;
    var s' := CarNext(c, s, i);
    CarStepFrame(c, s, i);
    CarPcMoves(c, s, i);
    CarMovesQueue(c, s, i);
    TotalUpdate(s.cars, i, s'.cars[i], Ended);
  }

  // ----- the queue -----

  lemma CarKeepsQueueOwned(c: Config, s: State, i: nat)
    requires QueueOwned(s) && CarEnabled(s, i)
    ensures QueueOwned(CarNext(c, s, i))
  {
    hide CarNext, CarEnabled;
    CarStepFrame(c, s, i);
    CarMovesQueue(c, s, i);
    CarMovesThroughQueue(c, s, i);
  }

  lemma CarMovesThroughQueue(c: Config, s: State, i: nat)
    requires CarEnabled(s, i)
    ensures var pc, pc' := s.cars[i].pc, CarNext(c, s, i).cars[i].pc;
      && (pc == Insert ==> pc' == (if |s.queue| < c.cars then QueuePost else AwaitAdmission) && s.queueOwner == None)
      && (pc == QueuePost ==> pc' == QueueUnlock)
      && (pc == QueueUnlock ==> pc' == AwaitAdmission)
      && (pc == AwaitAdmission ==> Inside(pc') && s.cars[i].sem > 0)
      && (Inside(pc) || pc == PostDone ==> Inside(pc') || pc' == PostDone || pc' == Finished)
      && (!InQueueSection(pc) && pc != Insert ==> !InQueueSection(pc') && pc' != AwaitAdmission)
  {
  }

  /** Distinct waiting cars fit in the array, so pq_insert never finds it full. */
  lemma QueueHasRoom(c: Config, s: State, i: nat)
    requires Shape(c, s) && QueueExact(s) && i < |s.cars| && !Waiting(s, i)
    ensures |s.queue| < c.cars
  {
    var all := Below(c.cars);
    var ids := set j | 0 <= j < |s.queue| :: s.queue[j].id;
    SizeOfIds(s.queue);
    forall j | 0 <= j < |s.queue| ensures s.queue[j].id != i {
      assert Has(s.queue, s.queue[j].id);
    }
    assert ids <= all - {i};
    SubsetSize(ids, all - {i});
  }

  ghost function Below(n: nat): (r: set<nat>)
    ensures |r| == n && forall j: nat :: j in r <==> j < n
  {
    if n == 0 then {} else Below(n - 1) + {n - 1}
  }

  lemma {:induction false} SizeOfIds(q: seq<Entry>)
    requires DistinctIds(q)
    ensures |set j | 0 <= j < |q| :: q[j].id| == |q|
  {
    if q != [] {
      var n := |q| - 1;
      SizeOfIds(q[..n]);
      var front := set j | 0 <= j < n :: q[..n][j].id;
      assert (set j | 0 <= j < |q| :: q[j].id) == front + {q[n].id} by {
        forall j | 0 <= j < n ensures q[j].id in front { assert q[..n][j] == q[j]; }
      }
      assert q[n].id !in front;
    }
  }

  lemma {:induction false} SubsetSize(a: set<nat>, b: set<nat>)
    requires a <= b
    ensures |a| <= |b|
  {
    if a != {} {
      var x :| x in a;
      SubsetSize(a - {x}, b - {x});
    }
  }

  /** The queue after an insertion, for a state that differs from s in car i only. */
  lemma InsertedExact(s: State, s': State, i: nat, e: Entry)
    requires QueueExact(s) && i < |s.cars| && !Waiting(s, i)
    requires s'.queue == CarQueue.Insert(s.queue, e) && s'.manager == s.manager
    requires |s'.cars| == |s.cars| && s'.cars == s.cars[i := s'.cars[i]]
    requires e.id == i && 0 <= e.priority <= 1 && e.enterTime == s'.cars[i].enterTime
    requires s'.cars[i].enterTime == s.cars[i].enterTime && Waiting(s', i)
    ensures QueueExact(s')
  {
    hide CarQueue.Insert;
    assert !Has(s.queue, i);
    InsertKeepsSorted(s.queue, e);
    InsertDistinct(s.queue, e);
    forall j: nat ensures Has(s'.queue, j) <==> Waiting(s', j) {
      InsertHas(s.queue, e, j);
      assert Has(s.queue, j) <==> Waiting(s, j);
    }
    InsertContents(s.queue, e);
    forall j | 0 <= j < |s'.queue| ensures s'.queue[j] == e || s'.queue[j] in s.queue {
      assert s'.queue[j] in multiset(s'.queue);
    }
  }

  lemma InsertKeepsQueueExact(c: Config, s: State, i: nat)
    requires Shape(c, s) && QueueExact(s) && Handover(s) && CarEnabled(s, i) && s.cars[i].pc == Insert
    ensures QueueExact(CarNext(c, s, i))
  {
    hide CarNext, QueueExact;
    CarStepFrame(c, s, i);
    CarPcMoves(c, s, i);
    CarMovesQueue(c, s, i);
    QueueHasRoom(c, s, i);
    InsertedExact(s, CarNext(c, s, i), i, Entry(i, s.cars[i].priority, s.cars[i].enterTime));
  }

  lemma CarKeepsQueueExact(c: Config, s: State, i: nat)
    requires Shape(c, s) && QueueExact(s) && Handover(s) && CarEnabled(s, i)
    ensures QueueExact(CarNext(c, s, i))
  {
    if s.cars[i].pc == Insert {
      InsertKeepsQueueExact(c, s, i);
    } else {
      hide CarNext, CarEnabled, Has;
      var s' := CarNext(c, s, i);
      CarStepFrame(c, s, i);
      CarPcMoves(c, s, i);
      CarMovesQueue(c, s, i);
      CarMovesThroughQueue(c, s, i);
      forall j: nat ensures Waiting(s', j) <==> Waiting(s, j) {
      }
    }
  }

  lemma CarKeepsHandover(c: Config, s: State, i: nat)
    requires Shape(c, s) && QueueExact(s) && Handover(s) && CarEnabled(s, i)
    ensures Handover(CarNext(c, s, i))
  {
    hide CarNext, CarEnabled, QueueExact;
    var s' := CarNext(c, s, i);
    CarStepFrame(c, s, i);
    CarPcMoves(c, s, i);
    CarMovesThroughQueue(c, s, i);
    if s.cars[i].pc == Insert {
      QueueHasRoom(c, s, i);
    }
    forall j: nat ensures Admitted(s', j) <==> Admitted(s, j) {
    }
  }

  // ----- the two stations -----

  /** The ways in which a step of car i can move it at a station. */
  ghost predicate StationStep(i: nat, free: seq<bool>, owner: Option<nat>, p: Phase,
                              free': seq<bool>, owner': Option<nat>, p': Phase)
  {
    match p
    case Elsewhere =>
      || (free' == free && owner' == owner && p' == p)
      || (free' == free && owner == None && owner' == Some(i) && p' == Scanning(0))
    case Scanning(k) =>
      && free' == free && owner' == owner
      && p' == (if k >= |free| then Leaving(-1) else if free[k] then Claiming(k) else Scanning(k + 1))
    case Claiming(k) => free' == Store(free, k, false) && owner' == owner && p' == Leaving(k + 1)
    case Leaving(id) => free' == free && owner' == None && p' == (if id == -1 then EmptyHanded else Holding(id))
    case Holding(id) =>
      || (free' == free && owner' == owner && p' == p)
      || (free' == Store(free, id - 1, true) && owner' == owner && p' == Elsewhere)
    case EmptyHanded => free' == free && owner' == owner && p' == Elsewhere
  }

  lemma PcStepsAtStation(pc: Pc, st: Station)
    requires WaitsFor(pc).Some? || PostsTo(pc).Some?
    ensures PhaseOf(Following(pc), st) == (if PhaseOf(pc, st) == EmptyHanded then Elsewhere else PhaseOf(pc, st))
    ensures PhaseOf(pc, st).Elsewhere? || PhaseOf(pc, st).Holding? || PhaseOf(pc, st).EmptyHanded?
  {
  }

  /** Steps outside a station leave it alone. */
  lemma SharedStepsOffMechanics(c: Config, s: State, i: nat)
    requires CarEnabled(s, i) && WaitsFor(s.cars[i].pc).None? && PostsTo(s.cars[i].pc).None?
    requires !AtMechanics(s.cars[i].pc)
    ensures var s' := SharedNext(c, s, i);
      && s'.mechanicFree == s.mechanicFree && s'.mechanicOwner == s.mechanicOwner
      && PhaseOf(s.cars[i].pc, Mechanics) == PhaseOf(s'.cars[i].pc, Mechanics) == Elsewhere
  {
    StoresOffMechanics(c, s, i);
    PhaseOffMechanics(c, s, i);
    hide SharedNext, CarEnabled, PhaseOf, AtMechanics;
  }

  lemma StoresOffMechanics(c: Config, s: State, i: nat)
    requires CarEnabled(s, i) && WaitsFor(s.cars[i].pc).None? && PostsTo(s.cars[i].pc).None?
    requires !AtMechanics(s.cars[i].pc)
    ensures SharedNext(c, s, i).mechanicFree == s.mechanicFree && SharedNext(c, s, i).mechanicOwner == s.mechanicOwner
  {
    hide CarQueue.Insert, Store, Following;
  }

  lemma PhaseOffMechanics(c: Config, s: State, i: nat)
    requires CarEnabled(s, i) && WaitsFor(s.cars[i].pc).None? && PostsTo(s.cars[i].pc).None?
    requires !AtMechanics(s.cars[i].pc)
    ensures i < |SharedNext(c, s, i).cars|
    ensures PhaseOf(s.cars[i].pc, Mechanics) == PhaseOf(SharedNext(c, s, i).cars[i].pc, Mechanics) == Elsewhere
  {
    hide CarQueue.Insert, Store;
  }

  lemma SharedStepsOffTesters(c: Config, s: State, i: nat)
    requires CarEnabled(s, i) && WaitsFor(s.cars[i].pc).None? && PostsTo(s.cars[i].pc).None?
    requires !AtTesters(s.cars[i].pc)
    ensures var s' := SharedNext(c, s, i);
      && s'.testerFree == s.testerFree && s'.testerOwner == s.testerOwner
      && PhaseOf(s.cars[i].pc, Testers) == PhaseOf(s'.cars[i].pc, Testers) == Elsewhere
  {
    StoresOffTesters(c, s, i);
    PhaseOffTesters(c, s, i);
    hide SharedNext, CarEnabled, PhaseOf, AtTesters;
  }

  lemma StoresOffTesters(c: Config, s: State, i: nat)
    requires CarEnabled(s, i) && WaitsFor(s.cars[i].pc).None? && PostsTo(s.cars[i].pc).None?
    requires !AtTesters(s.cars[i].pc)
    ensures SharedNext(c, s, i).testerFree == s.testerFree && SharedNext(c, s, i).testerOwner == s.testerOwner
  {
    hide CarQueue.Insert, Store, Following;
  }

  lemma PhaseOffTesters(c: Config, s: State, i: nat)
    requires CarEnabled(s, i) && WaitsFor(s.cars[i].pc).None? && PostsTo(s.cars[i].pc).None?
    requires !AtTesters(s.cars[i].pc)
    ensures i < |SharedNext(c, s, i).cars|
    ensures PhaseOf(s.cars[i].pc, Testers) == PhaseOf(SharedNext(c, s, i).cars[i].pc, Testers) == Elsewhere
  {
    hide CarQueue.Insert, Store;
  }

  lemma SharedStepsAtMechanics(c: Config, s: State, i: nat)
    requires CarEnabled(s, i) && WaitsFor(s.cars[i].pc).None? && PostsTo(s.cars[i].pc).None?
    requires AtMechanics(s.cars[i].pc)
    ensures var s' := SharedNext(c, s, i);
      StationStep(i, s.mechanicFree, s.mechanicOwner, PhaseOf(s.cars[i].pc, Mechanics),
                  s'.mechanicFree, s'.mechanicOwner, PhaseOf(s'.cars[i].pc, Mechanics))
  {
    hide Store;
  }

  lemma SharedStepsAtTesters(c: Config, s: State, i: nat)
    requires CarEnabled(s, i) && WaitsFor(s.cars[i].pc).None? && PostsTo(s.cars[i].pc).None?
    requires AtTesters(s.cars[i].pc)
    ensures var s' := SharedNext(c, s, i);
      StationStep(i, s.testerFree, s.testerOwner, PhaseOf(s.cars[i].pc, Testers),
                  s'.testerFree, s'.testerOwner, PhaseOf(s'.cars[i].pc, Testers))
  {
    hide Store;
  }

  lemma SharedStepsAtStation(c: Config, s: State, i: nat, st: Station)
    requires CarEnabled(s, i) && WaitsFor(s.cars[i].pc).None? && PostsTo(s.cars[i].pc).None?
    ensures var s' := SharedNext(c, s, i);
      StationStep(i, Free(s, st), SectionOwner(s, st), PhaseOf(s.cars[i].pc, st),
                  Free(s', st), SectionOwner(s', st), PhaseOf(s'.cars[i].pc, st))
  {
    IsACar(s, i);
    hide SharedNext, PhaseOf, CarEnabled, AtMechanics, AtTesters;
    if st == Mechanics && AtMechanics(s.cars[i].pc) {
      SharedStepsAtMechanics(c, s, i);
    } else if st == Testers && AtTesters(s.cars[i].pc) {
      SharedStepsAtTesters(c, s, i);
    } else if st == Mechanics {
      SharedStepsOffMechanics(c, s, i);
    } else {
      SharedStepsOffTesters(c, s, i);
    }
  }

  lemma ScanNeedsPermit(c: Config, s: State, i: nat, st: Station)
    requires CarEnabled(s, i) && WaitsFor(s.cars[i].pc).None? && PostsTo(s.cars[i].pc).None?
    requires PhaseOf(s.cars[i].pc, st).Elsewhere? && PhaseOf(SharedNext(c, s, i).cars[i].pc, st).Scanning?
    ensures HoldsUnit(s.cars[i].pc, Permit(st))
  {
    hide CarQueue.Insert, Store;
  }

  lemma CarStepsAtStation(c: Config, s: State, i: nat, st: Station)
    requires CarEnabled(s, i)
    ensures var s' := CarNext(c, s, i);
      StationStep(i, Free(s, st), SectionOwner(s, st), PhaseOf(s.cars[i].pc, st),
                  Free(s', st), SectionOwner(s', st), PhaseOf(s'.cars[i].pc, st))
    ensures PhaseOf(s.cars[i].pc, st).Elsewhere? && PhaseOf(CarNext(c, s, i).cars[i].pc, st).Scanning? ==>
      HoldsUnit(s.cars[i].pc, Permit(st))
  {
    var pc := s.cars[i].pc;
    if WaitsFor(pc).Some? || PostsTo(pc).Some? {
      PcStepsAtStation(pc, st);
      hide PhaseOf, Following, SharedNext, HoldsUnit;
    } else {
      SharedStepsAtStation(c, s, i, st);
      if PhaseOf(pc, st).Elsewhere? && PhaseOf(SharedNext(c, s, i).cars[i].pc, st).Scanning? {
        ScanNeedsPermit(c, s, i, st);
      }
      hide PhaseOf, Following, SharedNext, HoldsUnit, StationStep;
    }
  }

  /** The car that takes the mutex finds a free slot: the permits outnumber the claimed slots. */
  lemma PermitMeansFreeSlot(c: Config, s: State, i: nat, st: Station)
    requires Sure(c, st) && Shape(c, s) && Conserved(c, s)
    requires Busy(Free(s, st)) == Total(s.cars, Claimed(st))
    requires i < |s.cars| && HoldsUnit(s.cars[i].pc, Permit(st)) && PhaseOf(s.cars[i].pc, st) == Elsewhere
    ensures SomeFreeFrom(Free(s, st), 0)
  {
    forall j | 0 <= j < |s.cars|
      ensures Weight(s.cars[j], Claimed(st)) <= Weight(s.cars[j], Holds(Permit(st)))
    {
    }
    TotalBelow(s.cars, Claimed(st), Holds(Permit(st)), i);
    HoldersFit(c, s, Permit(st));
    NotAllBusy(Free(s, st));
  }

  /** A unit of any resource but a place is held by a car inside, at most one by each. */
  lemma HoldersFit(c: Config, s: State, r: Resource)
    requires Shape(c, s) && Conserved(c, s) && r != Slots
    ensures Total(s.cars, Holds(r)) <= Capacity(c, r)
    ensures Total(s.cars, Holds(r)) <= c.cars && Total(s.cars, Holds(r)) <= c.capacity
  {
    hide HoldsUnit, Inside, Shape, Weight;
    assert |s.cars| == c.cars by { CarCount(c, s); }
    assert s.sems.Get(r) + ManagerHolds(s.manager, r) + Total(s.cars, Holds(r)) == Capacity(c, r);
    assert s.sems.Get(Slots) + ManagerHolds(s.manager, Slots) + Total(s.cars, Holds(Slots)) == Capacity(c, Slots);
    forall j | 0 <= j < |s.cars| ensures Weight(s.cars[j], Holds(r)) <= Weight(s.cars[j], Holds(Slots)) {
      HolderIsInside(s.cars[j], r);
    }
    TotalAtMost(s.cars, Holds(r), Holds(Slots));
    TotalAtMostOneEach(s.cars, r);
  }

  lemma CarCount(c: Config, s: State)
    requires Shape(c, s)
    ensures |s.cars| == c.cars
  {
  }

  lemma HolderIsInside(car: Car, r: Resource)
    requires r != Slots
    ensures Weight(car, Holds(r)) <= Weight(car, Holds(Slots))
  {
  }

  lemma {:induction false} TotalAtMostOneEach(cars: seq<Car>, r: Resource)
    requires r != Slots
    ensures Total(cars, Holds(r)) <= |cars|
  {
    if cars != [] {
      TotalAtMostOneEach(cars[..|cars| - 1], r);
    }
  }

  lemma StationStepExcludes(sure: bool, i: nat, free: seq<bool>, owner: Option<nat>, ps: seq<Phase>,
                            free': seq<bool>, owner': Option<nat>, p': Phase)
    requires SectionOk(sure, free, owner, ps) && i < |ps|
    requires StationStep(i, free, owner, ps[i], free', owner', p')
    ensures WorkersExclusive(free', ps[i := p'])
  {
    assert PhaseOk(sure, ps[i], free);
    hide ScansSucceed, SectionOwned;
  }

  lemma StationStepOwns(sure: bool, i: nat, free: seq<bool>, owner: Option<nat>, ps: seq<Phase>,
                        free': seq<bool>, owner': Option<nat>, p': Phase)
    requires SectionOk(sure, free, owner, ps) && i < |ps|
    requires StationStep(i, free, owner, ps[i], free', owner', p')
    ensures SectionOwned(owner', ps[i := p'])
  {
  }

  lemma StationStepScans(sure: bool, i: nat, free: seq<bool>, owner: Option<nat>, ps: seq<Phase>,
                         free': seq<bool>, owner': Option<nat>, p': Phase)
    requires SectionOk(sure, free, owner, ps) && i < |ps|
    requires StationStep(i, free, owner, ps[i], free', owner', p')
    requires sure && ps[i].Elsewhere? && p'.Scanning? ==> SomeFreeFrom(free, 0)
    ensures ScansSucceed(sure, free', ps[i := p'])
  {
    var ps' := ps[i := p'];
    assert PhaseOk(sure, ps[i], free);
    forall j | 0 <= j < |ps'| ensures PhaseOk(sure, ps'[j], free') {
      assert PhaseOk(sure, ps[j], free);
      assert InSection(ps[i]) && j != i ==> !InSection(ps[j]);
      if sure && ps'[j].Scanning? && j != i {
        var k :| ps'[j].slot <= k < |free| && free[k];
        assert free'[k];
      }
    }
  }

  /** One step at a station keeps its critical section in order. */
  lemma StationStepKeeps(sure: bool, i: nat, free: seq<bool>, owner: Option<nat>, ps: seq<Phase>,
                         free': seq<bool>, owner': Option<nat>, p': Phase)
    requires SectionOk(sure, free, owner, ps) && i < |ps|
    requires StationStep(i, free, owner, ps[i], free', owner', p')
    requires sure && ps[i].Elsewhere? && p'.Scanning? ==> SomeFreeFrom(free, 0)
    ensures SectionOk(sure, free', owner', ps[i := p'])
  {
    hide WorkersExclusive, SectionOwned, ScansSucceed;
    StationStepExcludes(sure, i, free, owner, ps, free', owner', p');
    StationStepOwns(sure, i, free, owner, ps, free', owner', p');
    StationStepScans(sure, i, free, owner, ps, free', owner', p');
  }

  lemma CarKeepsStation(c: Config, s: State, i: nat, st: Station)
    requires Shape(c, s) && Conserved(c, s) && StationOk(c, s, st) && CarEnabled(s, i)
    ensures StationOk(c, CarNext(c, s, i), st)
  {
    var s' := CarNext(c, s, i);
    CarStepFrame(c, s, i);
    CarStepsAtStation(c, s, i, st);
    var free, free', ps := Free(s, st), Free(s', st), Phases(s.cars, st);
    var p' := PhaseOf(s'.cars[i].pc, st);
    if Sure(c, st) && ps[i].Elsewhere? && p'.Scanning? {
      PermitMeansFreeSlot(c, s, i, st);
    }
    hide CarNext, CarEnabled, PhaseOf, Conserved, Shape, HoldsUnit;
    StationStepKeeps(Sure(c, st), i, free, SectionOwner(s, st), ps, free', SectionOwner(s', st), p');
    assert Phases(s'.cars, st) == ps[i := p'];
    TotalUpdate(s.cars, i, s'.cars[i], Claimed(st));
    StationStepCounts(Sure(c, st), i, free, SectionOwner(s, st), ps, free', SectionOwner(s', st), p');
  }

  /** The number of busy slots moves with the number of claimed workers. */
  lemma StationStepCounts(sure: bool, i: nat, free: seq<bool>, owner: Option<nat>, ps: seq<Phase>,
                          free': seq<bool>, owner': Option<nat>, p': Phase)
    requires SectionOk(sure, free, owner, ps) && i < |ps|
    requires StationStep(i, free, owner, ps[i], free', owner', p')
    ensures Busy(free') + (if WorkerIn(ps[i]) > 0 then 1 else 0) == Busy(free) + (if WorkerIn(p') > 0 then 1 else 0)
  {
    var p := ps[i];
    assert PhaseOk(sure, p, free);
    if p.Claiming? {
      BusyUpdate(free, p.slot, false);
    } else if p.Holding? {
      BusyUpdate(free, p.id - 1, true);
    }
  }

  /** A car step keeps the whole invariant. */
  lemma CarKeepsInv(c: Config, s: State, i: nat)
    requires Inv(c, s) && CarEnabled(s, i)
    ensures Inv(c, CarNext(c, s, i))
  {
    hide Shape, Conserved, TicketsMatch, DoneMatches, QueueOwned, QueueExact, Handover, StationOk, CarNext, CarEnabled;
    CarKeepsShape(c, s, i);
    CarKeepsConserved(c, s, i);
    CarKeepsTickets(c, s, i);
    CarKeepsDone(c, s, i);
    CarKeepsQueueOwned(c, s, i);
    CarKeepsQueueExact(c, s, i);
    CarKeepsHandover(c, s, i);
    CarKeepsStation(c, s, i, Mechanics);
    CarKeepsStation(c, s, i, Testers);
  }

  // ----- the other threads -----

  /** A step that moves no car at a station keeps the station in order. */
  lemma StationUntouched(c: Config, s: State, s': State, st: Station)
    requires StationOk(c, s, st)
    requires Free(s', st) == Free(s, st) && SectionOwner(s', st) == SectionOwner(s, st)
    requires |s'.cars| == |s.cars|
    requires forall i :: 0 <= i < |s.cars| ==> PhaseOf(s'.cars[i].pc, st) == PhaseOf(s.cars[i].pc, st)
    ensures StationOk(c, s', st)
  {
    assert Phases(s'.cars, st) == Phases(s.cars, st);
    SameClaims(s.cars, s'.cars, st);
  }

  lemma {:induction false} SameClaims(a: seq<Car>, b: seq<Car>, st: Station)
    requires |a| == |b|
    requires forall i :: 0 <= i < |a| ==> PhaseOf(b[i].pc, st) == PhaseOf(a[i].pc, st)
    ensures Total(b, Claimed(st)) == Total(a, Claimed(st))
  {
    if a != [] {
      SameClaims(a[..|a| - 1], b[..|b| - 1], st);
    }
  }

  /** The manager always finds a car: its queue ticket is backed by an entry. */
  lemma PopFindsCar(s: State)
    requires TicketsMatch(s) && s.manager == PopQueue
    ensures s.queue != []
  {
  }

  lemma ManagerKeepsConserved(c: Config, s: State)
    requires Conserved(c, s) && Handover(s) && ManagerEnabled(s)
    ensures Conserved(c, ManagerNext(s))
  {
    var s' := ManagerNext(s);
    forall r ensures s'.sems.Get(r) + ManagerHolds(s'.manager, r) + Total(s'.cars, Holds(r)) == Capacity(c, r) {
      if s.manager.PostCar? {
        TotalUpdate(s.cars, s.manager.car, s'.cars[s.manager.car], Holds(r));
      }
      assert s.sems.Get(r) + ManagerHolds(s.manager, r) + Total(s.cars, Holds(r)) == Capacity(c, r);
      hide Conserved, HoldsUnit, Handover;
    }
  }

  lemma ManagerKeepsShape(c: Config, s: State)
    requires Shape(c, s) && Handover(s) && ManagerEnabled(s)
    ensures Shape(c, ManagerNext(s))
  {
  }

  lemma ManagerKeepsCounts(c: Config, s: State)
    requires TicketsMatch(s) && DoneMatches(s) && ManagerEnabled(s)
    ensures var s' := ManagerNext(s); TicketsMatch(s') && DoneMatches(s')
  {
    var s' := ManagerNext(s);
    if s.manager.PostCar? {
      var j := s.manager.car;
      SamePcSameCounts(s.cars[j], s'.cars[j]);
      TotalUpdate(s.cars, j, s'.cars[j], Unannounced);
      TotalUpdate(s.cars, j, s'.cars[j], Ended);
    }
    hide Weight, Total;
  }

  lemma SamePcSameCounts(a: Car, b: Car)
    requires a.pc == b.pc
    ensures Weight(a, Unannounced) == Weight(b, Unannounced) && Weight(a, Ended) == Weight(b, Ended)
  {
  }

  lemma PopKeepsQueue(c: Config, s: State)
    requires TicketsMatch(s) && QueueOwned(s) && QueueExact(s) && Handover(s)
    requires s.manager == PopQueue && ManagerEnabled(s)
    ensures QueueOwned(ManagerNext(s)) && QueueExact(ManagerNext(s)) && Handover(ManagerNext(s))
  {
    var s', head := ManagerNext(s), s.queue[0].id;
    assert Has(s.queue, head);
    assert s.cars[head].pc == AwaitAdmission;
    forall j: nat ensures Has(s'.queue, j) <==> Waiting(s', j) {
      assert Has(s.queue, j) <==> Waiting(s, j);
      if Has(s.queue, j) && j != head {
        var k :| 0 <= k < |s.queue| && s.queue[k].id == j;
        assert s'.queue[k - 1].id == j;
      }
    }
    assert head !in s.popped;
    forall j: nat ensures j in s'.popped <==> Admitted(s', j) {
      assert j in s'.popped <==> j in s.popped || j == head;
    }
  }

  /** Away from the pop, the manager changes nobody's place. */
  lemma ManagerMovesNobody(c: Config, s: State, j: nat)
    requires Shape(c, s) && Handover(s) && ManagerEnabled(s) && s.manager != PopQueue
    ensures Waiting(ManagerNext(s), j) <==> Waiting(s, j)
    ensures Admitted(ManagerNext(s), j) <==> Admitted(s, j)
  {
  }

  lemma ManagerKeepsQueue(c: Config, s: State)
    requires Shape(c, s) && TicketsMatch(s) && QueueOwned(s) && QueueExact(s) && Handover(s) && ManagerEnabled(s)
    ensures QueueOwned(ManagerNext(s)) && QueueExact(ManagerNext(s)) && Handover(ManagerNext(s))
  {
    hide Waiting, Admitted, Shape, TicketsMatch, Has;
    if s.manager == PopQueue {
      PopKeepsQueue(c, s);
    } else {
      var s' := ManagerNext(s);
      forall j: nat ensures (Waiting(s', j) <==> Waiting(s, j)) && (Admitted(s', j) <==> Admitted(s, j)) {
        ManagerMovesNobody(c, s, j);
      }
    }
  }

  lemma ManagerKeepsStation(c: Config, s: State, st: Station)
    requires StationOk(c, s, st) && ManagerEnabled(s)
    ensures StationOk(c, ManagerNext(s), st)
  {
    hide StationOk;
    StationUntouched(c, s, ManagerNext(s), st);
  }

  lemma ManagerKeepsInv(c: Config, s: State)
    requires Inv(c, s) && ManagerEnabled(s)
    ensures Inv(c, ManagerNext(s))
  {
    hide Shape, Conserved, TicketsMatch, DoneMatches, QueueOwned, QueueExact, Handover, StationOk;
    ManagerKeepsShape(c, s);
    ManagerKeepsConserved(c, s);
    ManagerKeepsCounts(c, s);
    ManagerKeepsQueue(c, s);
    ManagerKeepsStation(c, s, Mechanics);
    ManagerKeepsStation(c, s, Testers);
  }

  ghost predicate CreatorLabel(l: Label) {
    l.Create? || l.CreateFails? || l.CreatorPosts?
  }

  /** The creator's steps move car s.next, outside every station and queue, and touch
      nothing shared but done_sem. */
  lemma CreatorStepFrame(c: Config, s: State, l: Label)
    requires Shape(c, s) && CreatorLabel(l) && Enabled(c, s, l)
    ensures var s', n := Next(c, s, l), s.next;
      && n < |s.cars| && |s'.cars| == |s.cars| && s'.cars == s.cars[n := s'.cars[n]]
      && s' == s.(cars := s'.cars, next := s'.next, doneSem := s'.doneSem)
      && (s.cars[n].pc == NotCreated || s.cars[n].pc == FailPost) && s.cars[n].sem == 0 && s'.cars[n].sem == 0
      && (s'.cars[n].pc == Insert || s'.cars[n].pc == FailPost || s'.cars[n].pc == Failed)
      && s'.doneSem == s.doneSem + (if s'.cars[n].pc == Failed then 1 else 0)
      && s'.next == (if s'.cars[n].pc == FailPost then n else n + 1)
      && 0 <= s'.cars[n].priority <= 1
  {
  }

  lemma CreatorKeepsShape(c: Config, s: State, l: Label)
    requires Shape(c, s) && CreatorLabel(l) && Enabled(c, s, l)
    ensures Shape(c, Next(c, s, l))
  {
    CreatorStepFrame(c, s, l);
    hide Next, Enabled;
  }

  lemma OutsideWeighsNothing(car: Car, r: Resource)
    requires car.pc == NotCreated || car.pc == FailPost || car.pc == Failed || car.pc == Insert
    requires car.sem == 0
    ensures Weight(car, Holds(r)) == 0
  {
  }

  lemma CreatorKeepsConserved(c: Config, s: State, l: Label)
    requires Shape(c, s) && Conserved(c, s) && CreatorLabel(l) && Enabled(c, s, l)
    ensures Conserved(c, Next(c, s, l))
  {
    var s', n := Next(c, s, l), s.next;
    CreatorStepFrame(c, s, l);
    hide Next, Enabled, Shape, Weight;
    forall r ensures s'.sems.Get(r) + ManagerHolds(s'.manager, r) + Total(s'.cars, Holds(r)) == Capacity(c, r) {
      TotalUpdate(s.cars, n, s'.cars[n], Holds(r));
      OutsideWeighsNothing(s.cars[n], r);
      OutsideWeighsNothing(s'.cars[n], r);
      assert s.sems.Get(r) + ManagerHolds(s.manager, r) + Total(s.cars, Holds(r)) == Capacity(c, r);
    }
  }

  lemma CreatorKeepsCounts(c: Config, s: State, l: Label)
    requires Shape(c, s) && TicketsMatch(s) && DoneMatches(s) && CreatorLabel(l) && Enabled(c, s, l)
    ensures var s' := Next(c, s, l); TicketsMatch(s') && DoneMatches(s')
  {
    var s', n := Next(c, s, l), s.next;
    CreatorStepFrame(c, s, l);
    hide Next, Enabled, Shape;
    TotalUpdate(s.cars, n, s'.cars[n], Unannounced);
    TotalUpdate(s.cars, n, s'.cars[n], Ended);
  }

  lemma CreatorKeepsQueue(c: Config, s: State, l: Label)
    requires Shape(c, s) && QueueOwned(s) && QueueExact(s) && Handover(s)
    requires CreatorLabel(l) && Enabled(c, s, l)
    ensures var s' := Next(c, s, l); QueueOwned(s') && QueueExact(s') && Handover(s')
  {
    var s' := Next(c, s, l);
    CreatorStepFrame(c, s, l);
    hide Next, Enabled, Shape;
    forall j: nat ensures (Waiting(s', j) <==> Waiting(s, j)) && (Admitted(s', j) <==> Admitted(s, j)) {
    }
    forall j | 0 <= j < |s.queue| ensures s.queue[j].id != s.next {
      assert Has(s.queue, s.queue[j].id) && !Waiting(s, s.next);
    }
    hide Waiting, Admitted, Has, Sorted, DistinctIds;
  }

  lemma CreatorKeepsInv(c: Config, s: State, l: Label)
    requires Inv(c, s) && CreatorLabel(l) && Enabled(c, s, l)
    ensures Inv(c, Next(c, s, l))
  {
    CreatorKeepsShape(c, s, l);
    CreatorKeepsConserved(c, s, l);
    CreatorKeepsCounts(c, s, l);
    CreatorKeepsQueue(c, s, l);
    CreatorStepFrame(c, s, l);
    hide Next, Enabled, Shape, Conserved, TicketsMatch, DoneMatches, StationOk, QueueOwned, QueueExact, Handover;
    StationUntouched(c, s, Next(c, s, l), Mechanics);
    StationUntouched(c, s, Next(c, s, l), Testers);
  }

  lemma SortedAgedHas(q: seq<Entry>, now: int, threshold: real, id: nat)
    ensures Has(Sort(AgeAll(q, now, threshold)), id) <==> Has(q, id)
  {
    hide Sort;
    var aged := AgeAll(q, now, threshold);
    SortHas(aged, id);
    assert forall k :: 0 <= k < |aged| ==> aged[k].id == q[k].id;
  }

  lemma SortedAgedFrom(q: seq<Entry>, now: int, threshold: real, j: nat) returns (k: nat)
    requires j < |q|
    ensures k < |q| && Sort(AgeAll(q, now, threshold))[j] == Aged(q[k], now, threshold)
  {
    hide Sort;
    var aged := AgeAll(q, now, threshold);
    SortContents(aged);
    assert Sort(aged)[j] in multiset(Sort(aged));
    k :| 0 <= k < |aged| && aged[k] == Sort(aged)[j];
  }

  lemma MonitorKeepsQueueExact(c: Config, s: State, now: int)
    requires QueueExact(s)
    ensures QueueExact(s.(queue := Sort(AgeAll(s.queue, now, c.threshold))))
  {
    hide Sort, Has, Waiting;
    var aged := AgeAll(s.queue, now, c.threshold);
    var q, s' := Sort(aged), s.(queue := Sort(aged));
    SortSorts(aged);
    SortDistinct(aged);
    forall j: nat ensures Has(q, j) <==> Waiting(s', j) {
      SortedAgedHas(s.queue, now, c.threshold, j);
      SameWaiting(s, s', j);
    }
    forall j | 0 <= j < |q|
      ensures q[j].id < |s.cars| && q[j].enterTime == s.cars[q[j].id].enterTime && 0 <= q[j].priority <= 1
    {
      var k := SortedAgedFrom(s.queue, now, c.threshold, j);
    }
  }

  lemma SameWaiting(s: State, s': State, i: nat)
    requires s'.cars == s.cars && s'.manager == s.manager
    ensures Waiting(s', i) == Waiting(s, i) && Admitted(s', i) == Admitted(s, i)
  {
  }

  lemma MonitorKeepsHandover(s: State, q: seq<Entry>)
    requires TicketsMatch(s) && Handover(s) && |q| == |s.queue|
    ensures TicketsMatch(s.(queue := q)) && Handover(s.(queue := q))
  {
  }

  lemma MonitorKeepsInv(c: Config, s: State, now: int)
    requires Inv(c, s) && Enabled(c, s, MonitorPass(now))
    ensures Inv(c, Next(c, s, MonitorPass(now)))
  {
    hide TicketsMatch, StationOk, QueueExact, Handover, Sort;
    var s' := Next(c, s, MonitorPass(now));
    MonitorKeepsQueueExact(c, s, now);
    MonitorKeepsHandover(s, s'.queue);
    StationUntouched(c, s, s', Mechanics);
    StationUntouched(c, s, s', Testers);
  }

  lemma MainKeepsQueue(s: State, s': State)
    requires QueueExact(s) && Handover(s)
    requires s' == s.(doneSem := s'.doneSem, waited := s'.waited)
    ensures QueueExact(s') && Handover(s')
  {
    hide Waiting, Admitted, Has;
    forall j: nat ensures (Has(s'.queue, j) <==> Waiting(s', j)) && (j in s'.popped <==> Admitted(s', j)) {
      SameWaiting(s, s', j);
    }
  }

  lemma MainKeepsInv(c: Config, s: State)
    requires Inv(c, s) && Enabled(c, s, MainStep)
    ensures Inv(c, Next(c, s, MainStep))
  {
    hide QueueExact, Handover, StationOk, Waiting, Admitted;
    var s' := Next(c, s, MainStep);
    MainKeepsQueue(s, s');
    StationUntouched(c, s, s', Mechanics);
    StationUntouched(c, s, s', Testers);
  }

  /** Every step of every thread keeps the invariant. */
  lemma StepKeepsInv(c: Config, s: State, l: Label)
    requires Inv(c, s) && Enabled(c, s, l)
    ensures Inv(c, Next(c, s, l))
  {
    hide Inv;
    match l
    case CarStep(i) => CarKeepsInv(c, s, i);
    case ManagerStep => ManagerKeepsInv(c, s);
    case MainStep => MainKeepsInv(c, s);
    case MonitorPass(now) => MonitorKeepsInv(c, s, now);
    case _ =>
      assert CreatorLabel(l);
      CreatorKeepsInv(c, s, l);
  }

  lemma {:induction false} RunKeepsInv(c: Config, s: State, ls: seq<Label>)
    requires Inv(c, s) && IsRun(c, s, ls)
    ensures Inv(c, After(c, s, ls))
    decreases |ls|
  {
    if ls != [] {
      StepKeepsInv(c, s, ls[0]);
      RunKeepsInv(c, Next(c, s, ls[0]), ls[1..]);
    }
  }

  /** The invariant holds in every reachable state. */
  lemma ReachableInv(c: Config, s: State)
    requires Reachable(c, s)
    ensures Inv(c, s)
  {
    var ls :| IsRun(c, Init(c), ls) && After(c, Init(c), ls) == s;
    InitHolds(c);
    RunKeepsInv(c, Init(c), ls);
  }
}
