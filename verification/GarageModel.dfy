/** The vehicle service centre as a labelled transition system.

    Every semaphore wait, semaphore post, shared-array access and queue section of
    threads.c is one step; any thread may step next. A thread is a program counter
    that also carries its live local variables. Mutexes are held across steps, so a
    slot-by-slot scan can be interrupted by another car's release store. */
module GarageModel {
  import opened CarQueue
  import opened Wrappers

  /** The constants of garage.h. */
  datatype Config = Config(
    cars: nat, capacity: nat,
    mechanics: nat, tablets: nat, wrenches: nat,
    transfers: nat, workers: nat, testers: nat, boxes: nat,
    threshold: real)

  ghost predicate Positive(c: Config) {
    && c.cars > 0 && c.capacity > 0 && c.mechanics > 0 && c.tablets > 0 && c.wrenches > 0
    && c.transfers > 0 && c.workers > 0 && c.boxes > 0
  }

  /** No more cars than there are testers can hold a worker permit at once. */
  ghost predicate Staffed(c: Config) {
    c.workers <= c.testers || c.cars <= c.testers || c.capacity <= c.testers
  }

  /** The counting semaphores that bound a resource. */
  datatype Resource = Slots | Mechanic | Tablet | Wrench | Transfer | Worker | Box

  datatype Sems = Sems(slots: nat, mechanic: nat, tablet: nat, wrench: nat,
                       transfer: nat, worker: nat, box: nat)
  {
    function Get(r: Resource): nat {
      match r
      case Slots => slots
      case Mechanic => mechanic
      case Tablet => tablet
      case Wrench => wrench
      case Transfer => transfer
      case Worker => worker
      case Box => box
    }

    function Set(r: Resource, n: nat): (s: Sems)
      ensures forall q :: s.Get(q) == if q == r then n else Get(q)
    {
      match r
      case Slots => this.(slots := n)
      case Mechanic => this.(mechanic := n)
      case Tablet => this.(tablet := n)
      case Wrench => this.(wrench := n)
      case Transfer => this.(transfer := n)
      case Worker => this.(worker := n)
      case Box => this.(box := n)
    }
  }

  function Capacity(c: Config, r: Resource): nat {
    match r
    case Slots => c.capacity
    case Mechanic => c.mechanics
    case Tablet => c.tablets
    case Wrench => c.wrenches
    case Transfer => c.transfers
    case Worker => c.workers
    case Box => c.boxes
  }

  /** Program counters of car_thread; each is named after the step it is about to take.
      A mechanic or tester number is the C variable's value: slot index plus one, or -1. */
  datatype Pc =
    | NotCreated | FailPost | Failed
    | Insert | QueuePost | QueueUnlock | AwaitAdmission
    | WaitMechanic | LockMechanic | ScanMechanic(slot: nat) | ClaimMechanic(slot: nat) | UnlockMechanic(id: int)
    | PostMechanicOnError
    | WaitTablet(id: int) | WaitWrench(id: int) | Repair(id: int) | PostWrench(id: int) | PostTablet(id: int)
    | WaitTransfer(id: int) | FreeMechanic(id: int) | PostMechanic
    | WaitWorker | PostTransfer
    | LockTester | ScanTester(slot: nat) | ClaimTester(slot: nat) | UnlockTester(id: int)
    | PostWorkerOnError
    | Test(id: int) | FreeTester(id: int) | PostWorker
    | WaitBox | PostBox | PostSlots | PostDone | Finished

  /** car_entry together with its thread. */
  datatype Car = Car(pc: Pc, sem: nat, priority: int, enterTime: int)

  datatype ManagerPc = WaitQueue | WaitSlots | PopQueue | PostCar(car: nat) | ReturnSlot

  datatype State = State(
    sems: Sems, queueSem: nat, doneSem: nat,
    mechanicFree: seq<bool>, testerFree: seq<bool>,
    queueOwner: Option<nat>, mechanicOwner: Option<nat>, testerOwner: Option<nat>,
    queue: seq<Entry>,
    cars: seq<Car>,
    next: nat,            // the creator's loop variable
    manager: ManagerPc,
    waited: nat,          // turns of main's closing loop
    popped: seq<nat>)     // history: ids in the order pq_pop handed them out

  function Init(c: Config): State {
    State(
      Sems(c.capacity, c.mechanics, c.tablets, c.wrenches, c.transfers, c.workers, c.boxes), 0, 0,
      seq(c.mechanics, _ => true), seq(c.testers, _ => true),
      None, None, None,
      [],
      seq(c.cars, _ => Car(NotCreated, 0, 0, 0)),
      0, WaitQueue, 0, [])
  }

  // ----- car_thread -----

  function Goto(s: State, i: nat, pc: Pc): State
    requires i < |s.cars|
  {
    s.(cars := s.cars[i := s.cars[i].(pc := pc)])
  }

  function Wait(s: State, i: nat, r: Resource, pc: Pc): State
    requires i < |s.cars| && s.sems.Get(r) > 0
  {
    Goto(s, i, pc).(sems := s.sems.Set(r, s.sems.Get(r) - 1))
  }

  function Post(s: State, i: nat, r: Resource, pc: Pc): State
    requires i < |s.cars|
  {
    Goto(s, i, pc).(sems := s.sems.Set(r, s.sems.Get(r) + 1))
  }

  /** A store into a worker array. The invariant shows that the index is in range. */
  function Store(a: seq<bool>, k: int, v: bool): (r: seq<bool>)
    ensures |r| == |a|
  {
    if 0 <= k < |a| then a[k := v] else a
  }

  /** The resource semaphore the next step waits on, if it is a sem_wait. */
  function WaitsFor(pc: Pc): Option<Resource> {
    match pc
    case WaitMechanic => Some(Mechanic)
    case WaitTablet(_) => Some(Tablet)
    case WaitWrench(_) => Some(Wrench)
    case WaitTransfer(_) => Some(Transfer)
    case WaitWorker => Some(Worker)
    case WaitBox => Some(Box)
    case _ => None
  }

  /** The resource semaphore the next step posts, if it is a sem_post. */
  function PostsTo(pc: Pc): Option<Resource> {
    match pc
    case PostMechanicOnError => Some(Mechanic)
    case PostWrench(_) => Some(Wrench)
    case PostTablet(_) => Some(Tablet)
    case PostMechanic => Some(Mechanic)
    case PostTransfer => Some(Transfer)
    case PostWorkerOnError => Some(Worker)
    case PostWorker => Some(Worker)
    case PostBox => Some(Box)
    case PostSlots => Some(Slots)
    case _ => None
  }

  /** Where a car goes from a step that has one successor. */
  function Following(pc: Pc): Pc {
    match pc
    case QueuePost => QueueUnlock
    case QueueUnlock => AwaitAdmission
    case AwaitAdmission => WaitMechanic
    case WaitMechanic => LockMechanic
    case LockMechanic => ScanMechanic(0)
    case ClaimMechanic(k) => UnlockMechanic(k + 1)
    case PostMechanicOnError => PostSlots
    case WaitTablet(m) => WaitWrench(m)
    case WaitWrench(m) => Repair(m)
    case Repair(m) => PostWrench(m)
    case PostWrench(m) => PostTablet(m)
    case PostTablet(m) => WaitTransfer(m)
    case WaitTransfer(m) => FreeMechanic(m)
    case FreeMechanic(m) => PostMechanic
    case PostMechanic => WaitWorker
    case WaitWorker => PostTransfer
    case PostTransfer => LockTester
    case LockTester => ScanTester(0)
    case ClaimTester(k) => UnlockTester(k + 1)
    case PostWorkerOnError => PostSlots
    case Test(t) => FreeTester(t)
    case FreeTester(t) => PostWorker
    case PostWorker => WaitBox
    case WaitBox => PostBox
    case PostBox => PostSlots
    case PostSlots => PostDone
    case PostDone => Finished
    case other => other
  }

  predicate CarEnabled(s: State, i: nat) {
    i < |s.cars| &&
    match s.cars[i].pc
    case NotCreated => false
    case FailPost => false
    case Failed => false
    case Finished => false
    case Insert => s.queueOwner == None
    case AwaitAdmission => s.cars[i].sem > 0
    case LockMechanic => s.mechanicOwner == None
    case LockTester => s.testerOwner == None
    case pc => WaitsFor(pc).Some? ==> s.sems.Get(WaitsFor(pc).value) > 0
  }

  function CarNext(c: Config, s: State, i: nat): State
    requires CarEnabled(s, i)
  {
    var pc := s.cars[i].pc;
    if WaitsFor(pc).Some? then Wait(s, i, WaitsFor(pc).value, Following(pc))
    else if PostsTo(pc).Some? then Post(s, i, PostsTo(pc).value, Following(pc))
    else SharedNext(c, s, i)
  }

  /** The steps on the queue, the worker arrays, the mutexes and the other semaphores. */
  function SharedNext(c: Config, s: State, i: nat): State
    requires CarEnabled(s, i)
  {
    var pc := s.cars[i].pc;
    match pc
    case Insert =>
      if |s.queue| >= c.cars then Goto(s, i, AwaitAdmission)
      else Goto(s, i, QueuePost).(
           queue := CarQueue.Insert(s.queue, Entry(i, s.cars[i].priority, s.cars[i].enterTime)),
           queueOwner := Some(i))
    case QueuePost => Goto(s, i, Following(pc)).(queueSem := s.queueSem + 1)
    case QueueUnlock => Goto(s, i, Following(pc)).(queueOwner := None)
    case AwaitAdmission =>
      s.(cars := s.cars[i := s.cars[i].(pc := Following(pc), sem := s.cars[i].sem - 1)])
    case LockMechanic => Goto(s, i, Following(pc)).(mechanicOwner := Some(i))
    case ScanMechanic(k) =>
      if k >= |s.mechanicFree| then Goto(s, i, UnlockMechanic(-1))
      else Goto(s, i, if s.mechanicFree[k] then ClaimMechanic(k) else ScanMechanic(k + 1))
    case ClaimMechanic(k) => Goto(s, i, Following(pc)).(mechanicFree := Store(s.mechanicFree, k, false))
    case UnlockMechanic(m) =>
      Goto(s, i, if m == -1 then PostMechanicOnError else WaitTablet(m)).(mechanicOwner := None)
    case FreeMechanic(m) => Goto(s, i, Following(pc)).(mechanicFree := Store(s.mechanicFree, m - 1, true))
    case LockTester => Goto(s, i, Following(pc)).(testerOwner := Some(i))
    case ScanTester(k) =>
      if k >= |s.testerFree| then Goto(s, i, UnlockTester(-1))
      else Goto(s, i, if s.testerFree[k] then ClaimTester(k) else ScanTester(k + 1))
    case ClaimTester(k) => Goto(s, i, Following(pc)).(testerFree := Store(s.testerFree, k, false))
    case UnlockTester(t) =>
      Goto(s, i, if t == -1 then PostWorkerOnError else Test(t)).(testerOwner := None)
    case FreeTester(t) => Goto(s, i, Following(pc)).(testerFree := Store(s.testerFree, t - 1, true))
    case PostDone => Goto(s, i, Following(pc)).(doneSem := s.doneSem + 1)
    case _ => Goto(s, i, Following(pc))
  }

  // ----- manager_thread -----

  predicate ManagerEnabled(s: State) {
    match s.manager
    case WaitQueue => s.queueSem > 0
    case WaitSlots => s.sems.slots > 0
    case PopQueue => s.queueOwner == None
    case PostCar(j) => j < |s.cars|
    case ReturnSlot => true
  }

  function ManagerNext(s: State): State
    requires ManagerEnabled(s)
  {
    match s.manager
    case WaitQueue => s.(queueSem := s.queueSem - 1, manager := WaitSlots)
    case WaitSlots => s.(sems := s.sems.Set(Slots, s.sems.slots - 1), manager := PopQueue)
    case PopQueue =>
      if s.queue == [] then s.(manager := ReturnSlot)
      else s.(queue := s.queue[1..], manager := PostCar(s.queue[0].id), popped := s.popped + [s.queue[0].id])
    case PostCar(j) =>
      s.(cars := s.cars[j := s.cars[j].(sem := s.cars[j].sem + 1)], manager := WaitQueue)
    case ReturnSlot => s.(sems := s.sems.Set(Slots, s.sems.slots + 1), manager := WaitQueue)
  }

  // ----- all threads -----

  /** Clock readings and the VIP draw are part of the label. */
  datatype Label =
    | Create(priority: int, enterTime: int)       // pthread_create succeeds
    | CreateFails(priority: int, enterTime: int)  // pthread_create fails
    | CreatorPosts                                // the creator posts done_sem for the failed car
    | CarStep(car: nat)
    | ManagerStep
    | MainStep
    | MonitorPass(now: int)

  predicate Enabled(c: Config, s: State, l: Label) {
    match l
    case Create(p, _) => s.next < |s.cars| && s.cars[s.next].pc == NotCreated && 0 <= p <= 1
    case CreateFails(p, _) => s.next < |s.cars| && s.cars[s.next].pc == NotCreated && 0 <= p <= 1
    case CreatorPosts => s.next < |s.cars| && s.cars[s.next].pc == FailPost
    case CarStep(i) => CarEnabled(s, i)
    case ManagerStep => ManagerEnabled(s)
    case MainStep => s.doneSem > 0 && s.waited < c.cars
    case MonitorPass(_) => s.queueOwner == None
  }

  function Next(c: Config, s: State, l: Label): State
    requires Enabled(c, s, l)
  {
    match l
    case Create(p, t) => s.(cars := s.cars[s.next := Car(Insert, 0, p, t)], next := s.next + 1)
    case CreateFails(p, t) => s.(cars := s.cars[s.next := Car(FailPost, 0, p, t)])
    case CreatorPosts => Goto(s, s.next, Failed).(doneSem := s.doneSem + 1, next := s.next + 1)
    case CarStep(i) => CarNext(c, s, i)
    case ManagerStep => ManagerNext(s)
    case MainStep => s.(doneSem := s.doneSem - 1, waited := s.waited + 1)
    case MonitorPass(now) => s.(queue := Sort(AgeAll(s.queue, now, c.threshold)))
  }

  /** The schedule ls can be taken from s. */
  ghost predicate IsRun(c: Config, s: State, ls: seq<Label>)
    decreases |ls|
  {
    ls == [] || (Enabled(c, s, ls[0]) && IsRun(c, Next(c, s, ls[0]), ls[1..]))
  }

  ghost function After(c: Config, s: State, ls: seq<Label>): State
    requires IsRun(c, s, ls)
    decreases |ls|
  {
    if ls == [] then s else After(c, Next(c, s, ls[0]), ls[1..])
  }

  /** Some run leads from o to s. */
  ghost predicate Leads(c: Config, o: State, s: State) {
    exists ls :: IsRun(c, o, ls) && After(c, o, ls) == s
  }

  ghost predicate Reachable(c: Config, s: State) {
    Leads(c, Init(c), s)
  }

  // ----- counting -----

  /** What can be counted over the cars. */
  datatype Tally =
    | Holds(r: Resource)     // units of r in a car's hands
    | Claimed(st: Station)   // worker slots a car has claimed and not yet freed
    | Unannounced            // inserted, queue_sem not yet posted
    | Ended                  // has posted done_sem, or had it posted
    | Rank(mechanics: nat, testers: nat)  // steps a car can still take

  predicate Inside(pc: Pc) {
    match pc
    case NotCreated => false
    case FailPost => false
    case Failed => false
    case Insert => false
    case QueuePost => false
    case QueueUnlock => false
    case AwaitAdmission => false
    case PostDone => false
    case Finished => false
    case _ => true
  }

  predicate HoldsUnit(pc: Pc, r: Resource) {
    match r
    case Slots => Inside(pc)
    case Mechanic =>
      || pc.LockMechanic? || pc.ScanMechanic? || pc.ClaimMechanic? || pc.UnlockMechanic? || pc.PostMechanicOnError?
      || pc.WaitTablet? || pc.WaitWrench? || pc.Repair? || pc.PostWrench? || pc.PostTablet?
      || pc.WaitTransfer? || pc.FreeMechanic? || pc.PostMechanic?
    case Tablet => pc.WaitWrench? || pc.Repair? || pc.PostWrench? || pc.PostTablet?
    case Wrench => pc.Repair? || pc.PostWrench?
    case Transfer => pc.FreeMechanic? || pc.PostMechanic? || pc.WaitWorker? || pc.PostTransfer?
    case Worker =>
      || pc.PostTransfer? || pc.LockTester? || pc.ScanTester? || pc.ClaimTester? || pc.UnlockTester?
      || pc.PostWorkerOnError? || pc.Test? || pc.FreeTester? || pc.PostWorker?
    case Box => pc.PostBox?
  }

  /** The two places where a car looks for a free worker slot by slot. */
  datatype Station = Mechanics | Testers

  /** What a station sees of a car. */
  datatype Phase =
    | Elsewhere
    | Scanning(slot: nat) | Claiming(slot: nat) | Leaving(id: int)  // inside the mutex
    | Holding(id: int)       // until the release store
    | EmptyHanded            // the scan found nothing

  function PhaseOf(pc: Pc, st: Station): Phase {
    if st == Mechanics then
      match pc
      case ScanMechanic(k) => Scanning(k)
      case ClaimMechanic(k) => Claiming(k)
      case UnlockMechanic(m) => Leaving(m)
      case WaitTablet(m) => Holding(m)
      case WaitWrench(m) => Holding(m)
      case Repair(m) => Holding(m)
      case PostWrench(m) => Holding(m)
      case PostTablet(m) => Holding(m)
      case WaitTransfer(m) => Holding(m)
      case FreeMechanic(m) => Holding(m)
      case PostMechanicOnError => EmptyHanded
      case _ => Elsewhere
    else
      match pc
      case ScanTester(k) => Scanning(k)
      case ClaimTester(k) => Claiming(k)
      case UnlockTester(t) => Leaving(t)
      case Test(t) => Holding(t)
      case FreeTester(t) => Holding(t)
      case PostWorkerOnError => EmptyHanded
      case _ => Elsewhere
  }

  /** The number of the worker a car has claimed, or 0. */
  function WorkerIn(p: Phase): int {
    match p
    case Leaving(id) => id
    case Holding(id) => id
    case _ => 0
  }

  function WorkerOf(pc: Pc, st: Station): int {
    WorkerIn(PhaseOf(pc, st))
  }

  function RankOf(pc: Pc, m: nat, t: nat): nat {
    match pc
    case NotCreated => 36 + m + t
    case Insert => 35 + m + t
    case QueuePost => 34 + m + t
    case QueueUnlock => 28 + m + t
    case AwaitAdmission => 27 + m + t
    case WaitMechanic => 26 + m + t
    case LockMechanic => 25 + m + t
    case ScanMechanic(k) => 24 + t + (if k < m then m - k else 0)
    case ClaimMechanic(_) => 23 + t
    case UnlockMechanic(_) => 22 + t
    case WaitTablet(_) => 21 + t
    case WaitWrench(_) => 20 + t
    case Repair(_) => 19 + t
    case PostWrench(_) => 18 + t
    case PostTablet(_) => 17 + t
    case WaitTransfer(_) => 16 + t
    case FreeMechanic(_) => 15 + t
    case PostMechanic => 14 + t
    case WaitWorker => 13 + t
    case PostTransfer => 12 + t
    case LockTester => 11 + t
    case ScanTester(k) => 10 + (if k < t then t - k else 0)
    case ClaimTester(_) => 9
    case UnlockTester(_) => 8
    case Test(_) => 7
    case FreeTester(_) => 6
    case PostWorker => 5
    case WaitBox => 4
    case PostBox => 3
    case PostMechanicOnError => 3
    case PostWorkerOnError => 3
    case PostSlots => 2
    case PostDone => 1
    case FailPost => 1
    case Finished => 0
    case Failed => 0
  }

  function Weight(car: Car, t: Tally): nat {
    match t
    case Holds(r) => (if HoldsUnit(car.pc, r) then 1 else 0) + (if r == Slots then car.sem else 0)
    case Claimed(st) => if WorkerOf(car.pc, st) > 0 then 1 else 0
    case Unannounced => if car.pc == QueuePost then 1 else 0
    case Ended => if car.pc == Finished || car.pc == Failed then 1 else 0
    case Rank(m, n) => RankOf(car.pc, m, n)
  }

  function Total(cars: seq<Car>, t: Tally): nat {
    if cars == [] then 0 else Total(cars[..|cars| - 1], t) + Weight(cars[|cars| - 1], t)
  }

  lemma {:induction false} TotalUpdate(cars: seq<Car>, i: nat, car: Car, t: Tally)
    requires i < |cars|
    ensures Total(cars[i := car], t) + Weight(cars[i], t) == Total(cars, t) + Weight(car, t)
  {
    var n := |cars| - 1;
    var cars2 := cars[i := car];
    if i < n {
      assert cars2[..n] == cars[..n][i := car];
      TotalUpdate(cars[..n], i, car, t);
    } else {
      assert cars2[..n] == cars[..n];
    }
  }

  lemma {:induction false} TotalZero(cars: seq<Car>, t: Tally)
    requires forall i :: 0 <= i < |cars| ==> Weight(cars[i], t) == 0
    ensures Total(cars, t) == 0
  {
    if cars != [] {
      TotalZero(cars[..|cars| - 1], t);
    }
  }

  lemma {:induction false} TotalOfUniform(cars: seq<Car>, t: Tally, w: nat)
    requires forall i :: 0 <= i < |cars| ==> Weight(cars[i], t) == w
    ensures Total(cars, t) == |cars| * w
  {
    if cars != [] {
      TotalOfUniform(cars[..|cars| - 1], t, w);
      assert |cars| * w == (|cars| - 1) * w + w;
    }
  }

  /** If every car weighs at most as much on t as on u, and car i weighs less, so do all together. */
  lemma {:induction false} TotalBelow(cars: seq<Car>, t: Tally, u: Tally, i: nat)
    requires i < |cars| && Weight(cars[i], t) < Weight(cars[i], u)
    requires forall j :: 0 <= j < |cars| ==> Weight(cars[j], t) <= Weight(cars[j], u)
    ensures Total(cars, t) < Total(cars, u)
  {
    hide Weight;
    var n := |cars| - 1;
    if i < n {
      TotalBelow(cars[..n], t, u, i);
    } else {
      TotalAtMost(cars[..n], t, u);
    }
  }

  lemma {:induction false} TotalAtMost(cars: seq<Car>, t: Tally, u: Tally)
    requires forall j :: 0 <= j < |cars| ==> Weight(cars[j], t) <= Weight(cars[j], u)
    ensures Total(cars, t) <= Total(cars, u)
  {
    hide Weight;
    if cars != [] {
      TotalAtMost(cars[..|cars| - 1], t, u);
    }
  }
}
