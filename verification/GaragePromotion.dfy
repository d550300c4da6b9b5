/** Whom the monitor promotes: a pass as a step of the service centre, and over whole runs. */
module GaragePromotion {
  import opened CarQueue
  import opened GarageModel
  import opened GarageInvariants
  import opened GarageAging

  /** One pass touches only the queue. A regular car that has waited at least the threshold by
      the pass's clock reading is a VIP afterwards, every other entry is as it was, and nobody
      comes or goes. */
  lemma PassPromotes(c: Config, s: State, now: int, k: nat)
    requires Enabled(c, s, MonitorPass(now)) && k < |s.queue|
    ensures var s', e := Next(c, s, MonitorPass(now)), s.queue[k];
      && s' == s.(queue := s'.queue) && |s'.queue| == |s.queue| && Sorted(s'.queue)
      && (if e.priority == 0 && (now - e.enterTime) as real >= c.threshold
          then Entry(e.id, 1, e.enterTime) in s'.queue else e in s'.queue)
  {
    hide Sort;
    var aged := AgeAll(s.queue, now, c.threshold);
    SortSorts(aged);
    SortContents(aged);
    assert aged[k] in multiset(aged);
  }

  // ----- over runs -----

  /** Car i stands in the queue with priority p. */
  ghost predicate Stands(q: seq<Entry>, i: nat, p: int) {
    exists k :: 0 <= k < |q| && q[k].id == i && q[k].priority == p
  }

  /** The step is a pass that finds car i in the queue and its wait up to the threshold. */
  ghost predicate MeetsThreshold(c: Config, s: State, l: Label, i: nat) {
    l.MonitorPass? && i < |s.cars| && Has(s.queue, i) && (l.now - s.cars[i].enterTime) as real >= c.threshold
  }

  /** Some pass in the run ls from s does. */
  ghost predicate OncePromotable(c: Config, s: State, ls: seq<Label>, i: nat)
    requires IsRun(c, s, ls)
    decreases |ls|
  {
    ls != [] && (MeetsThreshold(c, s, ls[0], i) || OncePromotable(c, Next(c, s, ls[0]), ls[1..], i))
  }

  lemma StandsByEntry(q: seq<Entry>, e: Entry, p: int)
    requires DistinctIds(q) && e in q
    ensures Has(q, e.id) && (Stands(q, e.id, p) <==> e.priority == p)
  {
  }

  /** What a pass does to a car's standing. */
  lemma PassStands(c: Config, s: State, now: int, i: nat)
    requires Inv(c, s) && Enabled(c, s, MonitorPass(now)) && Has(s.queue, i)
    ensures var s' := Next(c, s, MonitorPass(now));
      && Has(s'.queue, i)
      && (Stands(s'.queue, i, 1) <==> Stands(s.queue, i, 1) || MeetsThreshold(c, s, MonitorPass(now), i))
  {
    var k :| 0 <= k < |s.queue| && s.queue[k].id == i;
    var s', e := Next(c, s, MonitorPass(now)), s.queue[k];
    hide Inv, Next, Enabled, Has, Stands;
    QueueFacts(c, s, k);
    StepKeepsInv(c, s, MonitorPass(now));
    PassPromotes(c, s, now, k);
    InvDistinct(c, s);
    InvDistinct(c, s');
    StandsByEntry(s.queue, e, 1);
    StandsByEntry(s'.queue, if e.priority == 0 && (now - e.enterTime) as real >= c.threshold then Entry(i, 1, e.enterTime) else e, 1);
  }

  lemma InvDistinct(c: Config, s: State)
    requires Inv(c, s)
    ensures DistinctIds(s.queue)
  {
  }

  lemma QueueFacts(c: Config, s: State, k: nat)
    requires Inv(c, s) && k < |s.queue|
    ensures s.queue[k].id < |s.cars| && s.queue[k].enterTime == s.cars[s.queue[k].id].enterTime
    ensures 0 <= s.queue[k].priority <= 1
  {
    hide StationOk, Conserved, Handover;
  }

  /** Every other step leaves the standing of a car in the queue alone, unless it is popped. */
  lemma OtherStepStands(c: Config, s: State, l: Label, i: nat)
    requires Inv(c, s) && Enabled(c, s, l) && !l.MonitorPass? && Has(s.queue, i) && Has(Next(c, s, l).queue, i)
    ensures Stands(Next(c, s, l).queue, i, 1) <==> Stands(s.queue, i, 1)
  {
    InvDistinct(c, s);
    match l
    case CarStep(j) =>
      CarStepFrame(c, s, j);
      CarMovesQueue(c, s, j);
      if s.cars[j].pc == Insert && |s.queue| < c.cars {
        JoiningIsAnother(c, s, j, i);
        InsertKeepsStanding(s.queue, Entry(j, s.cars[j].priority, s.cars[j].enterTime), i);
      }
      hide Inv, CarNext, CarEnabled, CarQueue.Insert;
    case ManagerStep =>
      hide Inv;
      if s.manager == PopQueue && s.queue != [] {
        PopKeepsStanding(s.queue, i);
      }
    case _ =>
      hide Inv;
  }

  lemma JoiningIsAnother(c: Config, s: State, j: nat, i: nat)
    requires Inv(c, s) && j < |s.cars| && s.cars[j].pc == Insert && Has(s.queue, i)
    ensures i != j
  {
    hide StationOk, Conserved, Handover;
    assert Waiting(s, i);
  }

  lemma InsertKeepsStanding(q: seq<Entry>, x: Entry, i: nat)
    requires i != x.id
    ensures Stands(CarQueue.Insert(q, x), i, 1) <==> Stands(q, i, 1)
  {
    var k, r := Place(q, x), CarQueue.Insert(q, x);
    if j :| 0 <= j < |q| && q[j].id == i && q[j].priority == 1 {
      assert r[if j < k then j else j + 1] == q[j];
    }
    if j :| 0 <= j < |r| && r[j].id == i && r[j].priority == 1 {
      assert r[j] == q[if j < k then j else j - 1];
    }
  }

  lemma InsertStands(q: seq<Entry>, x: Entry)
    requires !Has(q, x.id)
    ensures Stands(CarQueue.Insert(q, x), x.id, 1) <==> x.priority == 1
  {
    var k, r := Place(q, x), CarQueue.Insert(q, x);
    assert r[k] == x;
    forall j | 0 <= j < |r| && j != k ensures r[j].id != x.id {
      assert r[j] == q[if j < k then j else j - 1];
    }
  }

  lemma PopKeepsStanding(q: seq<Entry>, i: nat)
    requires q != [] && Has(q[1..], i) && DistinctIds(q)
    ensures Stands(q[1..], i, 1) <==> Stands(q, i, 1)
  {
    if j :| 0 <= j < |q[1..]| && q[1..][j].id == i {
      assert q[j + 1].id == i;
    }
    if j :| 0 <= j < |q| && q[j].id == i && q[j].priority == 1 {
      assert j > 0;
      assert q[1..][j - 1] == q[j];
    }
  }

  /** Nobody comes into the queue but by inserting itself. */
  lemma OnlyOneJoins(c: Config, s: State, l: Label, i: nat)
    requires Enabled(c, s, l) && Has(Next(c, s, l).queue, i) && !Has(s.queue, i)
    ensures l == CarStep(i) && s.cars[i].pc == Insert && |s.queue| < c.cars
  {
    match l
    case CarStep(j) =>
      CarMovesQueue(c, s, j);
      if s.cars[j].pc == Insert && |s.queue| < c.cars {
        InsertHas(s.queue, Entry(j, s.cars[j].priority, s.cars[j].enterTime), i);
      }
      hide CarNext, CarQueue.Insert, Has;
    case MonitorPass(now) =>
      SortedAgedHas(s.queue, now, c.threshold, i);
      hide Sort, Has;
    case ManagerStep =>
      TailHas(s.queue, i);
      hide Has;
    case _ =>
      hide Has;
  }

  lemma TailHas(q: seq<Entry>, i: nat)
    ensures q != [] && Has(q[1..], i) ==> Has(q, i)
  {
    if q != [] {
      if k :| 0 <= k < |q[1..]| && q[1..][k].id == i {
        assert q[k + 1].id == i;
      }
    }
  }

  /** It joins with its drawn priority. */
  lemma JoinsWithItsDraw(c: Config, s: State, l: Label, i: nat)
    requires Inv(c, s) && Enabled(c, s, l) && !Has(s.queue, i) && Has(Next(c, s, l).queue, i)
    ensures i < s.next && i < |s.cars|
    ensures Stands(Next(c, s, l).queue, i, 1) <==> s.cars[i].priority == 1
  {
    OnlyOneJoins(c, s, l, i);
    CreatedCar(c, s, i);
    CarMovesQueue(c, s, i);
    InsertStands(s.queue, Entry(i, s.cars[i].priority, s.cars[i].enterTime));
    hide Inv, CarNext, CarQueue.Insert, Has, Stands;
  }

  lemma CreatedCar(c: Config, s: State, i: nat)
    requires Inv(c, s) && i < |s.cars| && s.cars[i].pc == Insert
    ensures i < s.next
  {
    hide StationOk, Conserved, Handover, QueueExact, TicketsMatch, DoneMatches, QueueOwned;
  }

  /** Once out of the queue, a car does not come back. */
  lemma StaysWhileItWaits(c: Config, s: State, ls: seq<Label>, i: nat)
    requires Inv(c, s) && IsRun(c, s, ls) && ls != [] && Has(s.queue, i) && Has(After(c, s, ls).queue, i)
    ensures Has(Next(c, s, ls[0]).queue, i)
  {
    hide Inv, Next, Enabled, Has;
    RunKeepsInv(c, s, ls);
    NotPoppedWhileWaiting(c, After(c, s, ls), i);
    StepKeepsInv(c, s, ls[0]);
    PoppedGrows(c, Next(c, s, ls[0]), ls[1..]);
    LeavesByPop(c, s, ls[0], i);
  }

  lemma NotPoppedWhileWaiting(c: Config, s: State, i: nat)
    requires Inv(c, s) && Has(s.queue, i)
    ensures i !in s.popped
  {
    hide StationOk, Conserved, Shape;
    assert Waiting(s, i);
    assert i in s.popped <==> Admitted(s, i);
  }

  lemma LeavesByPop(c: Config, s: State, l: Label, i: nat)
    requires Inv(c, s) && Enabled(c, s, l) && Has(s.queue, i)
    ensures Has(Next(c, s, l).queue, i) || i in Next(c, s, l).popped
  {
    match l
    case CarStep(j) =>
      CarMovesQueue(c, s, j);
      if s.cars[j].pc == Insert && |s.queue| < c.cars {
        InsertHas(s.queue, Entry(j, s.cars[j].priority, s.cars[j].enterTime), i);
      }
      hide Inv, CarNext, CarQueue.Insert, Has;
    case MonitorPass(now) =>
      SortedAgedHas(s.queue, now, c.threshold, i);
      hide Inv, Sort, Has;
    case ManagerStep =>
      hide Inv;
      var k :| 0 <= k < |s.queue| && s.queue[k].id == i;
      if s.manager == PopQueue && k > 0 {
        assert s.queue[1..][k - 1].id == i;
      }
    case _ =>
      hide Inv, Has;
  }

  /** How a car stands before it is in the queue: as it was drawn. */
  ghost predicate StandsOrDrawn(s: State, t: State, i: nat) {
    if Has(s.queue, i) then Stands(s.queue, i, 1) else i < |t.cars| && t.cars[i].priority == 1
  }

  lemma StepStands(c: Config, s: State, ls: seq<Label>, i: nat, t: State)
    requires Inv(c, s) && IsRun(c, s, ls) && ls != [] && t == After(c, s, ls) && Has(t.queue, i)
    ensures StandsOrDrawn(Next(c, s, ls[0]), t, i) <==> StandsOrDrawn(s, t, i) || MeetsThreshold(c, s, ls[0], i)
  {
    hide Inv, Next, Enabled, Has, Stands;
    var s' := Next(c, s, ls[0]);
    if Has(s.queue, i) {
      StaysWhileItWaits(c, s, ls, i);
      if ls[0].MonitorPass? {
        PassStands(c, s, ls[0].now, i);
      } else {
        OtherStepStands(c, s, ls[0], i);
      }
    } else if Has(s'.queue, i) {
      JoinsWithItsDraw(c, s, ls[0], i);
      RunKeepsRecords(c, s, ls);
    }
  }

  lemma {:induction false} RunStands(c: Config, s: State, ls: seq<Label>, i: nat, t: State)
    requires Inv(c, s) && IsRun(c, s, ls) && t == After(c, s, ls) && Has(t.queue, i)
    ensures Stands(t.queue, i, 1) <==> StandsOrDrawn(s, t, i) || OncePromotable(c, s, ls, i)
    decreases |ls|
  {
    hide Inv, Next, Enabled, Has, Stands, MeetsThreshold;
    if ls != [] {
      StepStands(c, s, ls, i, t);
      StepKeepsInv(c, s, ls[0]);
      RunStands(c, Next(c, s, ls[0]), ls[1..], i, t);
    }
  }

  /** Over any run from the start, a waiting car stands as a VIP if and only if it was drawn one,
      or some pass found it in the queue with its wait up to the threshold. */
  lemma VipExactly(c: Config, ls: seq<Label>, t: State, i: nat)
    requires IsRun(c, Init(c), ls) && t == After(c, Init(c), ls) && Has(t.queue, i)
    ensures i < |t.cars|
    ensures Stands(t.queue, i, 1) <==> t.cars[i].priority == 1 || OncePromotable(c, Init(c), ls, i)
  {
    InitHolds(c);
    RunKeepsInv(c, Init(c), ls);
    var k :| 0 <= k < |t.queue| && t.queue[k].id == i;
    QueueFacts(c, t, k);
    RunStands(c, Init(c), ls, i, t);
    hide Inv, Stands;
  }
}
