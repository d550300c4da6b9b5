/** Runs that go as far as the order of the queue allows: a later arrival ahead of an earlier
    one, a regular car passed by every later VIP, and a VIP overtaken by every earlier car. */
module GarageExtremes {
  import opened CarQueue
  import opened GarageModel
  import opened GarageInvariants
  import opened GarageRuns
  import opened GarageAging

  // ----- a later arrival ahead -----

  lemma SortOfSorted(q: seq<Entry>)
    requires Sorted(q)
    ensures Sort(q) == q
  {
    SortIsTheStableOrder(q, q);
  }

  /** Two VIPs with the same entry time, and the one that joined last stands first: it was drawn
      a VIP, the other has been promoted since. */
  lemma LaterCarStandsAhead(c: Config) returns (s: State)
    requires Positive(c) && c.cars >= 2 && 0.0 < c.threshold <= 1.0
    ensures Reachable(c, s)
    ensures s.queue == [Entry(1, 1, 0), Entry(0, 1, 0)]
  {
    hide Leads;
    var o := Init(c);
    LeadsHere(c, o);
    s := Joins(c, o, o, 0, 0, 0);
    assert s.queue == [Entry(0, 0, 0)];
    s := Joins(c, o, s, 1, 1, 0);
    PlaceIs([Entry(0, 0, 0)], Entry(1, 1, 0), 0);
    assert s.queue == [Entry(1, 1, 0), Entry(0, 0, 0)];
    PromotionNeedsALaterSecond(Entry(0, 0, 0), 1, c.threshold);
    assert AgeAll(s.queue, 1, c.threshold) == [Entry(1, 1, 0), Entry(0, 1, 0)];
    SortOfSorted([Entry(1, 1, 0), Entry(0, 1, 0)]);
    LeadsOn(c, o, s, MonitorPass(1));
    s := Next(c, s, MonitorPass(1));
  }

  // ----- a regular car passed by every later VIP -----

  /** Car 0 waits as a regular; cars 1 to j - 1 have come later, as VIPs, and are gone. */
  function Passed(c: Config, j: nat): State
    requires 1 <= j <= c.cars
  {
    Init(c).(
      cars := seq(c.cars, k requires 0 <= k =>
        if k == 0 then Car(AwaitAdmission, 0, 0, 0) else if k < j then Car(Finished, 0, 1, k) else Car(NotCreated, 0, 0, 0)),
      next := j, queue := [Entry(0, 0, 0)], queueSem := 1, doneSem := j - 1,
      popped := seq(j - 1, k requires 0 <= k => k + 1))
  }

  lemma FirstWaits(c: Config)
    requires Positive(c)
    ensures Reachable(c, Passed(c, 1))
  {
    hide Leads;
    LeadsHere(c, Init(c));
    var s := Joins(c, Init(c), Init(c), 0, 0, 0);
    assert s.queue == [Entry(0, 0, 0)];
    assert s.cars == Passed(c, 1).cars && s.popped == Passed(c, 1).popped;
  }

  lemma OneMorePasses(c: Config, j: nat)
    requires Positive(c) && 1 <= j < c.cars
    requires Leads(c, Passed(c, 1), Passed(c, j))
    ensures Leads(c, Passed(c, 1), Passed(c, j + 1))
  {
    hide Leads;
    var o, s := Passed(c, 1), Passed(c, j);
    var t := Joins(c, o, s, j, 1, j);
    PlaceIs([Entry(0, 0, 0)], Entry(j, 1, j), 0);
    assert t.queue == [Entry(j, 1, j), Entry(0, 0, 0)];
    t := ServeHead(c, o, t, j);
    assert t.cars == Passed(c, j + 1).cars && t.popped == Passed(c, j + 1).popped && t.queue == Passed(c, j + 1).queue;
  }

  lemma {:induction false} ManyPass(c: Config, j: nat)
    requires Positive(c) && 1 <= j <= c.cars
    ensures Leads(c, Passed(c, 1), Passed(c, j))
  {
    hide Leads, Passed;
    if j == 1 {
      LeadsHere(c, Passed(c, 1));
    } else {
      ManyPass(c, j - 1);
      OneMorePasses(c, j - 1);
    }
  }

  /** For any constants, a regular car at the head of the queue can be passed by all the other
      K - 1 cars, though they entered later, if they come as VIPs before a pass promotes it. */
  lemma EveryLaterVipCanPass(c: Config) returns (s: State, ls: seq<Label>, t: State)
    requires Positive(c)
    ensures Reachable(c, s) && IsRun(c, s, ls) && t == After(c, s, ls)
    ensures s.queue == [Entry(0, 0, 0)] && s.popped == [] && t.queue == s.queue
    ensures |t.popped| == c.cars - 1 && |t.cars| == c.cars
    ensures forall i :: 0 <= i < c.cars - 1 ==> t.popped[i] == i + 1
    ensures forall i :: 1 <= i < c.cars ==> t.cars[i].enterTime == i && t.cars[i].priority == 1
  {
    s, t := Passed(c, 1), Passed(c, c.cars);
    FirstWaits(c);
    ManyPass(c, c.cars);
    ls :| IsRun(c, s, ls) && After(c, s, ls) == t;
    hide IsRun, After, Reachable;
  }

  // ----- a VIP overtaken by every earlier car -----

  /** Cars a to b - 1, in order, with the given key. */
  function Row(a: nat, b: nat, priority: int, enterTime: int): (q: seq<Entry>)
    requires a <= b
    ensures |q| == b - a && forall k :: 0 <= k < b - a ==> q[k] == Entry(a + k, priority, enterTime)
  {
    seq(b - a, k requires 0 <= k => Entry(a + k, priority, enterTime))
  }

  /** The first j cars wait as regulars. */
  function Regulars(c: Config, j: nat): State
    requires j <= c.cars
  {
    Init(c).(
      cars := seq(c.cars, k requires 0 <= k => if k < j then Car(AwaitAdmission, 0, 0, 0) else Car(NotCreated, 0, 0, 0)),
      next := j, queue := Row(0, j, 0, 0), queueSem := j)
  }

  lemma {:induction false} RegularsGather(c: Config, j: nat)
    requires Positive(c) && j <= c.cars
    ensures Reachable(c, Regulars(c, j))
  {
    hide Leads;
    var o := Init(c);
    if j == 0 {
      LeadsHere(c, o);
      assert Regulars(c, 0).cars == o.cars && Regulars(c, 0) == o;
    } else {
      RegularsGather(c, j - 1);
      var s := Regulars(c, j - 1);
      var t := Joins(c, o, s, j - 1, 0, 0);
      PlaceIs(s.queue, Entry(j - 1, 0, 0), j - 1);
      assert t.queue == Row(0, j, 0, 0) && t.cars == Regulars(c, j).cars;
    }
  }

  /** Car n, the last, has come a second later as a VIP; before that, nobody has moved. */
  function VipFirst(c: Config): State
    requires c.cars > 0
  {
    var n := c.cars - 1;
    Regulars(c, n).(
      cars := Regulars(c, n).cars[n := Car(AwaitAdmission, 0, 1, 1)],
      next := c.cars, queue := [Entry(n, 1, 1)] + Row(0, n, 0, 0), queueSem := c.cars)
  }

  lemma VipComesFirst(c: Config)
    requires Positive(c)
    ensures Reachable(c, VipFirst(c))
  {
    hide Leads;
    var n := c.cars - 1;
    RegularsGather(c, n);
    var t := Joins(c, Init(c), Regulars(c, n), n, 1, 1);
    PlaceIs(Row(0, n, 0, 0), Entry(n, 1, 1), 0);
    assert t.queue == VipFirst(c).queue;
  }

  /** All have been promoted, and j of the earlier cars are gone. */
  function Served(c: Config, j: nat): State
    requires j < c.cars
  {
    var n := c.cars - 1;
    VipFirst(c).(
      cars := seq(c.cars, k requires 0 <= k =>
        if k < j then Car(Finished, 0, 0, 0) else if k < n then Car(AwaitAdmission, 0, 0, 0) else Car(AwaitAdmission, 0, 1, 1)),
      queue := Row(j, n, 1, 0) + [Entry(n, 1, 1)], queueSem := c.cars - j, doneSem := j,
      popped := seq(j, k requires 0 <= k => k))
  }

  lemma TiersSwap(x: Entry, row: seq<Entry>)
    requires forall k :: 0 <= k < |row| ==> !SameKey(row[k], x)
    ensures forall key :: Tier(row + [x], key) == Tier([x] + row, key)
  {
    forall key ensures Tier(row + [x], key) == Tier([x] + row, key) {
      TierConcat(row, [x], key);
      TierConcat([x], row, key);
      if SameKey(x, key) {
        TierNone(row, key);
      } else {
        TierNone([x], key);
      }
    }
  }

  lemma PassPutsEarlierFirst(n: nat)
    ensures Sort([Entry(n, 1, 1)] + Row(0, n, 1, 0)) == Row(0, n, 1, 0) + [Entry(n, 1, 1)]
  {
    var x, row := Entry(n, 1, 1), Row(0, n, 1, 0);
    TiersSwap(x, row);
    SortIsTheStableOrder([x] + row, row + [x]);
  }

  lemma PassPromotesAll(c: Config)
    requires Positive(c) && 0.0 < c.threshold <= 1.0
    ensures Leads(c, VipFirst(c), Served(c, 0))
  {
    hide Leads, Sort;
    var n, s := c.cars - 1, VipFirst(c);
    LeadsHere(c, s);
    LeadsOn(c, s, s, MonitorPass(1));
    PromotionNeedsALaterSecond(Entry(0, 0, 0), 1, c.threshold);
    assert AgeAll(s.queue, 1, c.threshold) == [Entry(n, 1, 1)] + Row(0, n, 1, 0) by {
      forall k | 0 <= k < n ensures Aged(Entry(k, 0, 0), 1, c.threshold) == Entry(k, 1, 0) {
        PromotionNeedsALaterSecond(Entry(k, 0, 0), 1, c.threshold);
      }
    }
    PassPutsEarlierFirst(n);
    assert s.cars == Served(c, 0).cars && s.popped == Served(c, 0).popped;
  }

  lemma {:induction false} EarlierAreServed(c: Config, j: nat)
    requires Positive(c) && j < c.cars && 0.0 < c.threshold <= 1.0
    ensures Leads(c, VipFirst(c), Served(c, j))
  {
    hide Leads;
    if j == 0 {
      PassPromotesAll(c);
    } else {
      EarlierAreServed(c, j - 1);
      var t := ServeHead(c, VipFirst(c), Served(c, j - 1), j - 1);
      assert t.queue == Served(c, j).queue && t.cars == Served(c, j).cars && t.popped == Served(c, j).popped;
    }
  }

  /** The overtaking bound is met, for any number K - 1 of earlier cars: a VIP at the head of the
      queue is overtaken by exactly as many cars as the bound allows, all of them. */
  lemma EveryEarlierCarCanOvertake(c: Config) returns (s: State, ls: seq<Label>, t: State)
    requires Positive(c) && 0.0 < c.threshold <= 1.0
    ensures Reachable(c, s) && IsRun(c, s, ls) && t == After(c, s, ls)
    ensures |s.queue| == c.cars && s.queue[0] == Entry(c.cars - 1, 1, 1) && s.popped == []
    ensures |t.popped| == c.cars - 1 && s.queue[0].id !in t.popped
    ensures |t.popped| - |s.popped| == 0 + |Overtakers(s, t, s.queue[0], 0)|
  {
    s, t := VipFirst(c), Served(c, c.cars - 1);
    VipComesFirst(c);
    EarlierAreServed(c, c.cars - 1);
    ls :| IsRun(c, s, ls) && After(c, s, ls) == t;
    hide IsRun, After, Reachable;
    OvertakingIsBounded(c, s, ls, 0, t, |t.popped|);
    assert Overtakers(s, t, s.queue[0], 0) <= Below(c.cars - 1);
    SubsetSize(Overtakers(s, t, s.queue[0], 0), Below(c.cars - 1));
  }
}
