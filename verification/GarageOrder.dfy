/** The order in which waiting cars stand and are called: exactly when a later arrival passes an
    earlier one with the same entry time, and who may pass a car that is still regular. */
module GarageOrder {
  import opened CarQueue
  import opened GarageModel
  import opened GarageInvariants
  import opened GarageAging

  // ----- same entry time -----

  /** Car a stands in front of car b. */
  ghost predicate Ahead(q: seq<Entry>, a: nat, b: nat) {
    exists i, j :: 0 <= i < j < |q| && q[i].id == a && q[j].id == b
  }

  lemma AheadOneWay(q: seq<Entry>, a: nat, b: nat)
    requires DistinctIds(q) && Has(q, a) && Has(q, b) && a != b
    ensures Ahead(q, a, b) <==> !Ahead(q, b, a)
  {
    var i :| 0 <= i < |q| && q[i].id == a;
    var j :| 0 <= j < |q| && q[j].id == b;
    assert i < j ==> Ahead(q, a, b);
    assert j < i ==> Ahead(q, b, a);
  }

  lemma InsertKeepsAhead(q: seq<Entry>, x: Entry, a: nat, b: nat)
    requires Ahead(q, a, b)
    ensures Ahead(CarQueue.Insert(q, x), a, b)
  {
    var i, j :| 0 <= i < j < |q| && q[i].id == a && q[j].id == b;
    assert Precedes(q, q[i], q[j]);
    InsertKeepsOrder(q, x, q[i], q[j]);
    var i', j' :| 0 <= i' < j' < |CarQueue.Insert(q, x)| && CarQueue.Insert(q, x)[i'] == q[i] && CarQueue.Insert(q, x)[j'] == q[j];
    hide CarQueue.Insert;
  }

  /** A pass keeps the order of two cars with the same entry time, promoted or not. */
  lemma AgingKeepsAhead(q: seq<Entry>, now: int, threshold: real, i: nat, j: nat)
    requires Sorted(q) && i < j < |q| && q[i].enterTime == q[j].enterTime
    requires 0 <= q[i].priority <= 1 && 0 <= q[j].priority <= 1
    ensures Ahead(Sort(AgeAll(q, now, threshold)), q[i].id, q[j].id)
  {
    var aged := AgeAll(q, now, threshold);
    assert !Before(aged[j], aged[i]);
    SortKeepsOrder(aged, i, j);
    var r := Sort(aged);
    hide Sort;
    var i', j' :| 0 <= i' < j' < |r| && r[i'] == aged[i] && r[j'] == aged[j];
  }

  /** One step keeps the order of a and b until a is called. */
  lemma StepKeepsAhead(c: Config, s: State, l: Label, a: nat, b: nat)
    requires Inv(c, s) && Enabled(c, s, l)
    requires a < |s.cars| && b < |s.cars| && s.cars[a].enterTime == s.cars[b].enterTime
    requires Ahead(s.queue, a, b)
    ensures var s' := Next(c, s, l);
      Ahead(s'.queue, a, b) || s'.popped == s.popped + [a]
  {
    var i, j :| 0 <= i < j < |s.queue| && s.queue[i].id == a && s.queue[j].id == b;
    match l
    case CarStep(k) =>
      CarStepFrame(c, s, k);
      CarMovesQueue(c, s, k);
      if s.cars[k].pc == Insert && |s.queue| < c.cars {
        InsertKeepsAhead(s.queue, Entry(k, s.cars[k].priority, s.cars[k].enterTime), a, b);
      }
      hide CarNext, CarEnabled, StationOk, Conserved, CarQueue.Insert;
    case MonitorPass(now) =>
      AgingKeepsAhead(s.queue, now, c.threshold, i, j);
      hide StationOk, Conserved, Sort;
    case ManagerStep =>
      if s.manager == PopQueue && i > 0 {
        assert s.queue[1..][i - 1].id == a && s.queue[1..][j - 1].id == b;
      }
      hide StationOk, Conserved;
    case _ =>
      hide StationOk, Conserved;
  }

  lemma AheadAreTwo(c: Config, s: State, a: nat, b: nat)
    requires Inv(c, s) && Ahead(s.queue, a, b)
    ensures a != b
  {
    var i, j :| 0 <= i < j < |s.queue| && s.queue[i].id == a && s.queue[j].id == b;
    hide StationOk, Conserved, Handover;
  }

  /** Who stands in the queue has not been called. */
  lemma AheadNotPopped(c: Config, s: State, a: nat, b: nat)
    requires Inv(c, s) && Ahead(s.queue, a, b)
    ensures a !in s.popped && b !in s.popped
  {
    hide StationOk, Conserved, Shape;
    assert Has(s.queue, a) && Has(s.queue, b);
    assert Waiting(s, a) && Waiting(s, b);
    assert a in s.popped <==> Admitted(s, a);
    assert b in s.popped <==> Admitted(s, b);
  }

  /** Cars a and b have been created with the same clock reading, and a waits ahead of b. */
  ghost predicate InOrder(c: Config, s: State, a: nat, b: nat) {
    && Inv(c, s) && Ahead(s.queue, a, b)
    && a < s.next <= |s.cars| && b < s.next && s.cars[a].enterTime == s.cars[b].enterTime
  }

  lemma StepKeepsOrder(c: Config, s: State, l: Label, a: nat, b: nat)
    requires InOrder(c, s, a, b) && Enabled(c, s, l)
    ensures InOrder(c, Next(c, s, l), a, b) || Next(c, s, l).popped == s.popped + [a]
  {
    hide Next, Enabled, Ahead;
    StepKeepsAhead(c, s, l, a, b);
    StepKeepsInv(c, s, l);
    StepKeepsRecords(c, s, l);
    NextIsBounded(c, Next(c, s, l));
    hide Inv;
  }

  lemma NextIsBounded(c: Config, s: State)
    requires Inv(c, s)
    ensures s.next <= |s.cars|
  {
  }

  /** In a list of calls, b comes after a. */
  ghost predicate CalledAfter(popped: seq<nat>, a: nat, b: nat) {
    forall m :: 0 <= m < |popped| && popped[m] == b ==> a in popped[..m]
  }

  lemma CalledFirst(before: seq<nat>, popped: seq<nat>, a: nat, b: nat)
    requires before + [a] <= popped && b !in before && a != b
    ensures a in popped && CalledAfter(popped, a, b)
  {
    assert popped[|before|] == a;
    assert forall x :: 0 <= x < |before| ==> before[x] == popped[x] && before[x] != b;
    forall m | 0 <= m < |popped| && popped[m] == b ensures a in popped[..m] {
      assert popped[..m][|before|] == a;
    }
  }

  /** Two cars with the same entry time never change places while they wait, and are called in
      the order in which they stand. */
  lemma {:induction false} OrderIsKept(c: Config, s: State, ls: seq<Label>, a: nat, b: nat, t: State)
    requires InOrder(c, s, a, b) && IsRun(c, s, ls) && t == After(c, s, ls)
    ensures Ahead(t.queue, a, b) || a in t.popped
    ensures CalledAfter(t.popped, a, b)
    decreases |ls|
  {
    hide Inv, Ahead, Next, Enabled, CalledAfter;
    AheadNotPopped(c, s, a, b);
    AheadAreTwo(c, s, a, b);
    if ls == [] {
      NeverCalled(s.popped, a, b);
    } else {
      StepKeepsOrder(c, s, ls[0], a, b);
      StepKeepsInv(c, s, ls[0]);
      PoppedGrows(c, Next(c, s, ls[0]), ls[1..]);
      if InOrder(c, Next(c, s, ls[0]), a, b) {
        OrderIsKept(c, Next(c, s, ls[0]), ls[1..], a, b, t);
      } else {
        CalledFirst(s.popped, t.popped, a, b);
      }
    }
  }

  lemma NeverCalled(popped: seq<nat>, a: nat, b: nat)
    requires b !in popped
    ensures CalledAfter(popped, a, b)
  {
  }

  /** Where a newcomer goes relative to a car that waits: ahead exactly if it beats it. */
  lemma NewcomerGoes(q: seq<Entry>, x: Entry, k: nat)
    requires Sorted(q) && k < |q|
    ensures if Before(x, q[k]) then Ahead(CarQueue.Insert(q, x), x.id, q[k].id) else Ahead(CarQueue.Insert(q, x), q[k].id, x.id)
  {
    var p, r := Place(q, x), CarQueue.Insert(q, x);
    assert r[p] == x;
    if k < p {
      if k + 1 < p {
        assert !Before(q[p - 1], q[k]);
      }
      assert r[k] == q[k];
    } else {
      assert r[k + 1] == q[k];
    }
  }

  /** Arrival order among equal entry times, exactly. When b joins, a waits with the same clock
      reading. From then on, whatever happens, b stands ahead of a if and only if b was drawn a
      VIP and a was still regular at that moment; otherwise a stands ahead. And whoever stands
      ahead is called first. */
  lemma ArrivalOrderExactly(c: Config, s: State, b: nat, k: nat, ls: seq<Label>, t: State)
    requires Reachable(c, s) && CarEnabled(s, b) && s.cars[b].pc == Insert && k < |s.queue|
    requires s.queue[k].enterTime == s.cars[b].enterTime
    requires IsRun(c, Next(c, s, CarStep(b)), ls) && t == After(c, Next(c, s, CarStep(b)), ls)
    ensures var a, passes := s.queue[k].id, s.cars[b].priority == 1 && s.queue[k].priority == 0;
      && (Has(t.queue, a) && Has(t.queue, b) ==> (Ahead(t.queue, b, a) <==> passes) && (Ahead(t.queue, a, b) <==> !passes))
      && (passes ==> CalledAfter(t.popped, b, a)) && (!passes ==> CalledAfter(t.popped, a, b))
  {
    var a, s1 := s.queue[k].id, Next(c, s, CarStep(b));
    ReachableInv(c, s);
    NewcomerInOrder(c, s, b, k);
    var first, second := if Before(JoiningEntry(s, b), s.queue[k]) then b else a, if Before(JoiningEntry(s, b), s.queue[k]) then a else b;
    OrderIsKept(c, s1, ls, first, second, t);
    RunKeepsInv(c, s1, ls);
    PassesMeansBeats(c, s, b, k);
    hide Next, Enabled, CarEnabled, Reachable, IsRun, After, InOrder, CalledAfter, Before;
    if Has(t.queue, a) && Has(t.queue, b) {
      WaitingIsNotCalled(c, t, a);
      WaitingIsNotCalled(c, t, b);
      InvIsDistinct(c, t);
      hide Inv, Ahead, Has;
      AheadOneWay(t.queue, a, b);
    }
  }

  lemma InvIsDistinct(c: Config, s: State)
    requires Inv(c, s)
    ensures DistinctIds(s.queue)
  {
  }

  lemma WaitingIsNotCalled(c: Config, s: State, a: nat)
    requires Inv(c, s) && Has(s.queue, a)
    ensures a !in s.popped
  {
    hide StationOk, Conserved, Shape;
    assert Waiting(s, a);
    assert a in s.popped <==> Admitted(s, a);
  }

  function JoiningEntry(s: State, b: nat): Entry
    requires b < |s.cars|
  {
    Entry(b, s.cars[b].priority, s.cars[b].enterTime)
  }

  lemma PassesMeansBeats(c: Config, s: State, b: nat, k: nat)
    requires Inv(c, s) && b < |s.cars| && k < |s.queue| && s.queue[k].enterTime == s.cars[b].enterTime
    ensures Before(JoiningEntry(s, b), s.queue[k]) <==> s.cars[b].priority == 1 && s.queue[k].priority == 0
  {
    assert 0 <= s.queue[k].priority <= 1 && 0 <= s.cars[b].priority <= 1;
    hide StationOk, Conserved, Handover;
  }

  lemma NewcomerStands(c: Config, s: State, b: nat, k: nat)
    requires CarEnabled(s, b) && s.cars[b].pc == Insert && k < |s.queue| < c.cars && Sorted(s.queue)
    ensures var a, s1 := s.queue[k].id, Next(c, s, CarStep(b));
      if Before(JoiningEntry(s, b), s.queue[k]) then Ahead(s1.queue, b, a) else Ahead(s1.queue, a, b)
  {
    hide CarNext, Ahead, Before, CarQueue.Insert, Sorted;
    CarMovesQueue(c, s, b);
    NewcomerGoes(s.queue, JoiningEntry(s, b), k);
  }

  lemma NewcomerInOrder(c: Config, s: State, b: nat, k: nat)
    requires Inv(c, s) && CarEnabled(s, b) && s.cars[b].pc == Insert && k < |s.queue|
    requires s.queue[k].enterTime == s.cars[b].enterTime
    ensures var a, s1 := s.queue[k].id, Next(c, s, CarStep(b));
      if Before(JoiningEntry(s, b), s.queue[k]) then InOrder(c, s1, b, a) else InOrder(c, s1, a, b)
    ensures s.queue[k].id != b
  {
    JoiningIsNew(c, s, b, k);
    NewcomerStands(c, s, b, k);
    StepKeepsInv(c, s, CarStep(b));
    InvHasShape(c, s);
    StepKeepsRecords(c, s, CarStep(b));
    QueuedIsCreated(c, s, k);
    NextIsBounded(c, Next(c, s, CarStep(b)));
    hide Inv, Shape, Next, CarEnabled, Ahead, Before, Sorted;
  }

  lemma InvHasShape(c: Config, s: State)
    requires Inv(c, s)
    ensures Shape(c, s)
  {
  }

  lemma JoiningIsNew(c: Config, s: State, b: nat, k: nat)
    requires Inv(c, s) && b < |s.cars| && s.cars[b].pc == Insert && k < |s.queue|
    ensures b < s.next && |s.queue| < c.cars && Sorted(s.queue) && s.queue[k].id != b
  {
    hide StationOk, Conserved, Handover;
    QueueHasRoom(c, s, b);
    assert Has(s.queue, s.queue[k].id);
  }
}
