/** Building runs: the way of one car through the institute when nobody interferes. Each lemma
    carries a run that began in some state o on by a few steps. */
module GarageRuns {
  import opened CarQueue
  import opened GarageModel
  import opened Wrappers

  lemma {:induction false} RunsCompose(c: Config, s: State, ls: seq<Label>, more: seq<Label>)
    requires IsRun(c, s, ls) && IsRun(c, After(c, s, ls), more)
    ensures IsRun(c, s, ls + more) && After(c, s, ls + more) == After(c, After(c, s, ls), more)
    decreases |ls|
  {
    hide Next, Enabled;
    if ls == [] {
      assert ls + more == more;
    } else {
      assert (ls + more)[1..] == ls[1..] + more;
      RunsCompose(c, Next(c, s, ls[0]), ls[1..], more);
    }
  }

  lemma LeadsHere(c: Config, s: State)
    ensures Leads(c, s, s)
  {
    assert IsRun(c, s, []) && After(c, s, []) == s;
  }

  lemma RunOfOne(c: Config, s: State, l: Label)
    requires Enabled(c, s, l)
    ensures IsRun(c, s, [l]) && After(c, s, [l]) == Next(c, s, l)
  {
    hide Enabled, Next;
    assert [l][1..] == [];
  }

  lemma LeadsOn(c: Config, o: State, s: State, l: Label)
    requires Leads(c, o, s) && Enabled(c, s, l)
    ensures Leads(c, o, Next(c, s, l))
  {
    hide Enabled, Next;
    var ls :| IsRun(c, o, ls) && After(c, o, ls) == s;
    RunOfOne(c, s, l);
    RunsCompose(c, o, ls, [l]);
  }

  lemma GoOn(c: Config, o: State, s: State, i: nat) returns (t: State)
    requires Leads(c, o, s) && CarEnabled(s, i)
    ensures Leads(c, o, t) && t == CarNext(c, s, i)
  {
    hide Leads, CarNext, CarEnabled;
    LeadsOn(c, o, s, CarStep(i));
    t := Next(c, s, CarStep(i));
  }

  // ----- into the institute -----

  /** A new car joins the queue. */
  lemma Joins(c: Config, o: State, s: State, i: nat, p: int, now: int) returns (t: State)
    requires Leads(c, o, s) && i < |s.cars| && s.next == i && s.cars[i].pc == NotCreated
    requires |s.queue| < c.cars && s.queueOwner == None && 0 <= p <= 1
    ensures Leads(c, o, t)
    ensures t == s.(cars := s.cars[i := Car(AwaitAdmission, 0, p, now)], next := i + 1,
                    queue := CarQueue.Insert(s.queue, Entry(i, p, now)), queueSem := s.queueSem + 1)
  {
    hide Leads, CarQueue.Insert;
    LeadsOn(c, o, s, Create(p, now));
    t := Next(c, s, Create(p, now));
    t := GoOn(c, o, t, i);
    t := GoOn(c, o, t, i);
    t := GoOn(c, o, t, i);
    assert t.cars == s.cars[i := Car(AwaitAdmission, 0, p, now)];
  }

  /** The manager admits the head of the queue. */
  lemma IsAdmitted(c: Config, o: State, s: State, i: nat) returns (t: State)
    requires Leads(c, o, s) && i < |s.cars| && s.cars[i].pc == AwaitAdmission && s.cars[i].sem == 0
    requires s.queue != [] && s.queue[0].id == i && s.queueSem > 0 && s.queueOwner == None
    requires s.manager == WaitQueue && s.sems.slots > 0
    ensures Leads(c, o, t)
    ensures t == Goto(s, i, WaitMechanic).(queue := s.queue[1..], queueSem := s.queueSem - 1, popped := s.popped + [i],
                                           sems := s.sems.(slots := s.sems.slots - 1))
  {
    hide Leads;
    LeadsOn(c, o, s, ManagerStep);
    t := Next(c, s, ManagerStep);
    LeadsOn(c, o, t, ManagerStep);
    t := Next(c, t, ManagerStep);
    LeadsOn(c, o, t, ManagerStep);
    t := Next(c, t, ManagerStep);
    LeadsOn(c, o, t, ManagerStep);
    t := Next(c, t, ManagerStep);
    t := GoOn(c, o, t, i);
    assert t.cars == Goto(s, i, WaitMechanic).cars;
  }

  // ----- the mechanics -----

  /** The car takes the first mechanic. */
  lemma TakesMechanic(c: Config, o: State, s: State, i: nat) returns (t: State)
    requires Leads(c, o, s) && i < |s.cars| && s.cars[i].pc == WaitMechanic
    requires s.sems.mechanic > 0 && s.mechanicOwner == None && |s.mechanicFree| > 0 && s.mechanicFree[0]
    ensures Leads(c, o, t)
    ensures t == Goto(s, i, WaitTablet(1)).(sems := s.sems.(mechanic := s.sems.mechanic - 1),
                                            mechanicFree := s.mechanicFree[0 := false])
  {
    hide Leads;
    t := GoOn(c, o, s, i);
    t := GoOn(c, o, t, i);
    t := GoOn(c, o, t, i);
    t := GoOn(c, o, t, i);
    t := GoOn(c, o, t, i);
    assert t.cars == Goto(s, i, WaitTablet(1)).cars;
  }

  /** It is repaired with both tools. */
  lemma TakesTools(c: Config, o: State, s: State, i: nat) returns (t: State)
    requires Leads(c, o, s) && i < |s.cars| && s.cars[i].pc == WaitTablet(1)
    requires s.sems.tablet > 0 && s.sems.wrench > 0
    ensures Leads(c, o, t)
    ensures t == Goto(s, i, PostWrench(1)).(sems := s.sems.(tablet := s.sems.tablet - 1, wrench := s.sems.wrench - 1))
  {
    hide Leads;
    t := GoOn(c, o, s, i);
    t := GoOn(c, o, t, i);
    t := GoOn(c, o, t, i);
    assert t.cars == Goto(s, i, PostWrench(1)).cars;
  }

  /** Both are put back. */
  lemma IsRepaired(c: Config, o: State, s: State, i: nat) returns (t: State)
    requires Leads(c, o, s) && i < |s.cars| && s.cars[i].pc == WaitTablet(1)
    requires s.sems.tablet > 0 && s.sems.wrench > 0
    ensures Leads(c, o, t) && t == Goto(s, i, WaitTransfer(1))
  {
    hide Leads;
    t := TakesTools(c, o, s, i);
    t := GoOn(c, o, t, i);
    t := GoOn(c, o, t, i);
    assert t.cars == Goto(s, i, WaitTransfer(1)).cars;
  }

  /** It moves over and lets its mechanic go. */
  lemma MovesOver(c: Config, o: State, s: State, i: nat) returns (t: State)
    requires Leads(c, o, s) && i < |s.cars| && s.cars[i].pc == WaitTransfer(1)
    requires s.sems.transfer > 0 && |s.mechanicFree| > 0
    ensures Leads(c, o, t)
    ensures t == Goto(s, i, WaitWorker).(sems := s.sems.(transfer := s.sems.transfer - 1, mechanic := s.sems.mechanic + 1),
                                         mechanicFree := s.mechanicFree[0 := true])
  {
    hide Leads;
    t := GoOn(c, o, s, i);
    t := GoOn(c, o, t, i);
    t := GoOn(c, o, t, i);
    assert t.cars == Goto(s, i, WaitWorker).cars;
  }

  // ----- the testers -----

  /** It gets a worker permit and begins to look for a tester. */
  lemma StartsScan(c: Config, o: State, s: State, i: nat) returns (t: State)
    requires Leads(c, o, s) && i < |s.cars| && s.cars[i].pc == WaitWorker
    requires s.sems.worker > 0 && s.testerOwner == None
    ensures Leads(c, o, t)
    ensures t == Goto(s, i, ScanTester(0)).(sems := s.sems.(worker := s.sems.worker - 1, transfer := s.sems.transfer + 1),
                                            testerOwner := Some(i))
  {
    hide Leads;
    t := GoOn(c, o, s, i);
    t := GoOn(c, o, t, i);
    t := GoOn(c, o, t, i);
    assert t.cars == Goto(s, i, ScanTester(0)).cars;
  }

  /** It passes the first k testers, who are all busy. */
  lemma {:induction false} ScansPast(c: Config, o: State, s: State, i: nat, k: nat) returns (t: State)
    requires Leads(c, o, s) && i < |s.cars| && s.cars[i].pc == ScanTester(0)
    requires k <= |s.testerFree| && forall m :: 0 <= m < k ==> !s.testerFree[m]
    ensures Leads(c, o, t) && t == Goto(s, i, ScanTester(k))
  {
    hide Leads;
    if k == 0 {
      t := s;
      assert t.cars == Goto(s, i, ScanTester(0)).cars;
    } else {
      t := ScansPast(c, o, s, i, k - 1);
      t := GoOn(c, o, t, i);
      assert t.cars == Goto(s, i, ScanTester(k)).cars;
    }
  }

  /** It claims tester k and leaves the section. */
  lemma TakesTester(c: Config, o: State, s: State, i: nat, k: nat) returns (t: State)
    requires Leads(c, o, s) && i < |s.cars| && s.cars[i].pc == ScanTester(k)
    requires s.testerOwner == Some(i) && k < |s.testerFree| && s.testerFree[k]
    ensures Leads(c, o, t)
    ensures t == Goto(s, i, Test(k + 1)).(testerOwner := None, testerFree := s.testerFree[k := false])
  {
    hide Leads;
    t := GoOn(c, o, s, i);
    t := GoOn(c, o, t, i);
    t := GoOn(c, o, t, i);
    assert t.cars == Goto(s, i, Test(k + 1)).cars;
  }

  /** Or it comes away with nothing. */
  lemma FindsNobody(c: Config, o: State, s: State, i: nat) returns (t: State)
    requires Leads(c, o, s) && i < |s.cars| && s.cars[i].pc == ScanTester(|s.testerFree|)
    ensures Leads(c, o, t) && t == Goto(s, i, PostWorkerOnError).(testerOwner := None)
  {
    hide Leads;
    t := GoOn(c, o, s, i);
    t := GoOn(c, o, t, i);
    assert t.cars == Goto(s, i, PostWorkerOnError).cars;
  }

  // ----- out again -----

  /** It is tested by the first tester and lets it go. */
  lemma IsTested(c: Config, o: State, s: State, i: nat) returns (t: State)
    requires Leads(c, o, s) && i < |s.cars| && s.cars[i].pc == Test(1) && |s.testerFree| > 0
    ensures Leads(c, o, t)
    ensures t == Goto(s, i, WaitBox).(sems := s.sems.(worker := s.sems.worker + 1), testerFree := s.testerFree[0 := true])
  {
    hide Leads;
    t := GoOn(c, o, s, i);
    t := GoOn(c, o, t, i);
    t := GoOn(c, o, t, i);
    assert t.cars == Goto(s, i, WaitBox).cars;
  }

  lemma Pays(c: Config, o: State, s: State, i: nat) returns (t: State)
    requires Leads(c, o, s) && i < |s.cars| && s.cars[i].pc == WaitBox && s.sems.box > 0
    ensures Leads(c, o, t) && t == Goto(s, i, PostSlots)
  {
    hide Leads;
    t := GoOn(c, o, s, i);
    t := GoOn(c, o, t, i);
    assert t.cars == Goto(s, i, PostSlots).cars;
  }

  lemma Leaves(c: Config, o: State, s: State, i: nat) returns (t: State)
    requires Leads(c, o, s) && i < |s.cars| && s.cars[i].pc == PostSlots
    ensures Leads(c, o, t)
    ensures t == Goto(s, i, Finished).(sems := s.sems.(slots := s.sems.slots + 1), doneSem := s.doneSem + 1)
  {
    hide Leads;
    t := GoOn(c, o, s, i);
    t := GoOn(c, o, t, i);
    assert t.cars == Goto(s, i, Finished).cars;
  }

  // ----- all the way -----

  /** Nobody is inside, and the manager is at rest. */
  predicate Calm(c: Config, s: State) {
    && s.sems == Init(c).sems && s.mechanicFree == Init(c).mechanicFree && s.testerFree == Init(c).testerFree
    && s.queueOwner == None && s.mechanicOwner == None && s.testerOwner == None
    && s.manager == WaitQueue && |s.cars| == c.cars
  }

  /** From the testers to the payment, or straight to the exit if there is no tester at all. */
  lemma GetsThroughTest(c: Config, o: State, s: State, i: nat) returns (t: State)
    requires Leads(c, o, s) && i < |s.cars| && s.cars[i].pc == WaitWorker
    requires s.sems.worker > 0 && s.sems.box > 0 && s.testerOwner == None
    requires forall k :: 0 <= k < |s.testerFree| ==> s.testerFree[k]
    ensures Leads(c, o, t)
    ensures t == Goto(s, i, PostSlots).(sems := s.sems.(transfer := s.sems.transfer + 1))
  {
    hide Leads;
    t := StartsScan(c, o, s, i);
    if |s.testerFree| > 0 {
      t := TakesTester(c, o, t, i, 0);
      t := IsTested(c, o, t, i);
      t := Pays(c, o, t, i);
      assert t.testerFree == s.testerFree;
    } else {
      t := FindsNobody(c, o, t, i);
      t := GoOn(c, o, t, i);
    }
    assert t.cars == Goto(s, i, PostSlots).cars;
  }

  /** The head of the queue is admitted and served, and everything it used is back. */
  lemma ServeHead(c: Config, o: State, s: State, i: nat) returns (t: State)
    requires Positive(c) && Calm(c, s) && Leads(c, o, s) && i < |s.cars|
    requires s.cars[i].pc == AwaitAdmission && s.cars[i].sem == 0
    requires s.queue != [] && s.queue[0].id == i && s.queueSem > 0
    ensures Leads(c, o, t) && Calm(c, t)
    ensures t == Goto(s, i, Finished).(queue := s.queue[1..], queueSem := s.queueSem - 1,
                                       popped := s.popped + [i], doneSem := s.doneSem + 1)
  {
    hide Leads;
    t := IsAdmitted(c, o, s, i);
    t := TakesMechanic(c, o, t, i);
    t := IsRepaired(c, o, t, i);
    t := MovesOver(c, o, t, i);
    assert t.mechanicFree == s.mechanicFree;
    t := GetsThroughTest(c, o, t, i);
    t := Leaves(c, o, t, i);
    assert t.cars == Goto(s, i, Finished).cars;
  }
}
