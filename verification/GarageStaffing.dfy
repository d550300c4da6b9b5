/** For which staffing the branch "no tester despite the semaphore" is dead: exactly if no more
    cars than there are testers can hold a worker permit at once. */
module GarageStaffing {
  import opened CarQueue
  import opened GarageModel
  import opened GarageRuns
  import opened GarageSafety
  import opened Wrappers

  /** The first j cars are having their test, each with a tester of its own; nobody else has
      been created, and everything they do not hold is in its place. */
  function Testing(c: Config, j: nat): State
    requires j <= c.cars && j <= c.capacity && j <= c.workers
  {
    State(
      Sems(c.capacity - j, c.mechanics, c.tablets, c.wrenches, c.transfers, c.workers - j, c.boxes), 0, 0,
      seq(c.mechanics, _ => true), seq(c.testers, k => k >= j),
      None, None, None,
      [],
      seq(c.cars, k requires 0 <= k => if k < j then Car(Test(k + 1), 0, 0, 0) else Car(NotCreated, 0, 0, 0)),
      j, WaitQueue, 0, seq(j, k requires 0 <= k => k))
  }

  /** From one car to the next: car j comes as far as the busy testers. */
  lemma NextCarScans(c: Config, j: nat) returns (t: State)
    requires Positive(c) && j < c.cars && j < c.capacity && j < c.workers && j <= c.testers
    requires Reachable(c, Testing(c, j))
    ensures Reachable(c, t) && |t.cars| == c.cars
    ensures t == Testing(c, j).(
      cars := Testing(c, j).cars[j := Car(ScanTester(j), 0, 0, 0)],
      next := j + 1, popped := Testing(c, j).popped + [j], testerOwner := Some(j),
      sems := Testing(c, j).sems.(slots := c.capacity - j - 1, worker := c.workers - j - 1))
  {
    hide Leads;
    var o, s := Init(c), Testing(c, j);
    t := Joins(c, o, s, j, 0, 0);
    assert t.queue == [Entry(j, 0, 0)];
    t := IsAdmitted(c, o, t, j);
    t := TakesMechanic(c, o, t, j);
    t := IsRepaired(c, o, t, j);
    t := MovesOver(c, o, t, j);
    assert s.mechanicFree[0 := false][0 := true] == s.mechanicFree;
    t := StartsScan(c, o, t, j);
    t := ScansPast(c, o, t, j, j);
    assert t.cars == s.cars[j := Car(ScanTester(j), 0, 0, 0)];
  }

  lemma {:induction false} TestingIsReachable(c: Config, j: nat)
    requires Positive(c) && j <= c.cars && j <= c.capacity && j <= c.workers && j <= c.testers
    ensures Reachable(c, Testing(c, j))
  {
    hide Leads;
    if j == 0 {
      assert Init(c) == Testing(c, 0);
      LeadsHere(c, Init(c));
    } else {
      TestingIsReachable(c, j - 1);
      var t := NextCarScans(c, j - 1);
      t := TakesTester(c, Init(c), t, j - 1, j - 1);
      assert t.cars == Testing(c, j).cars && t.testerFree == Testing(c, j).testerFree;
      assert t.popped == Testing(c, j).popped;
    }
  }

  /** Some car is in the branch for "no tester despite the semaphore". */
  ghost predicate SomebodyEmptyHanded(s: State) {
    exists i :: 0 <= i < |s.cars| && s.cars[i].pc == PostWorkerOnError
  }

  lemma UnderstaffedFails(c: Config) returns (s: State)
    requires Positive(c) && !Staffed(c)
    ensures Reachable(c, s) && SomebodyEmptyHanded(s)
  {
    TestingIsReachable(c, c.testers);
    s := NextCarScans(c, c.testers);
    s := FindsNobody(c, Init(c), s, c.testers);
    assert s.cars[c.testers].pc == PostWorkerOnError;
  }

  /** With positive constants, the error branch of the tester station can be reached if and only
      if the workers, the cars and the capacity all outnumber the testers. */
  lemma TesterBranchReachableExactly(c: Config)
    requires Positive(c)
    ensures (exists s :: Reachable(c, s) && SomebodyEmptyHanded(s)) <==>
      c.workers > c.testers && c.cars > c.testers && c.capacity > c.testers
  {
    if Staffed(c) {
      if s :| Reachable(c, s) && SomebodyEmptyHanded(s) {
        var i :| 0 <= i < |s.cars| && s.cars[i].pc == PostWorkerOnError;
        hide Reachable, Leads;
        NobodyComesAwayEmptyHanded(c, s, Testers, i);
      }
    } else {
      var s := UnderstaffedFails(c);
    }
  }
}
