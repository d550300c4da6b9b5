/** The longest hunger at small tables: the bounds of 6 and 21 steps are met. */
module LongestHunger {
  import opened Philosophers

  /** Two philosophers: 0 has just become HUNGRY, 1 has its sticks but has not started to eat. */
  function Duel(k: nat): State
    requires k <= 6
  {
    match k
    case 0 => State(0, [0, 1], [HUNGRY, EATING], [TestSelf, WaitEater])
    case 1 => State(0, [0, 1], [HUNGRY, EATING], [LeaveTake, WaitEater])
    case 2 => State(1, [0, 1], [HUNGRY, EATING], [WaitEater, WaitEater])
    case 3 => State(1, [0, 0], [HUNGRY, EATING], [WaitEater, Eat])
    case 4 => State(1, [0, 0], [HUNGRY, EATING], [WaitEater, EnterPut])
    case 5 => State(0, [0, 0], [HUNGRY, EATING], [WaitEater, SetThinking])
    case _ => State(0, [0, 0], [HUNGRY, THINKING], [WaitEater, TestLeft])
  }

  /** Three philosophers: 2 has its sticks, 1 becomes HUNGRY after 0 and is served first when 2
      puts down, and 2 is HUNGRY again before 1 puts down. */
  function Trio(k: nat): State
    requires k <= 21
  {
    match k
    case 0 => State(0, [0, 0, 1], [HUNGRY, THINKING, EATING], [TestSelf, Think, WaitEater])
    case 1 => State(0, [0, 0, 1], [HUNGRY, THINKING, EATING], [LeaveTake, Think, WaitEater])
    case 2 => State(1, [0, 0, 1], [HUNGRY, THINKING, EATING], [WaitEater, Think, WaitEater])
    case 3 => State(0, [0, 0, 1], [HUNGRY, THINKING, EATING], [WaitEater, SetHungry, WaitEater])
    case 4 => State(0, [0, 0, 1], [HUNGRY, HUNGRY, EATING], [WaitEater, TestSelf, WaitEater])
    case 5 => State(0, [0, 0, 1], [HUNGRY, HUNGRY, EATING], [WaitEater, LeaveTake, WaitEater])
    case 6 => State(1, [0, 0, 1], [HUNGRY, HUNGRY, EATING], [WaitEater, WaitEater, WaitEater])
    case 7 => State(1, [0, 0, 0], [HUNGRY, HUNGRY, EATING], [WaitEater, WaitEater, Eat])
    case 8 => State(1, [0, 0, 0], [HUNGRY, HUNGRY, EATING], [WaitEater, WaitEater, EnterPut])
    case 9 => State(0, [0, 0, 0], [HUNGRY, HUNGRY, EATING], [WaitEater, WaitEater, SetThinking])
    case 10 => State(0, [0, 0, 0], [HUNGRY, HUNGRY, THINKING], [WaitEater, WaitEater, TestLeft])
    case 11 => State(0, [0, 1, 0], [HUNGRY, EATING, THINKING], [WaitEater, WaitEater, TestRight])
    case 12 => State(0, [0, 1, 0], [HUNGRY, EATING, THINKING], [WaitEater, WaitEater, LeavePut])
    case 13 => State(1, [0, 1, 0], [HUNGRY, EATING, THINKING], [WaitEater, WaitEater, Think])
    case 14 => State(0, [0, 1, 0], [HUNGRY, EATING, THINKING], [WaitEater, WaitEater, SetHungry])
    case 15 => State(0, [0, 1, 0], [HUNGRY, EATING, HUNGRY], [WaitEater, WaitEater, TestSelf])
    case 16 => State(0, [0, 1, 0], [HUNGRY, EATING, HUNGRY], [WaitEater, WaitEater, LeaveTake])
    case 17 => State(1, [0, 1, 0], [HUNGRY, EATING, HUNGRY], [WaitEater, WaitEater, WaitEater])
    case 18 => State(1, [0, 0, 0], [HUNGRY, EATING, HUNGRY], [WaitEater, Eat, WaitEater])
    case 19 => State(1, [0, 0, 0], [HUNGRY, EATING, HUNGRY], [WaitEater, EnterPut, WaitEater])
    case 20 => State(0, [0, 0, 0], [HUNGRY, EATING, HUNGRY], [WaitEater, SetThinking, WaitEater])
    case _ => State(0, [0, 0, 0], [HUNGRY, THINKING, HUNGRY], [WaitEater, TestLeft, WaitEater])
  }

  function At(n: nat, k: nat): State
    requires 2 <= n <= 3 && k <= HungerBound(n)
  {
    if n == 2 then Duel(k) else Trio(k)
  }

  function Turn(n: nat, k: nat): nat {
    if k < 2 then 0 else if n == 2 || k < 6 || k >= 17 then 1 else 2
  }

  /** Philosopher 0 is HUNGRY before step k, and step k leads on. */
  ghost predicate LeadsOn(n: nat, k: nat)
    requires 2 <= n <= 3 && k < HungerBound(n)
  {
    && Sized(At(n, k), n) && At(n, k).mood[0] == HUNGRY
    && Enabled(At(n, k), Turn(n, k)) && Next(At(n, k), Turn(n, k)) == At(n, k + 1)
  }

  lemma DuelLeadsOn(k: nat)
    requires k < 6
    ensures LeadsOn(2, k)
  {
  }

  lemma TrioStarts(k: nat)
    requires k < 6
    ensures LeadsOn(3, k)
  {
  }

  lemma TrioEats(k: nat)
    requires 6 <= k < 12
    ensures LeadsOn(3, k)
  {
  }

  lemma TrioGoesOn(k: nat)
    requires 12 <= k < 17
    ensures LeadsOn(3, k)
  {
  }

  lemma TrioEnds(k: nat)
    requires 17 <= k < 21
    ensures LeadsOn(3, k)
  {
  }

  lemma AlwaysLeadsOn(n: nat, k: nat)
    requires 2 <= n <= 3 && k < HungerBound(n)
    ensures LeadsOn(n, k)
  {
    hide LeadsOn;
    if n == 2 {
      DuelLeadsOn(k);
    } else if k < 6 {
      TrioStarts(k);
    } else if k < 12 {
      TrioEats(k);
    } else if k < 17 {
      TrioGoesOn(k);
    } else {
      TrioEnds(k);
    }
  }

  lemma {:induction false} RestOfHunger(n: nat, k: nat) returns (ids: seq<nat>)
    requires 2 <= n <= 3 && k <= HungerBound(n)
    ensures IsRun(At(n, k), ids) && StaysHungry(At(n, k), ids, 0) && |ids| == HungerBound(n) - k
    decreases HungerBound(n) - k
  {
    hide At, Turn, Next, Enabled, IsRun, StaysHungry, After;
    if k == HungerBound(n) {
      ids := [];
      EndsHungry(n);
    } else {
      AlwaysLeadsOn(n, k);
      ids := RestOfHunger(n, k + 1);
      OneMoreHungry(At(n, k), Turn(n, k), ids, 0);
      ids := [Turn(n, k)] + ids;
    }
  }

  lemma EndsHungry(n: nat)
    requires 2 <= n <= 3
    ensures IsRun(At(n, HungerBound(n)), []) && StaysHungry(At(n, HungerBound(n)), [], 0)
  {
  }

  /** The last philosopher takes its sticks, then 0 becomes HUNGRY. */
  lemma HungerBegins(n: nat)
    requires 2 <= n <= 3
    ensures Reachable(At(n, 0), n)
  {
    hide Reachable, Next, Enabled;
    StartIsReachable(n);
    var s := Init(n);
    var t := TakeAlone(s, n, n - 1);
    assert Sized(t, n) && t.pc[0] == Think;
    TakeEnters(t, n, 0);
    StepIsReachable(t, n, 0);
    StepIsReachable(Next(t, 0), n, 0);
    assert Next(Next(t, 0), 0) == At(n, 0);
  }

  /** Exactly how long hunger can last: without bound from four philosophers on, and up to 6
      or 21 steps for two or three. */
  lemma HungerLastsExactly(n: nat, k: nat)
    requires n >= 2
    ensures CanStayHungry(n, k) <==> n >= 4 || k <= HungerBound(n)
  {
    if n >= 4 {
      HungerIsUnboundedExactly(n);
    } else {
      HungerBegins(n);
      var ids := RestOfHunger(n, 0);
      if CanStayHungry(n, k) {
        var s, ls, h :| Reachable(s, n) && IsRun(s, ls) && StaysHungry(s, ls, h) && |ls| >= k;
        HungerEnds(s, ls, n, h);
      }
    }
  }
}
