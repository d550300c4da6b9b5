/** Dining philosophers: the monitor of dining-philosophers.c as a transition system, with
    every statement of take_sticks and put_sticks a step of its own, and test() in place.

    Modelled as intended: all philosophers start THINKING and each thread has its own index. */
module Philosophers {

  datatype Mood = THINKING | HUNGRY | EATING

  /** The macros LEFT and RIGHT. */
  function Left(i: nat, n: nat): (l: nat)
    requires i < n
    ensures l == if i == 0 then n - 1 else i - 1
  {
    LeftWraps(i, n);
    (i + n - 1) % n
  }

  function Right(i: nat, n: nat): (r: nat)
    requires i < n
    ensures r == if i == n - 1 then 0 else i + 1
  {
    RightWraps(i, n);
    (i + 1) % n
  }

  lemma LeftWraps(i: nat, n: nat)
    requires i < n
    ensures (i + n - 1) % n == if i == 0 then n - 1 else i - 1
  {
  }

  lemma RightWraps(i: nat, n: nat)
    requires i < n
    ensures (i + 1) % n == if i == n - 1 then 0 else i + 1
  {
  }

  /** Program counters, named after the step about to be taken. */
  datatype Pc =
    | Think
    | SetHungry | TestSelf | LeaveTake    // take_sticks, mutex held
    | WaitEater                           // sem_wait(&eaters[i])
    | Eat
    | EnterPut                            // put_sticks: sem_wait(mutex)
    | SetThinking | TestLeft | TestRight | LeavePut  // mutex held

  datatype State = State(mutex: nat, eaters: seq<nat>, mood: seq<Mood>, pc: seq<Pc>)

  ghost predicate Sized(s: State, n: nat) {
    n >= 2 && |s.eaters| == n && |s.mood| == n && |s.pc| == n
  }

  function Init(n: nat): State {
    State(1, seq(n, _ => 0), seq(n, _ => THINKING), seq(n, _ => Think))
  }

  // ----- test() -----

  predicate CanEat(mood: seq<Mood>, i: nat)
    requires i < |mood|
  {
    mood[i] == HUNGRY && mood[Left(i, |mood|)] != EATING && mood[Right(i, |mood|)] != EATING
  }

  function Test(s: State, i: nat): State
    requires i < |s.mood| == |s.eaters|
  {
    if CanEat(s.mood, i) then s.(mood := s.mood[i := EATING], eaters := s.eaters[i := s.eaters[i] + 1]) else s
  }

  // ----- one philosopher's steps -----

  predicate Enabled(s: State, i: nat) {
    i < |s.pc| && |s.eaters| == |s.mood| == |s.pc| &&
    match s.pc[i]
    case Think => s.mutex > 0
    case EnterPut => s.mutex > 0
    case WaitEater => s.eaters[i] > 0
    case _ => true
  }

  function Goto(s: State, i: nat, pc: Pc): State
    requires i < |s.pc|
  {
    s.(pc := s.pc[i := pc])
  }

  function Next(s: State, i: nat): State
    requires Enabled(s, i)
  {
    var n := |s.pc|;
    match s.pc[i]
    case Think => Goto(s, i, SetHungry).(mutex := s.mutex - 1)
    case SetHungry => Goto(s, i, TestSelf).(mood := s.mood[i := HUNGRY])
    case TestSelf => Goto(Test(s, i), i, LeaveTake)
    case LeaveTake => Goto(s, i, WaitEater).(mutex := s.mutex + 1)
    case WaitEater => Goto(s, i, Eat).(eaters := s.eaters[i := s.eaters[i] - 1])
    case Eat => Goto(s, i, EnterPut)
    case EnterPut => Goto(s, i, SetThinking).(mutex := s.mutex - 1)
    case SetThinking => Goto(s, i, TestLeft).(mood := s.mood[i := THINKING])
    case TestLeft => Goto(Test(s, Left(i, n)), i, TestRight)
    case TestRight => Goto(Test(s, Right(i, n)), i, LeavePut)
    case LeavePut => Goto(s, i, Think).(mutex := s.mutex + 1)
  }

  // ----- the invariant -----

  predicate InSection(pc: Pc) {
    || pc == SetHungry || pc == TestSelf || pc == LeaveTake
    || pc == SetThinking || pc == TestLeft || pc == TestRight || pc == LeavePut
  }

  ghost predicate MutexOk(s: State) {
    && s.mutex <= 1
    && (forall i :: 0 <= i < |s.pc| && InSection(s.pc[i]) ==> s.mutex == 0)
    && (forall i, j :: 0 <= i < |s.pc| && 0 <= j < |s.pc| && InSection(s.pc[i]) && InSection(s.pc[j]) ==> i == j)
    && (s.mutex == 0 ==> exists i :: 0 <= i < |s.pc| && InSection(s.pc[i]))
  }

  /** How a philosopher's mood and semaphore go with its program counter. */
  predicate MoodFits(pc: Pc, mood: Mood, eater: nat) {
    match pc
    case Think => mood == THINKING && eater == 0
    case SetHungry => mood == THINKING && eater == 0
    case TestSelf => mood == HUNGRY && eater == 0
    case LeaveTake => (mood == HUNGRY && eater == 0) || (mood == EATING && eater == 1)
    case WaitEater => (mood == HUNGRY && eater == 0) || (mood == EATING && eater == 1)
    case Eat => mood == EATING && eater == 0
    case EnterPut => mood == EATING && eater == 0
    case SetThinking => mood == EATING && eater == 0
    case _ => mood == THINKING && eater == 0
  }

  ghost predicate MoodsFit(s: State)
    requires |s.eaters| == |s.mood| == |s.pc|
  {
    forall i :: 0 <= i < |s.pc| ==> MoodFits(s.pc[i], s.mood[i], s.eaters[i])
  }

  /** No two neighbours are EATING. */
  ghost predicate NeighboursApart(mood: seq<Mood>) {
    forall i :: 0 <= i < |mood| && mood[i] == EATING ==> mood[Right(i, |mood|)] != EATING
  }

  ghost predicate HasEatingNeighbour(mood: seq<Mood>, j: nat)
    requires j < |mood|
  {
    mood[Left(j, |mood|)] == EATING || mood[Right(j, |mood|)] == EATING
  }

  /** Philosopher j's request is about to be tested by the holder of the mutex. */
  ghost predicate TestPending(s: State, j: nat) {
    exists i :: 0 <= i < |s.pc| && j < |s.pc| &&
      (|| (s.pc[i] == TestSelf && j == i)
       || (s.pc[i] == TestLeft && (j == Left(i, |s.pc|) || j == Right(i, |s.pc|)))
       || (s.pc[i] == TestRight && j == Right(i, |s.pc|)))
  }

  /** No lost wake-up: who is HUNGRY has a neighbour EATING, or a test coming. */
  ghost predicate NobodyForgotten(s: State)
    requires |s.mood| == |s.pc|
  {
    forall j :: 0 <= j < |s.pc| && s.mood[j] == HUNGRY ==> HasEatingNeighbour(s.mood, j) || TestPending(s, j)
  }

  ghost predicate Inv(s: State, n: nat) {
    Sized(s, n) && MutexOk(s) && MoodsFit(s) && NeighboursApart(s.mood) && NobodyForgotten(s)
  }

  lemma InitHolds(n: nat)
    requires n >= 2
    ensures Inv(Init(n), n)
  {
  }

  lemma StepKeepsMutex(s: State, i: nat, n: nat)
    requires Inv(s, n) && Enabled(s, i)
    ensures MutexOk(Next(s, i))
  {
    var s' := Next(s, i);
    assert s'.pc == s.pc[i := s'.pc[i]];
    hide MoodsFit, NeighboursApart, NobodyForgotten;
    if s'.mutex == 0 {
      if s.mutex == 0 {
        var k :| 0 <= k < |s.pc| && InSection(s.pc[k]);
        assert InSection(s'.pc[k]);
      } else {
        assert InSection(s'.pc[i]);
      }
    }
  }

  lemma OwnMoodFits(s: State, i: nat, n: nat)
    requires Sized(s, n) && MoodsFit(s) && Enabled(s, i)
    ensures MoodFits(Next(s, i).pc[i], Next(s, i).mood[i], Next(s, i).eaters[i])
  {
    assert MoodFits(s.pc[i], s.mood[i], s.eaters[i]);
    assert Left(i, n) != i && Right(i, n) != i;
  }

  /** test() on j by another philosopher: j goes from HUNGRY to EATING and gets its post. */
  lemma OtherMoodFits(s: State, i: nat, n: nat, j: nat)
    requires Sized(s, n) && Enabled(s, i) && j < n && j != i && MoodFits(s.pc[j], s.mood[j], s.eaters[j])
    requires InSection(s.pc[i]) ==> !InSection(s.pc[j])
    ensures MoodFits(Next(s, i).pc[j], Next(s, i).mood[j], Next(s, i).eaters[j])
  {
    StepOnOthers(s, i, n, j);
    hide Next, Enabled, CanEat;
  }

  lemma StepOnOthers(s: State, i: nat, n: nat, j: nat)
    requires Sized(s, n) && Enabled(s, i) && j < n && j != i
    ensures var s' := Next(s, i);
      && Sized(s', n) && s'.pc[j] == s.pc[j]
      && ((s'.mood[j] == s.mood[j] && s'.eaters[j] == s.eaters[j])
          || (InSection(s.pc[i]) && s.mood[j] == HUNGRY && s'.mood[j] == EATING && s'.eaters[j] == s.eaters[j] + 1))
  {
  }

  lemma StepKeepsMoods(s: State, i: nat, n: nat)
    requires Inv(s, n) && Enabled(s, i)
    ensures Sized(Next(s, i), n) && MoodsFit(Next(s, i))
  {
    hide NeighboursApart, NobodyForgotten, MoodFits, Next, Enabled;
    NextKeepsSize(s, i, n);
    OwnMoodFits(s, i, n);
    assert forall j :: 0 <= j < n && j != i && InSection(s.pc[i]) ==> !InSection(s.pc[j]);
    forall j | 0 <= j < n && j != i
      ensures MoodFits(Next(s, i).pc[j], Next(s, i).mood[j], Next(s, i).eaters[j])
    {
      OtherMoodFits(s, i, n, j);
    }
  }

  lemma NextKeepsSize(s: State, i: nat, n: nat)
    requires Sized(s, n) && Enabled(s, i)
    ensures Sized(Next(s, i), n) && i < n
  {
  }

  /** The philosopher whom the step is about to test, if it is a test. */
  function Tested(pc: Pc, i: nat, n: nat): nat
    requires i < n
  {
    match pc
    case TestSelf => i
    case TestLeft => Left(i, n)
    case TestRight => Right(i, n)
    case _ => n
  }

  /** A step moves one program counter, and its mood change is one of four kinds. */
  lemma StepFrame(s: State, i: nat, n: nat)
    requires Sized(s, n) && Enabled(s, i)
    ensures i < n
    ensures var s', k := Next(s, i), Tested(s.pc[i], i, n);
      && Sized(s', n) && i < n && s'.pc == s.pc[i := s'.pc[i]]
      && (s.pc[i] == SetHungry ==> s'.mood == s.mood[i := HUNGRY] && s'.pc[i] == TestSelf)
      && (s.pc[i] == SetThinking ==> s'.mood == s.mood[i := THINKING] && s'.pc[i] == TestLeft)
      && (k < n ==> s'.mood == (if CanEat(s.mood, k) then s.mood[k := EATING] else s.mood))
      && (s.pc[i] == TestLeft ==> s'.pc[i] == TestRight)
      && (s.pc[i] != SetHungry && s.pc[i] != SetThinking && k >= n ==> s'.mood == s.mood)
  {
  }

  lemma TestKeepsApart(mood: seq<Mood>, k: nat)
    requires |mood| >= 2 && k < |mood| && NeighboursApart(mood) && CanEat(mood, k)
    ensures NeighboursApart(mood[k := EATING])
  {
    assert Right(Left(k, |mood|), |mood|) == k;
    forall j | 0 <= j < |mood| ensures Right(j, |mood|) == k ==> j == Left(k, |mood|) {}
  }

  lemma QuietChangeKeepsApart(mood: seq<Mood>, k: nat, m: Mood)
    requires k < |mood| && NeighboursApart(mood) && m != EATING
    ensures NeighboursApart(mood[k := m])
  {
    forall j | 0 <= j < |mood| ensures Right(j, |mood|) < |mood| {}
  }

  lemma StepKeepsApart(s: State, i: nat, n: nat)
    requires Inv(s, n) && Enabled(s, i)
    ensures NeighboursApart(Next(s, i).mood)
  {
    hide Next, Enabled, MutexOk, NobodyForgotten, MoodsFit, NeighboursApart, CanEat;
    StepFrame(s, i, n);
    var k := Tested(s.pc[i], i, n);
    if k < n {
      if CanEat(s.mood, k) {
        TestKeepsApart(s.mood, k);
      }
    } else if s.pc[i] == SetHungry {
      QuietChangeKeepsApart(s.mood, i, HUNGRY);
    } else if s.pc[i] == SetThinking {
      QuietChangeKeepsApart(s.mood, i, THINKING);
    }
  }

  /** What a test leaves behind: the tested one is settled, nobody loses an eating neighbour. */
  lemma TestSettles(mood: seq<Mood>, k: nat, j: nat)
    requires k < |mood| && j < |mood| && |mood| >= 2
    ensures var mood' := if CanEat(mood, k) then mood[k := EATING] else mood;
      && (HasEatingNeighbour(mood, j) ==> HasEatingNeighbour(mood', j))
      && (j == k && mood'[j] == HUNGRY ==> HasEatingNeighbour(mood', j))
      && (mood'[j] == HUNGRY ==> mood[j] == HUNGRY)
  {
  }

  lemma ElsewherePending(s: State, i: nat, n: nat, j: nat, k: nat)
    requires Sized(s, n) && Enabled(s, i) && k < n && k != i && j < n
    requires (s.pc[k] == TestSelf && j == k) || (s.pc[k] == TestLeft && (j == Left(k, n) || j == Right(k, n)))
      || (s.pc[k] == TestRight && j == Right(k, n))
    ensures TestPending(Next(s, i), j)
  {
    StepFrame(s, i, n);
    assert Next(s, i).pc[k] == s.pc[k];
  }

  lemma OwnPending(s': State, i: nat, n: nat, j: nat)
    requires Sized(s', n) && i < n && j < n
    requires (s'.pc[i] == TestSelf && j == i) || (s'.pc[i] == TestLeft && (j == Left(i, n) || j == Right(i, n)))
      || (s'.pc[i] == TestRight && j == Right(i, n))
    ensures TestPending(s', j)
  {
  }

  lemma ForgetsNot(s: State, i: nat, n: nat, j: nat)
    requires Sized(s, n) && NobodyForgotten(s) && Enabled(s, i) && j < n && Next(s, i).mood[j] == HUNGRY
    requires s.pc[i] == SetHungry ==> s.mood[i] == THINKING
    ensures HasEatingNeighbour(Next(s, i).mood, j) || TestPending(Next(s, i), j)
  {
    var s', k := Next(s, i), Tested(s.pc[i], i, n);
    StepFrame(s, i, n);
    if k < n {
      TestSettles(s.mood, k, j);
    }
    hide Next, Enabled, NobodyForgotten, CanEat;
    if s.pc[i] == SetHungry && j == i {
      OwnPending(s', i, n, j);
    } else if s.pc[i] == SetThinking && (j == Left(i, n) || j == Right(i, n)) {
      OwnPending(s', i, n, j);
    } else if s.pc[i] == TestLeft && j == Right(i, n) && j != k {
      OwnPending(s', i, n, j);
    } else {
      assert HasEatingNeighbour(s.mood, j) || TestPending(s, j) by { WasNotForgotten(s, j); }
      if HasEatingNeighbour(s.mood, j) {
        assert Left(j, n) == i ==> j == Right(i, n);
        assert Right(j, n) == i ==> j == Left(i, n);
      } else {
        var p :| 0 <= p < n && (
          || (s.pc[p] == TestSelf && j == p)
          || (s.pc[p] == TestLeft && (j == Left(p, n) || j == Right(p, n)))
          || (s.pc[p] == TestRight && j == Right(p, n)));
        if p != i {
          ElsewherePending(s, i, n, j, p);
        }
      }
    }
  }

  lemma WasNotForgotten(s: State, j: nat)
    requires |s.mood| == |s.pc| && NobodyForgotten(s) && j < |s.pc| && s.mood[j] == HUNGRY
    ensures HasEatingNeighbour(s.mood, j) || TestPending(s, j)
  {
  }

  lemma StepForgetsNobody(s: State, i: nat, n: nat)
    requires Inv(s, n) && Enabled(s, i)
    ensures NobodyForgotten(Next(s, i))
  {
    hide Next, Enabled, MutexOk, NeighboursApart, HasEatingNeighbour, TestPending;
    StepFrame(s, i, n);
    assert MoodFits(s.pc[i], s.mood[i], s.eaters[i]);
    forall j | 0 <= j < n && Next(s, i).mood[j] == HUNGRY
      ensures HasEatingNeighbour(Next(s, i).mood, j) || TestPending(Next(s, i), j)
    {
      ForgetsNot(s, i, n, j);
    }
  }

  /** Every step keeps the invariant. */
  lemma StepKeepsInv(s: State, i: nat, n: nat)
    requires Inv(s, n) && Enabled(s, i)
    ensures Inv(Next(s, i), n)
  {
    hide MutexOk, MoodsFit, NeighboursApart, NobodyForgotten;
    StepKeepsMutex(s, i, n);
    StepKeepsMoods(s, i, n);
    StepKeepsApart(s, i, n);
    StepForgetsNobody(s, i, n);
  }

  // ----- runs -----

  ghost predicate IsRun(s: State, ids: seq<nat>)
    decreases |ids|
  {
    ids == [] || (Enabled(s, ids[0]) && IsRun(Next(s, ids[0]), ids[1..]))
  }

  ghost function After(s: State, ids: seq<nat>): State
    requires IsRun(s, ids)
    decreases |ids|
  {
    if ids == [] then s else After(Next(s, ids[0]), ids[1..])
  }

  ghost predicate Reachable(s: State, n: nat) {
    exists ids :: IsRun(Init(n), ids) && After(Init(n), ids) == s
  }

  lemma {:induction false} RunKeepsInv(s: State, ids: seq<nat>, n: nat)
    requires Inv(s, n) && IsRun(s, ids)
    ensures Inv(After(s, ids), n)
    decreases |ids|
  {
    if ids != [] {
      StepKeepsInv(s, ids[0], n);
      RunKeepsInv(Next(s, ids[0]), ids[1..], n);
    }
  }

  lemma ReachableInv(s: State, n: nat)
    requires n >= 2 && Reachable(s, n)
    ensures Inv(s, n)
  {
    hide Inv;
    var ids :| IsRun(Init(n), ids) && After(Init(n), ids) == s;
    InitHolds(n);
    RunKeepsInv(Init(n), ids, n);
  }

  // ----- safety around the ring -----

  function Eats(m: Mood): nat {
    if m == EATING then 1 else 0
  }

  function EatingCount(mood: seq<Mood>): nat {
    if mood == [] then 0 else EatingCount(mood[..|mood| - 1]) + Eats(mood[|mood| - 1])
  }

  /** The first k adjacent pairs, each end counted. */
  function PairCount(mood: seq<Mood>, k: nat): nat
    requires k < |mood|
  {
    if k == 0 then 0 else PairCount(mood, k - 1) + Eats(mood[k - 1]) + Eats(mood[k])
  }

  lemma {:induction false} PairsCountTwice(mood: seq<Mood>, k: nat)
    requires k < |mood|
    ensures PairCount(mood, k) + Eats(mood[0]) + Eats(mood[k]) == 2 * EatingCount(mood[..k + 1])
  {
    if k == 0 {
      assert mood[..1] == [mood[0]];
    } else {
      PairsCountTwice(mood, k - 1);
      assert mood[..k + 1][..k] == mood[..k];
    }
  }

  lemma {:induction false} PairsAreSingle(mood: seq<Mood>, k: nat)
    requires k < |mood| && NeighboursApart(mood)
    ensures PairCount(mood, k) <= k
  {
    if k > 0 {
      PairsAreSingle(mood, k - 1);
      assert Right(k - 1, |mood|) == k;
    }
  }

  lemma AtMostHalfOfRing(mood: seq<Mood>)
    requires |mood| >= 2 && NeighboursApart(mood)
    ensures 2 * EatingCount(mood) <= |mood|
  {
    var n := |mood|;
    PairsCountTwice(mood, n - 1);
    PairsAreSingle(mood, n - 1);
    assert mood[..n] == mood;
    assert Right(n - 1, n) == 0;
  }

  /** No two neighbours eat together in any reachable state, not even between the two tests
      of put_sticks; so at most half of the philosophers, rounded down, eat at once. */
  lemma AtMostHalfEat(s: State, n: nat)
    requires n >= 2 && Reachable(s, n)
    ensures |s.mood| == n && NeighboursApart(s.mood)
    ensures EatingCount(s.mood) <= n / 2
  {
    ReachableInv(s, n);
    hide NeighboursApart, MutexOk, MoodsFit, NobodyForgotten;
    AtMostHalfOfRing(s.mood);
  }

  // ----- no lost wake-up -----

  /** Whenever the mutex is free, whoever is HUNGRY has a neighbour EATING, semaphores are 0
      or 1, and EATING means an unused post or a meal not yet put down. */
  lemma NoLostWakeup(s: State, n: nat, i: nat)
    requires n >= 2 && Reachable(s, n) && i < n
    ensures |s.mood| == |s.eaters| == |s.pc| == n
    ensures s.mutex > 0 && s.mood[i] == HUNGRY ==> HasEatingNeighbour(s.mood, i)
    ensures s.eaters[i] <= 1
    ensures s.mood[i] == EATING <==>
      s.eaters[i] == 1 || s.pc[i] == Eat || s.pc[i] == EnterPut || s.pc[i] == SetThinking
  {
    ReachableInv(s, n);
    assert MoodFits(s.pc[i], s.mood[i], s.eaters[i]);
  }

  lemma EatingWithFreeMutexCanStep(s: State, n: nat, e: nat)
    requires Inv(s, n) && s.mutex > 0 && e < n && s.mood[e] == EATING
    ensures s.pc[e] != Think && Enabled(s, e)
  {
    assert MoodFits(s.pc[e], s.mood[e], s.eaters[e]);
  }

  /** Whenever somebody is HUNGRY, some philosopher who is not thinking can step. */
  lemma HungerMeansProgress(s: State, n: nat, h: nat)
    requires Inv(s, n) && h < n && s.mood[h] == HUNGRY
    ensures exists i :: 0 <= i < n && s.pc[i] != Think && Enabled(s, i)
  {
    if s.mutex == 0 {
      var i :| 0 <= i < n && InSection(s.pc[i]);
      assert Enabled(s, i);
    } else {
      assert HasEatingNeighbour(s.mood, h);
      var e := if s.mood[Left(h, n)] == EATING then Left(h, n) else Right(h, n);
      EatingWithFreeMutexCanStep(s, n, e);
    }
  }

  // ----- service -----

  function RankOf(pc: Pc): nat {
    match pc
    case Think => 0
    case SetHungry => 10
    case TestSelf => 9
    case LeaveTake => 8
    case WaitEater => 7
    case Eat => 6
    case EnterPut => 5
    case SetThinking => 4
    case TestLeft => 3
    case TestRight => 2
    case LeavePut => 1
  }

  function RankSum(pcs: seq<Pc>): nat {
    if pcs == [] then 0 else RankSum(pcs[..|pcs| - 1]) + RankOf(pcs[|pcs| - 1])
  }

  lemma {:induction false} RankUpdate(pcs: seq<Pc>, i: nat, pc: Pc)
    requires i < |pcs|
    ensures RankSum(pcs[i := pc]) + RankOf(pcs[i]) == RankSum(pcs) + RankOf(pc)
  {
    var m := |pcs| - 1;
    if i < m {
      assert pcs[i := pc][..m] == pcs[..m][i := pc];
      RankUpdate(pcs[..m], i, pc);
    } else {
      assert pcs[i := pc][..m] == pcs[..m];
    }
  }

  lemma RankDrops(s: State, i: nat)
    requires Enabled(s, i) && s.pc[i] != Think
    ensures RankSum(Next(s, i).pc) == RankSum(s.pc) - 1
  {
    RankUpdate(s.pc, i, Next(s, i).pc[i]);
    assert Next(s, i).pc == s.pc[i := Next(s, i).pc[i]];
  }

  /** If nobody outside a thought can step, everybody is thinking. */
  lemma StuckMeansServed(s: State, n: nat)
    requires Inv(s, n)
    requires forall i :: 0 <= i < n && s.pc[i] != Think ==> !Enabled(s, i)
    ensures forall i :: 0 <= i < n ==> s.pc[i] == Think
  {
    forall i | 0 <= i < n ensures s.pc[i] == Think {
      assert MoodFits(s.pc[i], s.mood[i], s.eaters[i]);
      if s.pc[i] == WaitEater && s.mood[i] == HUNGRY {
        HungerMeansProgress(s, n, i);
      }
      if s.mutex == 0 {
        var k :| 0 <= k < n && InSection(s.pc[k]);
        assert !Enabled(s, k);
      }
    }
  }

  /** Every step is by a philosopher who is not thinking. */
  ghost predicate NobodyNewInside(s: State, ids: seq<nat>)
    requires IsRun(s, ids)
    decreases |ids|
  {
    ids == [] || (s.pc[ids[0]] != Think && NobodyNewInside(Next(s, ids[0]), ids[1..]))
  }

  /** Once no new philosopher gets hungry, everybody is served: any such continuation has at
      most RankSum steps, and one exists that ends with all philosophers back at thinking. */
  lemma {:induction false} EveryoneIsServed(s: State, n: nat) returns (ids: seq<nat>)
    requires Inv(s, n)
    ensures IsRun(s, ids) && NobodyNewInside(s, ids) && |ids| == RankSum(s.pc)
    ensures |After(s, ids).pc| == n
    ensures forall i :: 0 <= i < n ==> After(s, ids).pc[i] == Think
    decreases RankSum(s.pc)
  {
    if i: nat :| i < n && s.pc[i] != Think && Enabled(s, i) {
      RankDrops(s, i);
      StepKeepsInv(s, i, n);
      var rest := EveryoneIsServed(Next(s, i), n);
      ids := [i] + rest;
      assert ids[1..] == rest;
    } else {
      ids := [];
      StuckMeansServed(s, n);
      AllThinkRank(s.pc);
    }
  }

  lemma {:induction false} AllThinkRank(pcs: seq<Pc>)
    requires forall i :: 0 <= i < |pcs| ==> pcs[i] == Think
    ensures RankSum(pcs) == 0
  {
    if pcs != [] {
      AllThinkRank(pcs[..|pcs| - 1]);
    }
  }

  lemma {:induction false} ServiceTakesExactly(s: State, ids: seq<nat>)
    requires IsRun(s, ids) && NobodyNewInside(s, ids)
    ensures |ids| + RankSum(After(s, ids).pc) == RankSum(s.pc)
    decreases |ids|
  {
    if ids != [] {
      RankDrops(s, ids[0]);
      ServiceTakesExactly(Next(s, ids[0]), ids[1..]);
    }
  }

  // ----- how long hunger can last -----

  /** Philosopher h is HUNGRY in every state of the run. */
  ghost predicate StaysHungry(s: State, ids: seq<nat>, h: nat)
    requires IsRun(s, ids)
    decreases |ids|
  {
    && h < |s.mood| && s.mood[h] == HUNGRY
    && (ids == [] || StaysHungry(Next(s, ids[0]), ids[1..], h))
  }

  lemma {:induction false} RunsCompose(s: State, ids: seq<nat>, more: seq<nat>)
    requires IsRun(s, ids) && IsRun(After(s, ids), more)
    ensures IsRun(s, ids + more) && After(s, ids + more) == After(After(s, ids), more)
    decreases |ids|
  {
    if ids == [] {
      assert ids + more == more;
    } else {
      assert (ids + more)[1..] == ids[1..] + more;
      RunsCompose(Next(s, ids[0]), ids[1..], more);
    }
  }

  lemma OneMore(s: State, i: nat, ids: seq<nat>)
    requires Enabled(s, i) && IsRun(Next(s, i), ids)
    ensures IsRun(s, [i] + ids) && After(s, [i] + ids) == After(Next(s, i), ids)
  {
    assert ([i] + ids)[1..] == ids;
  }

  lemma OneMoreHungry(s: State, i: nat, ids: seq<nat>, h: nat)
    requires Enabled(s, i) && IsRun(Next(s, i), ids) && StaysHungry(Next(s, i), ids, h)
    requires h < |s.mood| && s.mood[h] == HUNGRY
    ensures IsRun(s, [i] + ids) && After(s, [i] + ids) == After(Next(s, i), ids) && StaysHungry(s, [i] + ids, h)
  {
    hide Next, Enabled;
    assert ([i] + ids)[1..] == ids;
  }

  lemma StepIsReachable(s: State, n: nat, i: nat)
    requires Reachable(s, n) && Enabled(s, i)
    ensures Reachable(Next(s, i), n)
  {
    var ids :| IsRun(Init(n), ids) && After(Init(n), ids) == s;
    OneMore(s, i, []);
    assert [i] + [] == [i];
    RunsCompose(Init(n), ids, [i]);
  }

  lemma StartIsReachable(n: nat)
    ensures Reachable(Init(n), n)
  {
    assert IsRun(Init(n), []) && After(Init(n), []) == Init(n);
  }

  // ----- two or three philosophers: hunger ends -----

  /** Who has just put down its sticks had no eating neighbour. */
  ghost predicate Released(s: State)
    requires |s.mood| == |s.pc|
  {
    forall i :: 0 <= i < |s.pc| && s.pc[i] == TestLeft ==> !HasEatingNeighbour(s.mood, i)
  }

  lemma StepKeepsReleased(s: State, i: nat, n: nat)
    requires Inv(s, n) && Released(s) && Enabled(s, i)
    ensures Sized(Next(s, i), n) && Released(Next(s, i))
  {
    hide Next, Enabled, NobodyForgotten;
    StepFrame(s, i, n);
    var s' := Next(s, i);
    forall j | 0 <= j < n && s'.pc[j] == TestLeft ensures !HasEatingNeighbour(s'.mood, j) {
      if j == i {
        assert MoodFits(s.pc[i], s.mood[i], s.eaters[i]);
        assert Right(Left(i, n), n) == i;
        OnlyPutSection(s, i, n);
      } else {
        assert s.pc[j] == TestLeft && InSection(s.pc[j]);
        assert !InSection(s.pc[i]);
      }
    }
  }

  /** TestLeft is entered from SetThinking only. */
  lemma OnlyPutSection(s: State, i: nat, n: nat)
    requires Sized(s, n) && Enabled(s, i) && Next(s, i).pc[i] == TestLeft
    ensures s.pc[i] == SetThinking
  {
  }

  lemma {:induction false} RunKeepsReleased(s: State, ids: seq<nat>, n: nat)
    requires Inv(s, n) && Released(s) && IsRun(s, ids)
    ensures Inv(After(s, ids), n) && Released(After(s, ids))
    decreases |ids|
  {
    hide Inv, Released;
    if ids != [] {
      InvIsSized(s, n);
      StepKeepsInv(s, ids[0], n);
      StepKeepsReleased(s, ids[0], n);
      RunKeepsReleased(Next(s, ids[0]), ids[1..], n);
    }
  }

  lemma InvIsSized(s: State, n: nat)
    requires Inv(s, n)
    ensures Sized(s, n)
  {
  }

  lemma ReachableReleased(s: State, n: nat)
    requires n >= 2 && Reachable(s, n)
    ensures Inv(s, n) && Released(s)
  {
    var ids :| IsRun(Init(n), ids) && After(Init(n), ids) == s;
    InitHolds(n);
    RunKeepsReleased(Init(n), ids, n);
  }

  /** Unless the holder of the mutex is about to test h, a HUNGRY h has an EATING neighbour. */
  lemma HungryHasEater(s: State, n: nat, h: nat, i: nat)
    requires Inv(s, n) && h < n && i < n && s.mood[h] == HUNGRY && InSection(s.pc[i])
    requires s.pc[i] == TestSelf ==> h != i
    requires s.pc[i] == TestLeft ==> h != Left(i, n) && h != Right(i, n)
    requires s.pc[i] == TestRight ==> h != Right(i, n)
    ensures HasEatingNeighbour(s.mood, h)
  {
    hide Left, Right, HasEatingNeighbour, MoodsFit, NeighboursApart;
    assert HasEatingNeighbour(s.mood, h) || TestPending(s, h);
  }

  /** What HUNGRY philosopher h can still do by itself. */
  function OwnSteps(pc: Pc): nat {
    match pc
    case TestSelf => 2
    case LeaveTake => 1
    case _ => 0
  }

  /** Steps of the right neighbour until it is about to test its left one, which is h. */
  function StepsToTestLeft(pc: Pc): nat {
    if RankOf(pc) >= 3 then RankOf(pc) - 3 else RankOf(pc) + 8
  }

  /** Steps of the left neighbour until it is HUNGRY in its wait: it may finish one meal. */
  function StepsToHunger(pc: Pc, mood: Mood): int {
    if mood == HUNGRY || pc == SetHungry then RankOf(pc) - 7 else RankOf(pc) + 4
  }

  /** The steps that can be taken while h stays HUNGRY, at most. */
  function HungerLeft(s: State, n: nat, h: nat): int
    requires 2 <= n <= 3 && h < n == |s.pc| == |s.mood|
  {
    var l, r := Left(h, n), Right(h, n);
    OwnSteps(s.pc[h]) +
    if n == 3 then StepsToTestLeft(s.pc[r]) + StepsToHunger(s.pc[l], s.mood[l])
    else if s.mood[r] == EATING then StepsToTestLeft(s.pc[r]) else 0
  }

  function HungerBound(n: nat): nat {
    if n == 2 then 6 else 21
  }

  lemma HungerLeftIsBounded(s: State, n: nat, h: nat)
    requires 2 <= n <= 3 && Inv(s, n) && h < n && s.mood[h] == HUNGRY
    ensures 0 <= HungerLeft(s, n, h) <= HungerBound(n)
  {
    var l, r := Left(h, n), Right(h, n);
    assert MoodFits(s.pc[h], s.mood[h], s.eaters[h]);
    assert MoodFits(s.pc[l], s.mood[l], s.eaters[l]);
    assert MoodFits(s.pc[r], s.mood[r], s.eaters[r]);
    assert InSection(s.pc[h]) ==> !InSection(s.pc[l]) && !InSection(s.pc[r]);
    assert InSection(s.pc[r]) && l != r ==> !InSection(s.pc[l]);
    hide MutexOk, MoodsFit, NeighboursApart, NobodyForgotten;
  }

  function Following(pc: Pc): Pc {
    match pc
    case Think => SetHungry
    case SetHungry => TestSelf
    case TestSelf => LeaveTake
    case LeaveTake => WaitEater
    case WaitEater => Eat
    case Eat => EnterPut
    case EnterPut => SetThinking
    case SetThinking => TestLeft
    case TestLeft => TestRight
    case TestRight => LeavePut
    case LeavePut => Think
  }

  lemma NextPc(s: State, i: nat, n: nat)
    requires Sized(s, n) && Enabled(s, i)
    ensures Next(s, i).pc[i] == Following(s.pc[i])
    ensures s.pc[i] == WaitEater ==> s.eaters[i] > 0
  {
  }

  lemma OwnStepSpendsHunger(s: State, n: nat, h: nat)
    requires 2 <= n <= 3 && Inv(s, n) && Enabled(s, h) && h < n && s.mood[h] == HUNGRY
    requires Sized(Next(s, h), n) && Next(s, h).mood[h] == HUNGRY
    ensures HungerLeft(Next(s, h), n, h) < HungerLeft(s, n, h)
  {
    StepFrame(s, h, n);
    NextPc(s, h, n);
    assert MoodFits(s.pc[h], s.mood[h], s.eaters[h]);
    hide Next, Enabled, MutexOk, MoodsFit, NeighboursApart, NobodyForgotten, StepsToTestLeft, StepsToHunger;
  }

  lemma NearerTestLeft(pc: Pc)
    requires pc != TestLeft
    ensures StepsToTestLeft(Following(pc)) == StepsToTestLeft(pc) - 1
  {
  }

  lemma NearerHunger(pc: Pc, mood: Mood, eater: nat, mood': Mood)
    requires MoodFits(pc, mood, eater) && (pc == WaitEater ==> eater > 0)
    requires mood' == (if pc == SetHungry then HUNGRY else if pc == SetThinking then THINKING else mood)
    ensures StepsToHunger(Following(pc), mood') == StepsToHunger(pc, mood) - 1
  {
  }

  /** The right neighbour's first test is of h, and finds both of h's neighbours not EATING. */
  lemma RightStepSpendsHunger(s: State, n: nat, h: nat, r: nat)
    requires 2 <= n <= 3 && Inv(s, n) && Released(s) && h < n && r == Right(h, n)
    requires Enabled(s, r) && s.mood[h] == HUNGRY
    requires Sized(Next(s, r), n) && Next(s, r).mood[h] == HUNGRY
    ensures HungerLeft(Next(s, r), n, h) < HungerLeft(s, n, h)
  {
    var l := Left(h, n);
    StepFrame(s, r, n);
    NextPc(s, r, n);
    assert MoodFits(s.pc[r], s.mood[r], s.eaters[r]);
    assert Left(r, n) == h && Right(r, n) == (if n == 2 then h else l) && r != h;
    if InSection(s.pc[r]) && s.pc[r] != TestLeft && (n == 3 || s.pc[r] != TestRight) {
      HungryHasEater(s, n, h, r);
    }
    if s.pc[r] != TestLeft {
      NearerTestLeft(s.pc[r]);
    }
    hide Next, Enabled, MutexOk, MoodsFit, NeighboursApart, NobodyForgotten, StepsToTestLeft, StepsToHunger, Following;
  }

  /** The left neighbour of three may finish its meal, but gets no other. */
  lemma LeftStepSpendsHunger(s: State, h: nat, l: nat)
    requires Inv(s, 3) && h < 3 && l == Left(h, 3)
    requires Enabled(s, l) && s.mood[h] == HUNGRY
    requires Sized(Next(s, l), 3) && Next(s, l).mood[h] == HUNGRY
    ensures HungerLeft(Next(s, l), 3, h) < HungerLeft(s, 3, h)
  {
    var r := Right(h, 3);
    StepFrame(s, l, 3);
    NextPc(s, l, 3);
    assert MoodFits(s.pc[l], s.mood[l], s.eaters[l]);
    assert Left(l, 3) == r && Right(l, 3) == h && l != h && l != r && r != h;
    if s.pc[l] == TestSelf {
      HungryHasEater(s, 3, h, l);
    }
    NearerHunger(s.pc[l], s.mood[l], s.eaters[l], Next(s, l).mood[l]);
    hide Next, Enabled, MutexOk, MoodsFit, NeighboursApart, NobodyForgotten, StepsToTestLeft, StepsToHunger, Following;
  }

  lemma StepSpendsHunger(s: State, i: nat, n: nat, h: nat)
    requires 2 <= n <= 3 && Inv(s, n) && Released(s) && h < n && Enabled(s, i)
    requires s.mood[h] == HUNGRY && Sized(Next(s, i), n) && Next(s, i).mood[h] == HUNGRY
    ensures HungerLeft(Next(s, i), n, h) < HungerLeft(s, n, h)
  {
    hide Next, Inv, Released, HungerLeft;
    InvIsSized(s, n);
    StepFrame(s, i, n);
    if i == h {
      OwnStepSpendsHunger(s, n, h);
    } else if i == Right(h, n) {
      RightStepSpendsHunger(s, n, h, i);
    } else {
      LeftStepSpendsHunger(s, h, i);
    }
  }

  lemma {:induction false} HungerSpends(s: State, ids: seq<nat>, n: nat, h: nat)
    requires 2 <= n <= 3 && Inv(s, n) && Released(s) && h < n && IsRun(s, ids) && StaysHungry(s, ids, h)
    ensures Sized(s, n) && |ids| <= HungerLeft(s, n, h)
    decreases |ids|
  {
    hide Next, Enabled, Inv, Released, HungerLeft, HungerBound;
    InvIsSized(s, n);
    if ids == [] {
      HungerLeftIsBounded(s, n, h);
    } else {
      StepKeepsInv(s, ids[0], n);
      StepKeepsReleased(s, ids[0], n);
      StepSpendsHunger(s, ids[0], n, h);
      HungerSpends(Next(s, ids[0]), ids[1..], n, h);
    }
  }

  /** With two or three at the table nobody stays HUNGRY for more than 6 or 21 steps,
      however the philosophers are scheduled. */
  lemma HungerEnds(s: State, ids: seq<nat>, n: nat, h: nat)
    requires 2 <= n <= 3 && Reachable(s, n) && IsRun(s, ids) && StaysHungry(s, ids, h)
    ensures |ids| <= HungerBound(n)
  {
    ReachableReleased(s, n);
    HungerSpends(s, ids, n, h);
    HungerLeftIsBounded(s, n, h);
  }

  // ----- four or more: hunger can last -----

  /** 0 and 2 eat, 1 waits for its semaphore between them, the others think. */
  function Hemmed(n: nat): (s: State)
    requires n >= 4
    ensures Sized(s, n)
  {
    State(1, seq(n, _ => 0),
          seq(n, j => if j == 1 then HUNGRY else if j == 0 || j == 2 then EATING else THINKING),
          seq(n, j => if j == 1 then WaitEater else if j == 0 || j == 2 then Eat else Think))
  }

  /** take_sticks up to its test, and from there to its wait. */
  lemma TakeEnters(s: State, n: nat, i: nat)
    requires Sized(s, n) && i < n && s.mutex > 0 && s.pc[i] == Think
    ensures Enabled(s, i) && Enabled(Next(s, i), i)
    ensures Next(Next(s, i), i)
         == State(s.mutex - 1, s.eaters, s.mood[i := HUNGRY], s.pc[i := TestSelf])
  {
    assert Next(Next(s, i), i).pc == s.pc[i := TestSelf];
  }

  lemma TakeTests(s: State, n: nat, i: nat)
    requires Sized(s, n) && i < n && s.pc[i] == TestSelf
    ensures Enabled(s, i) && Enabled(Next(s, i), i)
    ensures Next(Next(s, i), i) == Test(s, i).(mutex := s.mutex + 1, pc := s.pc[i := WaitEater])
  {
    assert Next(Next(s, i), i).pc == s.pc[i := WaitEater];
  }

  /** take_sticks up to its wait, when nobody interferes. */
  lemma TakeAlone(s: State, n: nat, i: nat) returns (t: State)
    requires Reachable(s, n) && Sized(s, n) && i < n && s.mutex > 0 && s.pc[i] == Think
    ensures Reachable(t, n)
    ensures t == Test(s.(mood := s.mood[i := HUNGRY]), i).(pc := s.pc[i := WaitEater])
  {
    hide Reachable, Next, Enabled, CanEat;
    TakeEnters(s, n, i);
    t := Next(Next(s, i), i);
    TakeTests(t, n, i);
    StepIsReachable(s, n, i);
    StepIsReachable(Next(s, i), n, i);
    StepIsReachable(t, n, i);
    StepIsReachable(Next(t, i), n, i);
    t := Next(Next(t, i), i);
    assert s.pc[i := TestSelf][i := WaitEater] == s.pc[i := WaitEater];
  }

  /** A philosopher with free sticks gets to eat. */
  lemma EatAlone(s: State, n: nat, i: nat) returns (t: State)
    requires Reachable(s, n) && Sized(s, n) && i < n && s.mutex > 0 && s.pc[i] == Think && s.eaters[i] == 0
    requires s.mood[Left(i, n)] != EATING && s.mood[Right(i, n)] != EATING && Left(i, n) != i && Right(i, n) != i
    ensures Reachable(t, n)
    ensures t == s.(mood := s.mood[i := EATING], pc := s.pc[i := Eat])
  {
    t := TakeAlone(s, n, i);
    assert CanEat(s.mood[i := HUNGRY], i);
    StepIsReachable(t, n, i);
    t := Next(t, i);
    assert t.eaters == s.eaters;
  }

  lemma HemmedIsReachable(n: nat)
    requires n >= 4
    ensures Reachable(Hemmed(n), n)
  {
    hide Reachable, Next;
    var s := Init(n);
    StartIsReachable(n);
    s := EatAlone(s, n, 0);
    s := EatAlone(s, n, 2);
    assert !CanEat(s.mood[1 := HUNGRY], 1);
    s := TakeAlone(s, n, 1);
    assert s.mood == Hemmed(n).mood && s.pc == Hemmed(n).pc;
  }

  /** The same table with eater i elsewhere on its round. */
  function HemmedAt(n: nat, i: nat, pc: Pc): (s: State)
    requires i < n && n >= 4
    ensures Sized(s, n)
  {
    var mood := match pc
      case TestSelf => HUNGRY
      case LeaveTake => EATING
      case WaitEater => EATING
      case Eat => EATING
      case EnterPut => EATING
      case SetThinking => EATING
      case _ => THINKING;
    var posts := if pc == LeaveTake || pc == WaitEater then 1 else 0;
    State(if InSection(pc) then 0 else 1, seq(n, _ => 0)[i := posts], Hemmed(n).mood[i := mood], Hemmed(n).pc[i := pc])
  }

  lemma HemmedMoods(n: nat, i: nat, pc: Pc)
    requires n >= 4 && (i == 0 || i == 2)
    ensures var m := HemmedAt(n, i, pc).mood;
      && CanEat(m, i) == (pc == TestSelf)
      && !CanEat(m, Left(i, n)) && !CanEat(m, Right(i, n))
  {
  }

  lemma HemmedOne(n: nat, i: nat, pc: Pc)
    requires n >= 4 && (i == 0 || i == 2)
    ensures HemmedAt(n, i, pc).mood[1] == HUNGRY
  {
  }

  lemma RoundStep(n: nat, i: nat, pc: Pc)
    requires n >= 4 && (i == 0 || i == 2)
    ensures Enabled(HemmedAt(n, i, pc), i)
    ensures Next(HemmedAt(n, i, pc), i) == HemmedAt(n, i, Following(pc))
    ensures HemmedAt(n, i, pc).mood[1] == HUNGRY
  {
    hide CanEat, Hemmed;
    HemmedMoods(n, i, pc);
    EqualStates(Next(HemmedAt(n, i, pc), i), HemmedAt(n, i, Following(pc)));
    HemmedOne(n, i, pc);
  }

  lemma EqualStates(s: State, t: State)
    ensures s.mutex == t.mutex && s.eaters == t.eaters && s.mood == t.mood && s.pc == t.pc <==> s == t
  {
  }

  function StepsToEat(pc: Pc): nat {
    if pc == Eat then 0 else if RankOf(pc) > 6 then RankOf(pc) - 6 else RankOf(pc) + 5
  }

  function MoreTurns(turns: multiset<nat>, i: nat, n: nat): multiset<nat> {
    turns[i := turns[i] + n]
  }

  lemma NoTurn(turns: multiset<nat>, i: nat)
    ensures MoreTurns(turns, i, 0) == turns
  {
  }

  lemma OneMoreTurn(turns: multiset<nat>, i: nat, n: nat, rest: seq<nat>)
    requires multiset(rest) == MoreTurns(turns, i, n)
    ensures multiset([i] + rest) == MoreTurns(turns, i, n + 1)
  {
  }

  lemma NextIsNearer(pc: Pc)
    ensures StepsToEat(pc) == if pc == Eat then 0 else StepsToEat(Following(pc)) + 1
  {
  }

  lemma {:induction false} BackToEat(n: nat, i: nat, pc: Pc, ids: seq<nat>) returns (lap: seq<nat>)
    requires n >= 4 && (i == 0 || i == 2) && IsRun(Hemmed(n), ids) && StaysHungry(Hemmed(n), ids, 1)
    ensures multiset(lap) == MoreTurns(multiset(ids), i, StepsToEat(pc))
    ensures IsRun(HemmedAt(n, i, pc), lap) && After(HemmedAt(n, i, pc), lap) == After(Hemmed(n), ids)
    ensures StaysHungry(HemmedAt(n, i, pc), lap, 1)
    decreases StepsToEat(pc)
  {
    hide Next, Enabled, Hemmed, HemmedAt, Following, StepsToEat, MoreTurns, IsRun, After, StaysHungry;
    NextIsNearer(pc);
    if pc == Eat {
      lap := ids;
      EatIsHemmed(n, i);
      NoTurn(multiset(ids), i);
    } else {
      RoundStep(n, i, pc);
      var rest := BackToEat(n, i, Following(pc), ids);
      OneMoreHungry(HemmedAt(n, i, pc), i, rest, 1);
      OneMoreTurn(multiset(ids), i, StepsToEat(Following(pc)), rest);
      lap := [i] + rest;
    }
  }

  lemma EatIsHemmed(n: nat, i: nat)
    requires n >= 4 && (i == 0 || i == 2)
    ensures HemmedAt(n, i, Eat) == Hemmed(n)
  {
    assert HemmedAt(n, i, Eat).mood == Hemmed(n).mood && HemmedAt(n, i, Eat).pc == Hemmed(n).pc;
  }

  /** One of the two finishes, puts down its sticks, gets hungry and eats again: eleven steps
      of its own that lead back to the same state, whatever follows. */
  lemma Lap(n: nat, i: nat, ids: seq<nat>) returns (lap: seq<nat>)
    requires n >= 4 && (i == 0 || i == 2) && IsRun(Hemmed(n), ids) && StaysHungry(Hemmed(n), ids, 1)
    ensures multiset(lap) == MoreTurns(multiset(ids), i, 11)
    ensures IsRun(Hemmed(n), lap) && After(Hemmed(n), lap) == After(Hemmed(n), ids) && StaysHungry(Hemmed(n), lap, 1)
  {
    var rest := BackToEat(n, i, EnterPut, ids);
    RoundStep(n, i, Eat);
    EatIsHemmed(n, i);
    hide Next, Enabled, HemmedAt, Hemmed, MoreTurns, IsRun, After, StaysHungry;
    OneMoreHungry(Hemmed(n), i, rest, 1);
    OneMoreTurn(multiset(ids), i, 10, rest);
    lap := [i] + rest;
  }

  /** With four or more at the table progress is not individual: there are runs of any number
      of laps in which 0 and 2 each go once around their eleven steps per lap, nobody else
      moves, and 1 is HUNGRY in every state. */
  lemma {:induction false} HungerCanLast(n: nat, laps: nat) returns (ids: seq<nat>)
    requires n >= 4
    ensures IsRun(Hemmed(n), ids) && After(Hemmed(n), ids) == Hemmed(n) && StaysHungry(Hemmed(n), ids, 1)
    ensures multiset(ids) == MoreTurns(MoreTurns(multiset{}, 0, 11 * laps), 2, 11 * laps)
  {
    if laps == 0 {
      ids := [];
    } else {
      ids := HungerCanLast(n, laps - 1);
      ids := Lap(n, 2, ids);
      ids := Lap(n, 0, ids);
      hide Hemmed;
    }
  }

  // ----- the exact condition -----

  /** Some philosopher can be HUNGRY in every state of a run of k steps. */
  ghost predicate CanStayHungry(n: nat, k: nat) {
    exists s, ids, h :: Reachable(s, n) && IsRun(s, ids) && StaysHungry(s, ids, h) && |ids| >= k
  }

  /** Hunger can last for arbitrarily many steps if and only if four or more philosophers
      sit at the table. */
  lemma HungerIsUnboundedExactly(n: nat)
    requires n >= 2
    ensures (forall k: nat :: CanStayHungry(n, k)) <==> n >= 4
  {
    if n >= 4 {
      forall k: nat ensures CanStayHungry(n, k) {
        HemmedIsReachable(n);
        var ids := HungerCanLast(n, k);
        LapsAreSteps(ids, k);
      }
    } else {
      var k := HungerBound(n) + 1;
      if CanStayHungry(n, k) {
        var s, ids, h :| Reachable(s, n) && IsRun(s, ids) && StaysHungry(s, ids, h) && |ids| >= k;
        HungerEnds(s, ids, n, h);
      }
    }
  }

  lemma LapsAreSteps(ids: seq<nat>, laps: nat)
    requires multiset(ids) == MoreTurns(MoreTurns(multiset{}, 0, 11 * laps), 2, 11 * laps)
    ensures |ids| == 22 * laps
  {
    assert |multiset(ids)| == |ids|;
  }

  // ----- the C code -----

  class Table {
    const mood: array<Mood>
    const eaters: array<nat>

    ghost predicate Shows(s: State)
      reads mood, eaters
    {
      mood[..] == s.mood && eaters[..] == s.eaters
    }

    constructor (n: nat)
      requires n >= 2
      ensures Shows(Init(n)) && fresh(mood) && fresh(eaters)
    {
      mood := new Mood[n](_ => THINKING);
      eaters := new nat[n](_ => 0);
    }

    /** test() */
    method TestOne(i: nat, ghost s: State)
      requires Shows(s) && i < |s.mood| == |s.eaters|
      modifies mood, eaters
      ensures Shows(Test(s, i))
    {
      var n := mood.Length;
      if mood[i] == HUNGRY {
        if mood[Left(i, n)] != EATING && mood[Right(i, n)] != EATING {
          mood[i] := EATING;
          eaters[i] := eaters[i] + 1;
        }
      }
    }

    /** The critical section of take_sticks. */
    method TakeSection(i: nat, ghost s: State)
      requires Shows(s) && i < |s.mood| == |s.eaters| == |s.pc| && s.pc[i] == SetHungry
      modifies mood, eaters
      ensures Shows(Next(Next(s, i), i))
    {
      mood[i] := HUNGRY;
      TestOne(i, Next(s, i));
    }

    /** The critical section of put_sticks. */
    method PutSection(i: nat, ghost s: State)
      requires Shows(s) && i < |s.mood| == |s.eaters| == |s.pc| && s.pc[i] == SetThinking
      modifies mood, eaters
      ensures Shows(Next(Next(Next(s, i), i), i))
    {
      var n := mood.Length;
      mood[i] := THINKING;
      ghost var s1 := Next(s, i);
      TestOne(Left(i, n), s1);
      ghost var s2 := Next(s1, i);
      TestOne(Right(i, n), s2);
    }
  }
}
