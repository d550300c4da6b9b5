/** Bounded overtaking: what aging buys a car that waits as a VIP. */
module GarageAging {
  import opened CarQueue
  import opened GarageModel
  import opened GarageInvariants

  // ----- one step -----

  /** e's car waits at position k, and whoever is ahead of it is in the given set, entered
      strictly earlier, or is a VIP where VIPs may pass. Where they may not, the car is one. */
  ghost predicate Shielded(q: seq<Entry>, e: Entry, k: nat, ahead: set<nat>, vips: bool) {
    && k < |q| && q[k].id == e.id && q[k].enterTime == e.enterTime && (vips || q[k].priority == 1)
    && forall j :: 0 <= j < k ==> MayBeAhead(q[j], e, ahead, vips)
  }

  predicate MayBeAhead(x: Entry, e: Entry, ahead: set<nat>, vips: bool) {
    x.id in ahead || x.enterTime < e.enterTime || (vips && x.priority == 1)
  }

  lemma InsertKeepsShield(q: seq<Entry>, x: Entry, e: Entry, k: nat, ahead: set<nat>, vips: bool) returns (k': nat)
    requires Shielded(q, e, k, ahead, vips) && 0 <= q[k].priority && x.priority <= 1
    ensures Shielded(CarQueue.Insert(q, x), e, k', ahead, vips)
  {
    var p := Place(q, x);
    k' := if p <= k then k + 1 else k;
    var r := CarQueue.Insert(q, x);
    forall j | 0 <= j < k' ensures MayBeAhead(r[j], e, ahead, vips) {
      if j < p {
        assert r[j] == q[j];
      } else if j == p {
        assert Before(x, q[k]);
      } else {
        assert r[j] == q[j - 1];
      }
    }
  }

  lemma AgingKeepsShield(q: seq<Entry>, now: int, threshold: real, e: Entry, k: nat, ahead: set<nat>, vips: bool) returns (k': nat)
    requires Shielded(q, e, k, ahead, vips) && DistinctIds(q)
    requires forall j :: 0 <= j < |q| ==> 0 <= q[j].priority <= 1
    ensures Shielded(Sort(AgeAll(q, now, threshold)), e, k', ahead, vips)
  {
    var aged := AgeAll(q, now, threshold);
    var r := Sort(aged);
    SortContents(aged);
    SortDistinct(aged);
    assert aged[k] in multiset(aged);
    k' :| 0 <= k' < |r| && r[k'] == aged[k];
    forall j | 0 <= j < k' ensures MayBeAhead(r[j], e, ahead, vips) {
      assert r[j] in multiset(r);
      var i :| 0 <= i < |aged| && aged[i] == r[j];
      assert i != k;
      if i < k {
        assert MayBeAhead(q[i], e, ahead, vips) && q[i].priority <= r[j].priority <= 1;
      } else if !Before(aged[i], aged[k]) {
        NotBothWays(r, j, k');
        SortKeepsOrder(aged, k, i);
      }
    }
  }

  lemma NotBothWays(r: seq<Entry>, j: nat, k: nat)
    requires DistinctIds(r) && j < k < |r|
    ensures !Precedes(r, r[k], r[j])
  {
  }

  /** One step either leaves the car waiting behind a shielded front, or hands it out; and
      whoever is handed out was shielded or is the car itself. */
  lemma StepKeepsShield(c: Config, s: State, l: Label, e: Entry, k: nat, ahead: set<nat>, vips: bool) returns (k': nat)
    requires Inv(c, s) && Enabled(c, s, l)
    requires Shielded(s.queue, e, k, ahead, vips)
    ensures var s' := Next(c, s, l);
      && (s'.popped == s.popped || s'.popped == s.popped + [s.queue[0].id])
      && ((s'.popped != s.popped && k == 0) || Shielded(s'.queue, e, k', ahead, vips))
  {
    match l
    case CarStep(i) =>
      CarStepFrame(c, s, i);
      CarMovesQueue(c, s, i);
      k' := k;
      if s.cars[i].pc == Insert && |s.queue| < c.cars {
        k' := InsertKeepsShield(s.queue, Entry(i, s.cars[i].priority, s.cars[i].enterTime), e, k, ahead, vips);
      }
      hide CarNext, CarEnabled, StationOk, Conserved, CarQueue.Insert;
    case MonitorPass(now) =>
      k' := AgingKeepsShield(s.queue, now, c.threshold, e, k, ahead, vips);
      hide StationOk, Conserved, Sort;
    case ManagerStep =>
      k' := if s.manager == PopQueue && k > 0 then k - 1 else k;
      hide StationOk, Conserved;
    case _ =>
      k' := k;
      hide StationOk, Conserved;
  }

  /** The clock is read in whole seconds, so the threshold of 0.4 s really asks for a reading
      in a later second: however short the wait was, and not before however long. */
  lemma PromotionNeedsALaterSecond(e: Entry, now: int, threshold: real)
    requires 0.0 < threshold <= 1.0
    ensures Aged(e, now, threshold) != e <==> e.priority == 0 && now > e.enterTime
    ensures Aged(e, now, threshold).priority == 1 <==> e.priority == 1 || (e.priority == 0 && now > e.enterTime)
  {
  }

  /** In terms of elapsed time: a car that joins at instant a, with the reading floor(a), is
      promoted by a pass at instant b exactly if a second has begun in between. A wait of a full
      second is always enough. */
  lemma PromotionInElapsedTime(id: nat, a: real, b: real, threshold: real)
    requires 0.0 < threshold <= 1.0 && a <= b
    ensures Aged(Entry(id, 0, a.Floor), b.Floor, threshold).priority == 1 <==> b.Floor > a.Floor
    ensures b - a >= 1.0 ==> Aged(Entry(id, 0, a.Floor), b.Floor, threshold).priority == 1
  {
    PromotionNeedsALaterSecond(Entry(id, 0, a.Floor), b.Floor, threshold);
    assert b - a >= 1.0 ==> b >= a.Floor as real + 1.0;
  }

  /** Below a second the length of the wait decides nothing: for each there is a car that is
      promoted after it and one that is not, although the threshold is 0.4 seconds. */
  lemma WaitBelowASecondDecidesNothing(id: nat, wait: real, threshold: real) returns (a: real, b: real)
    requires 0.0 < threshold <= 1.0 && 0.0 < wait < 1.0
    ensures Aged(Entry(id, 0, a.Floor), (a + wait).Floor, threshold).priority == 1
    ensures Aged(Entry(id, 0, b.Floor), (b + wait).Floor, threshold).priority == 0
  {
    a, b := 1.0 - wait, 0.0;
    assert a.Floor == 0 && (a + wait).Floor == 1 && (b + wait).Floor == 0;
    PromotionInElapsedTime(id, a, a + wait, threshold);
    PromotionInElapsedTime(id, b, b + wait, threshold);
  }

  // ----- whole runs -----

  lemma StepKeepsRecords(c: Config, s: State, l: Label)
    requires Shape(c, s) && Enabled(c, s, l)
    ensures var s' := Next(c, s, l);
      && s.next <= s'.next && s.popped <= s'.popped && |s'.cars| == |s.cars|
      && forall i :: 0 <= i < s.next ==>
           s'.cars[i].enterTime == s.cars[i].enterTime && s'.cars[i].priority == s.cars[i].priority
           && (s'.cars[i].pc == Failed <==> s.cars[i].pc == Failed)
  {
    match l
    case CarStep(i) =>
      CarStepFrame(c, s, i);
      CarPcMoves(c, s, i);
      hide CarNext, CarEnabled;
    case _ =>
  }

  /** The log of pops only grows, and a created car keeps its entry time. */
  lemma {:induction false} RunKeepsRecords(c: Config, s: State, ls: seq<Label>)
    requires Inv(c, s) && IsRun(c, s, ls)
    ensures var t := After(c, s, ls);
      && s.next <= t.next && s.popped <= t.popped && |t.cars| == |s.cars|
      && forall i :: 0 <= i < s.next ==>
           t.cars[i].enterTime == s.cars[i].enterTime && t.cars[i].priority == s.cars[i].priority
           && (t.cars[i].pc == Failed <==> s.cars[i].pc == Failed)
    decreases |ls|
  {
    if ls != [] {
      StepKeepsRecords(c, s, ls[0]);
      StepKeepsInv(c, s, ls[0]);
      RunKeepsRecords(c, Next(c, s, ls[0]), ls[1..]);
    }
  }

  /** A queued car has been created, and its entry shows its record's entry time. */
  lemma QueuedIsCreated(c: Config, s: State, k: nat)
    requires Inv(c, s) && k < |s.queue|
    ensures s.queue[k].id < s.next <= |s.cars| && s.cars[s.queue[k].id].enterTime == s.queue[k].enterTime
    ensures s.cars[s.queue[k].id].pc != Failed
  {
    hide Shape, QueueExact, Conserved, TicketsMatch, DoneMatches, QueueOwned, Handover, StationOk;
    EntriesShowRecords(c, s, k);
  }

  lemma EntriesShowRecords(c: Config, s: State, k: nat)
    requires Shape(c, s) && QueueExact(s) && k < |s.queue|
    ensures s.queue[k].id < s.next <= |s.cars| && s.cars[s.queue[k].id].enterTime == s.queue[k].enterTime
    ensures s.cars[s.queue[k].id].pc != Failed
  {
    hide Sorted, DistinctIds;
    assert Has(s.queue, s.queue[k].id);
    assert Waiting(s, s.queue[k].id);
  }

  /** Car x has come into being, with a strictly earlier clock reading than e's. */
  ghost predicate EnteredEarlier(t: State, x: nat, e: Entry) {
    x < t.next && x < |t.cars| && t.cars[x].pc != Failed && t.cars[x].enterTime < e.enterTime
  }

  /** The m-th pop is e's own, or that of a car in the set, or of one that entered earlier. */
  ghost predicate FairPop(t: State, m: nat, e: Entry, ahead: set<nat>)
    requires m < |t.popped|
  {
    t.popped[m] == e.id || t.popped[m] in ahead || EnteredEarlier(t, t.popped[m], e)
  }

  /** In the run ls from s, the m-th pop was of a car that was a VIP at that moment. */
  ghost predicate PoppedAsVip(c: Config, s: State, ls: seq<Label>, m: nat)
    requires IsRun(c, s, ls)
    decreases |ls|
  {
    ls != [] && (
      || (|s.popped| == m < |Next(c, s, ls[0]).popped| && s.queue != [] && s.queue[0].priority == 1)
      || PoppedAsVip(c, Next(c, s, ls[0]), ls[1..], m))
  }

  /** Nobody is popped before a waiting car but those who were ahead of it, those who entered
      strictly earlier and, unless it is a VIP itself, those who were VIPs when they were popped,
      over any interleaving of inserts, pops and promotions. */
  lemma {:induction false} OnlyShieldedOvertake(c: Config, s: State, ls: seq<Label>, e: Entry, k: nat, ahead: set<nat>, vips: bool,
                                                t: State, m: nat)
    requires Inv(c, s) && IsRun(c, s, ls) && t == After(c, s, ls)
    requires Shielded(s.queue, e, k, ahead, vips)
    requires |s.popped| <= m < |t.popped| && e.id !in t.popped[..m]
    ensures FairPop(t, m, e, ahead) || (vips && PoppedAsVip(c, s, ls, m))
    decreases |ls|
  {
    hide Inv, Next, Enabled, EnteredEarlier;
    if ls != [] {
      var s' := Next(c, s, ls[0]);
      var k' := StepKeepsShield(c, s, ls[0], e, k, ahead, vips);
      StepKeepsInv(c, s, ls[0]);
      if s'.popped != s.popped {
        HeadStaysEarlier(c, s, ls, t, e);
      }
      assert m > |s.popped| ==> t.popped[|s.popped|] in t.popped[..m];
      PoppedGrows(c, s', ls[1..]);
      if m < |s'.popped| {
        assert t.popped[m] == s.queue[0].id;
      } else {
        OnlyShieldedOvertake(c, s', ls[1..], e, k', ahead, vips, t, m);
      }
    }
  }

  /** What the queue says of its head's entry time, its record says for ever. */
  lemma HeadStaysEarlier(c: Config, s: State, ls: seq<Label>, t: State, e: Entry)
    requires Inv(c, s) && IsRun(c, s, ls) && t == After(c, s, ls) && s.queue != []
    ensures s.queue[0].enterTime < e.enterTime ==> EnteredEarlier(t, s.queue[0].id, e)
  {
    hide Inv, IsRun, After;
    QueuedIsCreated(c, s, 0);
    RunKeepsRecords(c, s, ls);
  }

  function Ids(q: seq<Entry>, k: nat): (ids: set<nat>)
    requires k <= |q|
    ensures |ids| <= k
    ensures forall j :: 0 <= j < k ==> q[j].id in ids
  {
    if k == 0 then {} else Ids(q, k - 1) + {q[k - 1].id}
  }

  /** Those who are ahead are allowed to be. */
  lemma FrontShields(q: seq<Entry>, k: nat, vips: bool)
    requires k < |q| && (vips || q[k].priority == 1)
    ensures Shielded(q, q[k], k, Ids(q, k), vips)
  {
  }

  /** Whoever is popped before a waiting car, regular or not, was ahead of it, entered strictly
      earlier, or was a VIP when it was popped. */
  lemma RegularCarsAreFairlyPassed(c: Config, s: State, ls: seq<Label>, k: nat, t: State, m: nat)
    requires Reachable(c, s) && IsRun(c, s, ls) && t == After(c, s, ls)
    requires k < |s.queue| && |s.popped| <= m < |t.popped| && s.queue[k].id !in t.popped[..m]
    ensures FairPop(t, m, s.queue[k], Ids(s.queue, k)) || PoppedAsVip(c, s, ls, m)
  {
    hide Reachable, Inv, IsRun, After, FairPop, PoppedAsVip;
    ReachableInv(c, s);
    FrontShields(s.queue, k, true);
    hide Shielded;
    OnlyShieldedOvertake(c, s, ls, s.queue[k], k, Ids(s.queue, k), true, t, m);
  }

  lemma PoppedGrows(c: Config, s: State, ls: seq<Label>)
    requires Inv(c, s) && IsRun(c, s, ls)
    ensures s.popped <= After(c, s, ls).popped
  {
    RunKeepsRecords(c, s, ls);
  }

  ghost function Earlier(t: State, e: Entry): set<nat> {
    set x: nat | x in Below(t.next) && EnteredEarlier(t, x, e)
  }

  /** Who may overtake e from behind: the cars that entered strictly earlier and are neither
      among the first k nor out already. */
  ghost function Overtakers(s: State, t: State, e: Entry, k: nat): set<nat>
    requires k <= |s.queue|
  {
    Earlier(t, e) - Ids(s.queue, k) - (set x | x in s.popped)
  }

  lemma {:induction false} DistinctWithin(xs: seq<nat>, a: set<nat>)
    requires forall i, j :: 0 <= i < j < |xs| ==> xs[i] != xs[j]
    requires forall i :: 0 <= i < |xs| ==> xs[i] in a
    ensures |xs| <= |a|
  {
    if xs != [] {
      var n := |xs| - 1;
      DistinctWithin(xs[..n], a - {xs[n]});
    }
  }

  lemma UnionSize(a: set<nat>, b: set<nat>)
    ensures |a + b| <= |a| + |b|
  {
  }

  /** Every pop before the waiting VIP's own is fair to it. */
  lemma PopIsFair(c: Config, s: State, ls: seq<Label>, k: nat, t: State, m: nat, i: nat)
    requires Inv(c, s) && IsRun(c, s, ls) && t == After(c, s, ls)
    requires k < |s.queue| && s.queue[k].priority == 1
    requires |s.popped| <= i < m <= |t.popped| && s.queue[k].id !in t.popped[..m]
    ensures FairPop(t, i, s.queue[k], Ids(s.queue, k))
    ensures t.popped[i] in Ids(s.queue, k) + Earlier(t, s.queue[k])
  {
    assert t.popped[i] == t.popped[..m][i];
    assert t.popped[..i] <= t.popped[..m];
    FrontShields(s.queue, k, false);
    OnlyShieldedOvertake(c, s, ls, s.queue[k], k, Ids(s.queue, k), false, t, i);
    hide Inv, IsRun, After;
  }

  lemma NewlyPopped(s: State, t: State, i: nat)
    requires Handover(t) && s.popped <= t.popped && |s.popped| <= i < |t.popped|
    ensures t.popped[i] !in s.popped
  {
    forall j | 0 <= j < |s.popped| ensures s.popped[j] != t.popped[i] {
      assert s.popped[j] == t.popped[j];
    }
  }

  lemma InvHandsOver(c: Config, s: State)
    requires Inv(c, s)
    ensures Handover(s) && forall i, j :: 0 <= i < j < |s.popped| ==> s.popped[i] != s.popped[j]
  {
  }

  /** Each pop before the waiting VIP's own is of one of the first k or of an overtaker. */
  lemma PopIsAllowed(c: Config, s: State, ls: seq<Label>, k: nat, t: State, m: nat, i: nat)
    requires Inv(c, s) && IsRun(c, s, ls) && t == After(c, s, ls)
    requires k < |s.queue| && s.queue[k].priority == 1
    requires |s.popped| <= i < m <= |t.popped| && s.queue[k].id !in t.popped[..m]
    ensures FairPop(t, i, s.queue[k], Ids(s.queue, k))
    ensures t.popped[i] in Ids(s.queue, k) + Overtakers(s, t, s.queue[k], k)
  {
    hide Inv, IsRun, After, FairPop, Earlier, Handover;
    RunKeepsInv(c, s, ls);
    PoppedGrows(c, s, ls);
    InvHandsOver(c, t);
    PopIsFair(c, s, ls, k, t, m, i);
    NewlyPopped(s, t, i);
  }

  lemma PopsAreBounded(c: Config, s: State, ls: seq<Label>, k: nat, t: State, m: nat)
    requires Inv(c, s) && IsRun(c, s, ls) && t == After(c, s, ls)
    requires k < |s.queue| && s.queue[k].priority == 1
    requires |s.popped| <= m <= |t.popped| && s.queue[k].id !in t.popped[..m]
    ensures m - |s.popped| <= k + |Overtakers(s, t, s.queue[k], k)|
    ensures forall i :: |s.popped| <= i < m ==> FairPop(t, i, s.queue[k], Ids(s.queue, k))
  {
    hide Inv, IsRun, After, FairPop, Overtakers, Handover;
    RunKeepsInv(c, s, ls);
    InvHandsOver(c, t);
    var others := Overtakers(s, t, s.queue[k], k);
    forall i | |s.popped| <= i < m
      ensures FairPop(t, i, s.queue[k], Ids(s.queue, k))
      ensures t.popped[i] in Ids(s.queue, k) + others
    {
      PopIsAllowed(c, s, ls, k, t, m, i);
    }
    DistinctWithin(t.popped[|s.popped|..m], Ids(s.queue, k) + others);
    UnionSize(Ids(s.queue, k), others);
  }

  /** A car that waits as a VIP at position k is overtaken, besides the k cars ahead of it, by
      no more cars than entered strictly earlier and are still to come. */
  lemma OvertakingIsBounded(c: Config, s: State, ls: seq<Label>, k: nat, t: State, m: nat)
    requires Reachable(c, s) && IsRun(c, s, ls) && t == After(c, s, ls)
    requires k < |s.queue| && s.queue[k].priority == 1
    requires |s.popped| <= m <= |t.popped| && s.queue[k].id !in t.popped[..m]
    ensures m - |s.popped| <= k + |Overtakers(s, t, s.queue[k], k)|
    ensures forall i :: |s.popped| <= i < m ==> FairPop(t, i, s.queue[k], Ids(s.queue, k))
  {
    hide Reachable, Inv, IsRun, After, FairPop, Earlier;
    ReachableInv(c, s);
    PopsAreBounded(c, s, ls, k, t, m);
  }

  /** The clock readings of the cars that came into being did not go backwards. */
  ghost predicate ClockIsMonotone(t: State) {
    && t.next <= |t.cars|
    && forall i, j :: 0 <= i < j < t.next && t.cars[i].pc != Failed && t.cars[j].pc != Failed ==>
         t.cars[i].enterTime <= t.cars[j].enterTime
  }

  lemma EarlierCarsHaveSmallerIds(c: Config, s: State, ls: seq<Label>, k: nat, t: State)
    requires Inv(c, s) && IsRun(c, s, ls) && t == After(c, s, ls)
    requires k < |s.queue| && ClockIsMonotone(t)
    ensures forall x: nat :: EnteredEarlier(t, x, s.queue[k]) ==> x < s.queue[k].id
  {
    hide Inv, IsRun, After;
    QueuedIsCreated(c, s, k);
    RunKeepsRecords(c, s, ls);
    assert t.cars[s.queue[k].id].enterTime == s.queue[k].enterTime;
  }

  /** With a clock that does not go backwards, no car created after a waiting VIP is popped
      before it unless it was ahead already, so at most k + id cars are. */
  lemma LaterCarsDoNotOvertake(c: Config, s: State, ls: seq<Label>, k: nat, t: State, m: nat)
    requires Reachable(c, s) && IsRun(c, s, ls) && t == After(c, s, ls)
    requires k < |s.queue| && s.queue[k].priority == 1
    requires |s.popped| <= m <= |t.popped| && s.queue[k].id !in t.popped[..m]
    requires ClockIsMonotone(t)
    ensures m - |s.popped| <= k + s.queue[k].id
    ensures forall i :: |s.popped| <= i < m ==> t.popped[i] < s.queue[k].id || t.popped[i] in Ids(s.queue, k)
  {
    var e := s.queue[k];
    ReachableInv(c, s);
    EarlierCarsHaveSmallerIds(c, s, ls, k, t);
    PopsAreBounded(c, s, ls, k, t, m);
    hide Reachable, Inv, IsRun, After, ClockIsMonotone, EnteredEarlier;
    SubsetSize(Overtakers(s, t, e, k), Below(e.id));
    forall i | |s.popped| <= i < m ensures t.popped[i] < e.id || t.popped[i] in Ids(s.queue, k) {
      assert FairPop(t, i, e, Ids(s.queue, k));
      assert t.popped[i] in t.popped[..m];
    }
  }
}
