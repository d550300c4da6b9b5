/** The bounded stack of Threads-safe_stack.c: two counting semaphores and a mutex around an
    array, with any number of threads that push and pop in any interleaving. */
module BoundedStack {

  import opened Wrappers

  datatype Pc =
    | Idle
    | WaitEmpty(num: int) | LockPush(num: int) | Push(num: int) | UnlockPush(num: int) | PostFull(num: int)
    | WaitFull | LockPop | Pop | UnlockPop(val: int) | PostEmpty(val: int)

  datatype Op = Pushed(v: int) | Popped(v: int)
  datatype Event = Event(thread: nat, op: Op)

  datatype State = State(
    stk: seq<int>, idx: nat, isFull: nat, isEmpty: nat, owner: Option<nat>,
    pc: seq<Pc>,
    log: seq<Event>,          // history: operations in the order of their critical sections
    results: seq<seq<Op>>)    // history: what each thread's finished calls did

  function Init(n: nat, threads: nat): State {
    State(seq(n, _ => 0), 0, 0, n, None, seq(threads, _ => Idle), [], seq(threads, _ => []))
  }

  datatype Label = StartPush(t: nat, num: int) | StartPop(t: nat) | Step(t: nat)

  predicate Enabled(s: State, l: Label) {
    match l
    case StartPush(t, _) => t < |s.pc| && s.pc[t] == Idle
    case StartPop(t) => t < |s.pc| && s.pc[t] == Idle
    case Step(t) =>
      t < |s.pc| && |s.results| == |s.pc| &&
      match s.pc[t]
      case Idle => false
      case WaitEmpty(_) => s.isEmpty > 0
      case WaitFull => s.isFull > 0
      case LockPush(_) => s.owner == None
      case LockPop => s.owner == None
      case _ => true
  }

  function Goto(s: State, t: nat, pc: Pc): State
    requires t < |s.pc|
  {
    s.(pc := s.pc[t := pc])
  }

  /** Element k of an array; the invariant shows that this and the store in Next are in range. */
  function At(a: seq<int>, k: int): int {
    if 0 <= k < |a| then a[k] else 0
  }

  function Next(s: State, l: Label): State
    requires Enabled(s, l)
  {
    match l
    case StartPush(t, num) => Goto(s, t, WaitEmpty(num))
    case StartPop(t) => Goto(s, t, WaitFull)
    case Step(t) =>
      match s.pc[t]
      case WaitEmpty(num) => Goto(s, t, LockPush(num)).(isEmpty := s.isEmpty - 1)
      case LockPush(num) => Goto(s, t, Push(num)).(owner := Some(t))
      case Push(num) =>
        Goto(s, t, UnlockPush(num)).(stk := if s.idx < |s.stk| then s.stk[s.idx := num] else s.stk, idx := s.idx + 1,
                                     log := s.log + [Event(t, Pushed(num))])
      case UnlockPush(num) => Goto(s, t, PostFull(num)).(owner := None)
      case PostFull(num) =>
        Goto(s, t, Idle).(isFull := s.isFull + 1, results := s.results[t := s.results[t] + [Pushed(num)]])
      case WaitFull => Goto(s, t, LockPop).(isFull := s.isFull - 1)
      case LockPop => Goto(s, t, Pop).(owner := Some(t))
      case Pop =>
        var idx' := if s.idx > 0 then s.idx - 1 else 0;
        var val := At(s.stk, s.idx - 1);
        Goto(s, t, UnlockPop(val)).(idx := idx', log := s.log + [Event(t, Popped(val))])
      case UnlockPop(val) => Goto(s, t, PostEmpty(val)).(owner := None)
      case PostEmpty(val) =>
        Goto(s, t, Idle).(isEmpty := s.isEmpty + 1, results := s.results[t := s.results[t] + [Popped(val)]])
  }

  // ----- the sequential stack -----

  /** One operation on a LIFO stack of capacity n; None if that operation could not have
      happened there. */
  function Apply(contents: seq<int>, op: Op, n: nat): Option<seq<int>> {
    match op
    case Pushed(v) => if |contents| < n then Some(contents + [v]) else None
    case Popped(v) =>
      if |contents| > 0 && contents[|contents| - 1] == v then Some(contents[..|contents| - 1]) else None
  }

  function Replay(log: seq<Event>, n: nat): Option<seq<int>> {
    if log == [] then Some([])
    else
      match Replay(log[..|log| - 1], n)
      case None => None
      case Some(contents) => Apply(contents, log[|log| - 1].op, n)
  }

  /** Thread t's operations, in log order. */
  function OpsOf(log: seq<Event>, t: nat): seq<Op> {
    if log == [] then []
    else OpsOf(log[..|log| - 1], t) + (if log[|log| - 1].thread == t then [log[|log| - 1].op] else [])
  }

  // ----- counting threads -----

  datatype Tally = ClaimedPush | ClaimedPop | UnpostedPush | UnpostedPop

  function Weight(pc: Pc, w: Tally): nat {
    match w
    case ClaimedPush => if pc.LockPush? || pc.Push? then 1 else 0
    case ClaimedPop => if pc.LockPop? || pc.Pop? then 1 else 0
    case UnpostedPush => if pc.UnlockPush? || pc.PostFull? then 1 else 0
    case UnpostedPop => if pc.UnlockPop? || pc.PostEmpty? then 1 else 0
  }

  function Count(pcs: seq<Pc>, w: Tally): nat {
    if pcs == [] then 0 else Count(pcs[..|pcs| - 1], w) + Weight(pcs[|pcs| - 1], w)
  }

  lemma {:induction false} CountUpdate(pcs: seq<Pc>, t: nat, pc: Pc, w: Tally)
    requires t < |pcs|
    ensures Count(pcs[t := pc], w) + Weight(pcs[t], w) == Count(pcs, w) + Weight(pc, w)
  {
    var m := |pcs| - 1;
    if t < m {
      assert pcs[t := pc][..m] == pcs[..m][t := pc];
      CountUpdate(pcs[..m], t, pc, w);
    } else {
      assert pcs[t := pc][..m] == pcs[..m];
    }
  }

  lemma {:induction false} CountAtLeast(pcs: seq<Pc>, t: nat, w: Tally)
    requires t < |pcs|
    ensures Count(pcs, w) >= Weight(pcs[t], w)
  {
    if t < |pcs| - 1 {
      CountAtLeast(pcs[..|pcs| - 1], t, w);
    }
  }

  lemma {:induction false} CountZero(pcs: seq<Pc>, w: Tally)
    requires forall t :: 0 <= t < |pcs| ==> Weight(pcs[t], w) == 0
    ensures Count(pcs, w) == 0
  {
    if pcs != [] {
      CountZero(pcs[..|pcs| - 1], w);
    }
  }

  // ----- the invariant -----

  ghost predicate Sized(s: State, n: nat) {
    |s.stk| == n && |s.results| == |s.pc|
  }

  /** The two semaphores, the stack index and the threads in between always agree. */
  ghost predicate Accounted(s: State, n: nat) {
    && s.idx == s.isFull + Count(s.pc, ClaimedPop) + Count(s.pc, UnpostedPush)
    && n - s.idx == s.isEmpty + Count(s.pc, ClaimedPush) + Count(s.pc, UnpostedPop)
  }

  predicate InSection(pc: Pc) {
    pc.Push? || pc.UnlockPush? || pc.Pop? || pc.UnlockPop?
  }

  ghost predicate Owned(s: State) {
    && (s.owner.Some? ==> s.owner.value < |s.pc|)
    && (forall t :: 0 <= t < |s.pc| ==> (s.owner == Some(t) <==> InSection(s.pc[t])))
  }

  /** The log is a legal sequential history and ends in the current contents. */
  ghost predicate Sequential(s: State, n: nat) {
    s.idx <= |s.stk| && Replay(s.log, n) == Some(s.stk[..s.idx])
  }

  /** The operation a thread has performed but whose call has not returned. */
  function Pending(pc: Pc): seq<Op> {
    match pc
    case UnlockPush(v) => [Pushed(v)]
    case PostFull(v) => [Pushed(v)]
    case UnlockPop(v) => [Popped(v)]
    case PostEmpty(v) => [Popped(v)]
    case _ => []
  }

  ghost predicate Faithful(s: State)
    requires |s.results| == |s.pc|
  {
    forall t :: 0 <= t < |s.pc| ==> OpsOf(s.log, t) == s.results[t] + Pending(s.pc[t])
  }

  ghost predicate Inv(s: State, n: nat) {
    Sized(s, n) && Accounted(s, n) && Owned(s) && Sequential(s, n) && Faithful(s)
  }

  lemma InitHolds(n: nat, threads: nat)
    ensures Inv(Init(n, threads), n)
  {
    var s := Init(n, threads);
    CountZero(s.pc, ClaimedPop);
    CountZero(s.pc, UnpostedPush);
    CountZero(s.pc, ClaimedPush);
    CountZero(s.pc, UnpostedPop);
  }

  lemma StepFrame(s: State, l: Label)
    requires Enabled(s, l)
    ensures l.t < |s.pc| && Next(s, l).pc == s.pc[l.t := Next(s, l).pc[l.t]]
    ensures |Next(s, l).stk| == |s.stk| && (|s.results| == |s.pc| ==> |Next(s, l).results| == |s.results|)
  {
  }

  /** A claim in hand means a free (or a used) cell. */
  lemma ClaimsAreBacked(s: State, n: nat, t: nat)
    requires Inv(s, n) && t < |s.pc|
    ensures s.pc[t].Push? ==> s.idx < n
    ensures s.pc[t].Pop? ==> 0 < s.idx <= n
  {
    CountAtLeast(s.pc, t, ClaimedPush);
    CountAtLeast(s.pc, t, ClaimedPop);
  }

  /** One step moves the semaphores, the index and the thread's own weights in balance. */
  lemma StepBalances(s: State, l: Label, n: nat)
    requires Enabled(s, l)
    requires s.pc[l.t].Pop? ==> 0 < s.idx
    ensures var s', p, q := Next(s, l), s.pc[l.t], Next(s, l).pc[l.t];
      && s'.idx - s.idx == s'.isFull - s.isFull + Weight(q, ClaimedPop) - Weight(p, ClaimedPop)
                           + Weight(q, UnpostedPush) - Weight(p, UnpostedPush)
      && s.idx - s'.idx == s'.isEmpty - s.isEmpty + Weight(q, ClaimedPush) - Weight(p, ClaimedPush)
                           + Weight(q, UnpostedPop) - Weight(p, UnpostedPop)
  {
  }

  lemma StepKeepsAccounts(s: State, l: Label, n: nat)
    requires Inv(s, n) && Enabled(s, l)
    ensures Accounted(Next(s, l), n)
  {
    hide Next, Enabled, Weight, Owned, Sequential, Faithful;
    StepFrame(s, l);
    ClaimsAreBacked(s, n, l.t);
    StepBalances(s, l, n);
    var pc := Next(s, l).pc[l.t];
    CountUpdate(s.pc, l.t, pc, ClaimedPop);
    CountUpdate(s.pc, l.t, pc, UnpostedPush);
    CountUpdate(s.pc, l.t, pc, ClaimedPush);
    CountUpdate(s.pc, l.t, pc, UnpostedPop);
  }

  lemma StepKeepsOwner(s: State, l: Label, n: nat)
    requires Inv(s, n) && Enabled(s, l)
    ensures Owned(Next(s, l))
  {
    StepFrame(s, l);
  }

  lemma ReplayOneMore(log: seq<Event>, e: Event, n: nat)
    requires Replay(log, n).Some?
    ensures Replay(log + [e], n) == Apply(Replay(log, n).value, e.op, n)
  {
  }

  lemma PushKeepsSequential(s: State, t: nat, n: nat)
    requires Sized(s, n) && Sequential(s, n) && Enabled(s, Step(t)) && s.pc[t].Push? && s.idx < n
    ensures Sequential(Next(s, Step(t)), n)
  {
    ReplayOneMore(s.log, Event(t, Pushed(s.pc[t].num)), n);
    assert s.stk[s.idx := s.pc[t].num][..s.idx + 1] == s.stk[..s.idx] + [s.pc[t].num];
    hide Replay;
  }

  lemma PopKeepsSequential(s: State, t: nat, n: nat)
    requires Sized(s, n) && Sequential(s, n) && Enabled(s, Step(t)) && s.pc[t].Pop? && 0 < s.idx
    ensures Sequential(Next(s, Step(t)), n)
  {
    ReplayOneMore(s.log, Event(t, Popped(s.stk[s.idx - 1])), n);
    assert s.stk[..s.idx - 1] == s.stk[..s.idx][..s.idx - 1];
    hide Replay;
  }

  lemma StepKeepsSequential(s: State, l: Label, n: nat)
    requires Inv(s, n) && Enabled(s, l)
    ensures Sequential(Next(s, l), n)
  {
    hide Replay;
    ClaimsAreBacked(s, n, l.t);
    if l.Step? && s.pc[l.t].Push? {
      PushKeepsSequential(s, l.t, n);
    } else if l.Step? && s.pc[l.t].Pop? {
      PopKeepsSequential(s, l.t, n);
    }
  }

  lemma OpsOneMore(log: seq<Event>, e: Event, t: nat)
    ensures OpsOf(log + [e], t) == OpsOf(log, t) + (if e.thread == t then [e.op] else [])
  {
  }

  /** What one step adds to the log, to the thread's results and to its pending operation. */
  lemma StepRecords(s: State, l: Label)
    requires Enabled(s, l) && |s.results| == |s.pc|
    ensures var s', t := Next(s, l), l.t;
      && (s'.log == s.log || (|s'.log| == |s.log| + 1 && s'.log == s.log + [s'.log[|s.log|]] && s'.log[|s.log|].thread == t))
      && s'.results == s.results[t := s'.results[t]]
      && s'.results[t] + Pending(s'.pc[t])
         == s.results[t] + Pending(s.pc[t]) + (if s'.log == s.log then [] else [s'.log[|s.log|].op])
  {
  }

  lemma StepKeepsFaithful(s: State, l: Label, n: nat)
    requires Inv(s, n) && Enabled(s, l)
    ensures Sized(Next(s, l), n) && Faithful(Next(s, l))
  {
    hide Next, Enabled, Pending, Accounted, Owned, Sequential;
    var s' := Next(s, l);
    StepFrame(s, l);
    StepRecords(s, l);
    forall t | 0 <= t < |s.pc| ensures OpsOf(s'.log, t) == s'.results[t] + Pending(s'.pc[t]) {
      assert OpsOf(s.log, t) == s.results[t] + Pending(s.pc[t]);
      if s'.log != s.log {
        OpsOneMore(s.log, s'.log[|s.log|], t);
      }
    }
  }

  /** Every step of every thread keeps the invariant. */
  lemma StepKeepsInv(s: State, l: Label, n: nat)
    requires Inv(s, n) && Enabled(s, l)
    ensures Inv(Next(s, l), n)
  {
    hide Accounted, Owned, Sequential, Faithful, Next, Enabled;
    StepKeepsAccounts(s, l, n);
    StepKeepsOwner(s, l, n);
    StepKeepsSequential(s, l, n);
    StepKeepsFaithful(s, l, n);
  }

  // ----- runs -----

  ghost predicate IsRun(s: State, ls: seq<Label>)
    decreases |ls|
  {
    ls == [] || (Enabled(s, ls[0]) && IsRun(Next(s, ls[0]), ls[1..]))
  }

  ghost function After(s: State, ls: seq<Label>): State
    requires IsRun(s, ls)
    decreases |ls|
  {
    if ls == [] then s else After(Next(s, ls[0]), ls[1..])
  }

  lemma {:induction false} RunKeepsInv(s: State, ls: seq<Label>, n: nat)
    requires Inv(s, n) && IsRun(s, ls)
    ensures Inv(After(s, ls), n) && s.log <= After(s, ls).log && |After(s, ls).pc| == |s.pc|
    decreases |ls|
  {
    if ls != [] {
      StepKeepsInv(s, ls[0], n);
      StepFrame(s, ls[0]);
      RunKeepsInv(Next(s, ls[0]), ls[1..], n);
    }
  }

  /** Linearizability. After any run of any number of threads, the order of the critical
      sections is a legal history of one sequential stack that ends in the stored contents,
      and each thread's finished calls returned exactly their part of it, in order. */
  lemma RunsAreLinearizable(n: nat, threads: nat, ls: seq<Label>, t: nat)
    requires IsRun(Init(n, threads), ls) && t < threads
    ensures var s := After(Init(n, threads), ls);
      && s.idx <= n == |s.stk| && |s.pc| == |s.results| == threads
      && Replay(s.log, n) == Some(s.stk[..s.idx])
      && OpsOf(s.log, t) == s.results[t] + Pending(s.pc[t])
  {
    InitHolds(n, threads);
    RunKeepsInv(Init(n, threads), ls, n);
  }

  /** The linearization respects real time: an operation that is in the log stays where it
      is, and later operations come after it. */
  lemma LogOnlyGrows(n: nat, threads: nat, ls: seq<Label>, more: seq<Label>)
    requires IsRun(Init(n, threads), ls) && IsRun(After(Init(n, threads), ls), more)
    ensures After(Init(n, threads), ls).log <= After(After(Init(n, threads), ls), more).log
  {
    InitHolds(n, threads);
    RunKeepsInv(Init(n, threads), ls, n);
    RunKeepsInv(After(Init(n, threads), ls), more, n);
  }

  /** The array is never indexed out of range. */
  lemma NeverOutOfRange(n: nat, threads: nat, ls: seq<Label>, t: nat)
    requires IsRun(Init(n, threads), ls) && t < threads
    ensures var s := After(Init(n, threads), ls);
      && t < |s.pc| && |s.stk| == n
      && (s.pc[t].Push? ==> s.idx < n)
      && (s.pc[t].Pop? ==> 0 < s.idx <= n)
  {
    InitHolds(n, threads);
    RunKeepsInv(Init(n, threads), ls, n);
    ClaimsAreBacked(After(Init(n, threads), ls), n, t);
  }

  // ----- what was called is what was done -----

  datatype Call = PushCall(num: int) | PopCall

  /** The calls that a schedule makes in thread t, in order. */
  function CallsMade(ls: seq<Label>, t: nat): seq<Call> {
    if ls == [] then []
    else
      (match ls[0]
       case StartPush(u, num) => if u == t then [PushCall(num)] else []
       case StartPop(u) => if u == t then [PopCall] else []
       case Step(_) => [])
      + CallsMade(ls[1..], t)
  }

  /** The calls that operations belong to: a push carries its value. */
  function CallsFor(ops: seq<Op>): (r: seq<Call>)
    ensures |r| == |ops|
  {
    seq(|ops|, i requires 0 <= i < |ops| => match ops[i] case Pushed(v) => PushCall(v) case Popped(_) => PopCall)
  }

  /** The call whose operation has not been performed. */
  function Running(pc: Pc): seq<Call> {
    match pc
    case WaitEmpty(num) => [PushCall(num)]
    case LockPush(num) => [PushCall(num)]
    case Push(num) => [PushCall(num)]
    case WaitFull => [PopCall]
    case LockPop => [PopCall]
    case Pop => [PopCall]
    case _ => []
  }

  /** What thread t has done and is doing. */
  function Answered(s: State, t: nat): seq<Call>
    requires t < |s.pc| == |s.results|
  {
    CallsFor(s.results[t] + Pending(s.pc[t])) + Running(s.pc[t])
  }

  lemma CallsForOneMore(ops: seq<Op>, op: Op)
    ensures CallsFor(ops + [op]) == CallsFor(ops) + CallsFor([op])
  {
  }

  /** One step makes a call answered only if it starts one. */
  lemma StepAnswers(s: State, l: Label, t: nat)
    requires Enabled(s, l) && t < |s.pc| == |s.results|
    ensures |Next(s, l).pc| == |Next(s, l).results| == |s.pc|
    ensures Answered(Next(s, l), t) == Answered(s, t) + CallsMade([l], t)
  {
    assert [l][1..] == [];
    StepFrame(s, l);
    StepRecords(s, l);
    if l.t == t {
      var p, q := s.pc[t], Next(s, l).pc[t];
      if p.Push? {
        CallsForOneMore(s.results[t], Pushed(p.num));
      } else if p.Pop? {
        CallsForOneMore(s.results[t], Popped(q.val));
      }
    }
  }

  lemma {:induction false} RunAnswers(s: State, ls: seq<Label>, t: nat)
    requires IsRun(s, ls) && t < |s.pc| == |s.results|
    ensures |After(s, ls).pc| == |After(s, ls).results| == |s.pc|
    ensures Answered(After(s, ls), t) == Answered(s, t) + CallsMade(ls, t)
    decreases |ls|
  {
    hide Answered, Next, Enabled;
    if ls != [] {
      StepAnswers(s, ls[0], t);
      RunAnswers(Next(s, ls[0]), ls[1..], t);
      assert [ls[0]][1..] == [];
    }
  }

  /** In every run, the operations that thread t has performed or is about to perform are those
      of its calls, in call order, and every push has the value that was passed to it. */
  lemma EveryCallIsAnswered(n: nat, threads: nat, ls: seq<Label>, t: nat)
    requires IsRun(Init(n, threads), ls) && t < threads
    ensures var s := After(Init(n, threads), ls);
      && |s.pc| == |s.results| == threads
      && CallsFor(s.results[t] + Pending(s.pc[t])) + Running(s.pc[t]) == CallsMade(ls, t)
  {
    RunAnswers(Init(n, threads), ls, t);
  }

  // ----- when the program stops -----

  ghost predicate Stuck(s: State) {
    forall l :: !Enabled(s, l)
  }

  /** The threads can all get stuck, and exactly in two ways: everybody pops from an empty
      stack, or everybody pushes onto a full one. */
  lemma StuckExactly(n: nat, threads: nat, ls: seq<Label>)
    requires n > 0 && threads > 0 && IsRun(Init(n, threads), ls)
    ensures var s := After(Init(n, threads), ls);
      Stuck(s) <==>
        || (s.idx == 0 && forall t :: 0 <= t < |s.pc| ==> s.pc[t] == WaitFull)
        || (s.idx == n && forall t :: 0 <= t < |s.pc| ==> s.pc[t].WaitEmpty?)
  {
    InitHolds(n, threads);
    RunKeepsInv(Init(n, threads), ls, n);
    var s := After(Init(n, threads), ls);
    hide Sequential, Faithful, IsRun, After, Init;
    if Stuck(s) {
      StuckShape(s, n);
      StuckKind(s, n);
    } else {
      FreeWhenNotStuck(s, n);
    }
  }

  /** Thread t waits on a semaphore that is 0. */
  predicate Blocked(s: State, t: nat)
    requires t < |s.pc|
  {
    (s.pc[t] == WaitFull && s.isFull == 0) || (s.pc[t].WaitEmpty? && s.isEmpty == 0)
  }

  lemma StuckMutexIsFree(s: State)
    requires |s.results| == |s.pc| && Owned(s) && Stuck(s)
    ensures s.owner == None
  {
    if s.owner.Some? {
      assert Enabled(s, Step(s.owner.value));
    }
  }

  lemma StuckShape(s: State, n: nat)
    requires Sized(s, n) && Owned(s) && Stuck(s)
    ensures forall t :: 0 <= t < |s.pc| ==> Blocked(s, t)
  {
    StuckMutexIsFree(s);
    forall t | 0 <= t < |s.pc| ensures Blocked(s, t) {
      assert !Enabled(s, StartPop(t)) && !Enabled(s, Step(t));
    }
  }

  lemma AllWaitingCounts(s: State)
    requires forall t :: 0 <= t < |s.pc| ==> s.pc[t] == WaitFull || s.pc[t].WaitEmpty?
    ensures forall w :: Count(s.pc, w) == 0
  {
    forall w ensures Count(s.pc, w) == 0 {
      CountZero(s.pc, w);
    }
  }

  lemma StuckKind(s: State, n: nat)
    requires n > 0 && |s.pc| > 0 && Accounted(s, n)
    requires forall t :: 0 <= t < |s.pc| ==> Blocked(s, t)
    ensures || (s.idx == 0 && forall t :: 0 <= t < |s.pc| ==> s.pc[t] == WaitFull)
            || (s.idx == n && forall t :: 0 <= t < |s.pc| ==> s.pc[t].WaitEmpty?)
  {
    forall t | 0 <= t < |s.pc|
      ensures s.pc[t] == WaitFull || s.pc[t].WaitEmpty?
      ensures s.isFull > 0 ==> s.pc[t].WaitEmpty?
      ensures s.isEmpty > 0 ==> s.pc[t] == WaitFull
    {
      assert Blocked(s, t);
    }
    AllWaitingCounts(s);
    assert s.idx == s.isFull && n - s.idx == s.isEmpty;
    assert Blocked(s, 0);
  }

  lemma FreeWhenNotStuck(s: State, n: nat)
    requires Accounted(s, n) && !Stuck(s)
    ensures !(s.idx == 0 && forall t :: 0 <= t < |s.pc| ==> s.pc[t] == WaitFull)
    ensures !(s.idx == n && forall t :: 0 <= t < |s.pc| ==> s.pc[t].WaitEmpty?)
  {
  }

  // ----- both ways of stopping happen -----

  ghost predicate Reachable(n: nat, threads: nat, s: State) {
    exists ls :: IsRun(Init(n, threads), ls) && After(Init(n, threads), ls) == s
  }

  lemma {:induction false} RunThenStep(s: State, ls: seq<Label>, l: Label)
    requires IsRun(s, ls) && Enabled(After(s, ls), l)
    ensures IsRun(s, ls + [l]) && After(s, ls + [l]) == Next(After(s, ls), l)
    decreases |ls|
  {
    hide Next, Enabled;
    if ls == [] {
      assert [l][1..] == [] && ls + [l] == [l];
    } else {
      assert (ls + [l])[1..] == ls[1..] + [l];
      RunThenStep(Next(s, ls[0]), ls[1..], l);
    }
  }

  lemma ReachableStep(n: nat, threads: nat, s: State, l: Label)
    requires Reachable(n, threads, s) && Enabled(s, l)
    ensures Reachable(n, threads, Next(s, l))
  {
    hide Next, Enabled;
    var ls :| IsRun(Init(n, threads), ls) && After(Init(n, threads), ls) == s;
    RunThenStep(Init(n, threads), ls, l);
  }

  lemma StartIsReachable(n: nat, threads: nat)
    ensures Reachable(n, threads, Init(n, threads))
  {
    assert IsRun(Init(n, threads), []) && After(Init(n, threads), []) == Init(n, threads);
  }

  /** Between calls: k values stored, nobody inside. */
  ghost predicate Resting(s: State, n: nat, threads: nat, k: nat) {
    && k <= n && s.idx == k && s.isFull == k && s.isEmpty == n - k && s.owner == None
    && s.pc == seq(threads, _ => Idle) && |s.results| == threads
  }

  /** One call of stkPush from start to end. */
  lemma PushOnce(n: nat, threads: nat, s: State, k: nat) returns (t: State)
    requires Reachable(n, threads, s) && Resting(s, n, threads, k) && k < n && threads > 0
    ensures Reachable(n, threads, t) && Resting(t, n, threads, k + 1)
  {
    hide Reachable;
    ReachableStep(n, threads, s, StartPush(0, 0));
    t := Next(s, StartPush(0, 0));
    ReachableStep(n, threads, t, Step(0));
    t := Next(t, Step(0));
    ReachableStep(n, threads, t, Step(0));
    t := Next(t, Step(0));
    ReachableStep(n, threads, t, Step(0));
    t := Next(t, Step(0));
    ReachableStep(n, threads, t, Step(0));
    t := Next(t, Step(0));
    ReachableStep(n, threads, t, Step(0));
    t := Next(t, Step(0));
    assert t.pc == s.pc;
  }

  lemma {:induction false} PushTimes(n: nat, threads: nat, k: nat) returns (t: State)
    requires k <= n && threads > 0
    ensures Reachable(n, threads, t) && Resting(t, n, threads, k)
  {
    hide Reachable;
    if k == 0 {
      t := Init(n, threads);
      StartIsReachable(n, threads);
    } else {
      t := PushTimes(n, threads, k - 1);
      t := PushOnce(n, threads, t, k - 1);
    }
  }

  /** The first m threads have called stkPush, or stkPop, and wait for its semaphore. */
  function Calling(threads: nat, m: nat, pushing: bool): (pcs: seq<Pc>)
    ensures |pcs| == threads
  {
    seq(threads, t => if t < m then if pushing then WaitEmpty(0) else WaitFull else Idle)
  }

  lemma {:induction false} AllCall(n: nat, threads: nat, s: State, m: nat, pushing: bool) returns (t: State)
    requires Reachable(n, threads, s) && m <= threads && s.pc == Calling(threads, 0, pushing)
    ensures Reachable(n, threads, t) && t == s.(pc := Calling(threads, m, pushing))
  {
    hide Reachable;
    if m == 0 {
      t := s;
    } else {
      t := AllCall(n, threads, s, m - 1, pushing);
      var l := if pushing then StartPush(m - 1, 0) else StartPop(m - 1);
      ReachableStep(n, threads, t, l);
      t := Next(t, l);
      assert t.pc == Calling(threads, m, pushing);
    }
  }

  /** Whatever the capacity and the number of threads, the program can stop for good, and in
      both ways: on an empty stack with every thread in stkPop, and on a full one with every
      thread in stkPush. */
  lemma StuckBothWays(n: nat, threads: nat) returns (empty: State, full: State)
    requires threads > 0
    ensures Reachable(n, threads, empty) && Stuck(empty)
    ensures empty.idx == 0 && |empty.pc| == threads && forall t :: 0 <= t < threads ==> empty.pc[t] == WaitFull
    ensures Reachable(n, threads, full) && Stuck(full)
    ensures full.idx == n && |full.pc| == threads && forall t :: 0 <= t < threads ==> full.pc[t].WaitEmpty?
  {
    hide Reachable;
    empty := PushTimes(n, threads, 0);
    assert empty.pc == Calling(threads, 0, false);
    empty := AllCall(n, threads, empty, threads, false);
    full := PushTimes(n, threads, n);
    assert full.pc == Calling(threads, 0, true);
    full := AllCall(n, threads, full, threads, true);
  }

  // ----- the C code -----

  class Shared {
    const stk: array<int>
    var idx: nat

    ghost predicate Shows(s: State)
      reads this, stk
    {
      stk[..] == s.stk && idx == s.idx
    }

    constructor (n: nat, ghost threads: nat)
      ensures Shows(Init(n, threads)) && fresh(stk)
    {
      stk := new int[n](_ => 0);
      idx := 0;
    }

    /** The critical section of stkPush: stk[idx++] = num. */
    method PushSection(t: nat, ghost s: State, n: nat, num: int)
      requires Inv(s, n) && Shows(s) && t < |s.pc| && s.pc[t] == Push(num)
      modifies this`idx, stk
      ensures Shows(Next(s, Step(t)))
    {
      ClaimsAreBacked(s, n, t);
      stk[idx] := num;
      idx := idx + 1;
    }

    /** The critical section of stkPop: val = stk[--idx]. */
    method PopSection(t: nat, ghost s: State, n: nat) returns (val: int)
      requires Inv(s, n) && Shows(s) && t < |s.pc| && s.pc[t] == Pop
      modifies this`idx
      ensures Shows(Next(s, Step(t))) && Next(s, Step(t)).pc[t] == UnlockPop(val)
    {
      ClaimsAreBacked(s, n, t);
      idx := idx - 1;
      val := stk[idx];
    }
  }
}
