/** The three threads of Semaphores.c: A, B and C hand two tokens around through three
    semaphores and print A B C C for ever. C runs on single tokens, so it may already be
    printing between B's two posts. */
module Pipeline {

  datatype APc = WaitA | PrintA | PostA
  datatype BPc = WaitB | PrintB | PostB1 | PostB2
  datatype CPc = WaitC | CountC | PrintC | CheckC

  datatype State = State(s1: nat, s2: nat, s3: nat, a: APc, b: BPc, c: CPc, flag: nat, out: seq<char>)

  const START := State(1, 0, 0, WaitA, WaitB, WaitC, 0, [])

  datatype Thread = A | B | C

  predicate Enabled(s: State, t: Thread) {
    match t
    case A => s.a == WaitA ==> s.s1 > 0
    case B => s.b == WaitB ==> s.s2 > 0
    case C => s.c == WaitC ==> s.s3 > 0
  }

  function Next(s: State, t: Thread): State
    requires Enabled(s, t)
  {
    match t
    case A => (
      match s.a
      case WaitA => s.(s1 := s.s1 - 1, a := PrintA)
      case PrintA => s.(out := s.out + ['A'], a := PostA)
      case PostA => s.(s2 := s.s2 + 1, a := WaitA))
    case B => (
      match s.b
      case WaitB => s.(s2 := s.s2 - 1, b := PrintB)
      case PrintB => s.(out := s.out + ['B'], b := PostB1)
      case PostB1 => s.(s3 := s.s3 + 1, b := PostB2)
      case PostB2 => s.(s3 := s.s3 + 1, b := WaitB))
    case C => (
      match s.c
      case WaitC => s.(s3 := s.s3 - 1, c := CountC)
      case CountC => s.(flag := s.flag + 1, c := PrintC)
      case PrintC => s.(out := s.out + ['C'], c := CheckC)
      case CheckC => (if s.flag % 2 == 0 then s.(s1 := s.s1 + 1) else s).(c := WaitC))
  }

  // ----- the token invariant -----

  /** Half-rounds in C's hands: an odd flag stands for one that C keeps while it waits. */
  function HeldByC(s: State): nat {
    match s.c
    case WaitC => s.flag % 2
    case CountC => s.flag % 2 + 1
    case PrintC => if s.flag % 2 == 1 then 1 else 2
    case CheckC => if s.flag % 2 == 1 then 1 else 2
  }

  function HeldByA(s: State): nat {
    if s.a == WaitA then 0 else 2
  }

  function HeldByB(s: State): nat {
    match s.b
    case WaitB => 0
    case PrintB => 2
    case PostB1 => 2
    case PostB2 => 1
  }

  /** Exactly one round, two halves, is under way. */
  ghost predicate TokensConserved(s: State) {
    2 * s.s1 + HeldByA(s) + 2 * s.s2 + HeldByB(s) + s.s3 + HeldByC(s) == 2
  }

  /** How many letters of the round have been printed, told from everything but the output. */
  function Phase(s: State): nat {
    if s.s1 > 0 || s.a == PrintA then 0
    else if s.a == PostA || s.s2 > 0 || s.b == PrintB then 1
    else match s.c
      case WaitC => 2 + s.flag % 2
      case CountC => 2 + s.flag % 2
      case PrintC => if s.flag % 2 == 1 then 2 else 3
      case CheckC => if s.flag % 2 == 1 then 3 else 4
  }

  /** ABCC repeated. */
  ghost predicate IsABCC(out: seq<char>) {
    forall k :: 0 <= k < |out| ==> out[k] == "ABCC"[k % 4]
  }

  ghost predicate Inv(s: State) {
    TokensConserved(s) && |s.out| % 4 == Phase(s) % 4 && IsABCC(s.out)
  }

  lemma StepKeepsTokens(s: State, t: Thread)
    requires TokensConserved(s) && Enabled(s, t)
    ensures TokensConserved(Next(s, t))
  {
  }

  /** A letter comes when the phase says so, and moves the phase on. */
  lemma StepMovesPhase(s: State, t: Thread)
    requires TokensConserved(s) && Enabled(s, t)
    ensures var out, out' := s.out, Next(s, t).out;
      || (out' == out && Phase(Next(s, t)) % 4 == Phase(s) % 4)
      || (out' == out + ["ABCC"[Phase(s) % 4]] && Phase(Next(s, t)) % 4 == (Phase(s) + 1) % 4)
  {
  }

  lemma StepKeepsInv(s: State, t: Thread)
    requires Inv(s) && Enabled(s, t)
    ensures Inv(Next(s, t))
  {
    hide TokensConserved, Next, Phase;
    StepKeepsTokens(s, t);
    StepMovesPhase(s, t);
  }

  // ----- runs -----

  ghost predicate IsRun(s: State, ts: seq<Thread>)
    decreases |ts|
  {
    ts == [] || (Enabled(s, ts[0]) && IsRun(Next(s, ts[0]), ts[1..]))
  }

  ghost function After(s: State, ts: seq<Thread>): State
    requires IsRun(s, ts)
    decreases |ts|
  {
    if ts == [] then s else After(Next(s, ts[0]), ts[1..])
  }

  lemma {:induction false} RunKeepsInv(s: State, ts: seq<Thread>)
    requires Inv(s) && IsRun(s, ts)
    ensures Inv(After(s, ts))
    decreases |ts|
  {
    hide Inv;
    if ts != [] {
      StepKeepsInv(s, ts[0]);
      RunKeepsInv(Next(s, ts[0]), ts[1..]);
    }
  }

  /** In every run the printed sequence is a prefix of ABCC repeated for ever, and some
      thread can always step. */
  lemma EveryRunPrintsABCC(ts: seq<Thread>)
    requires IsRun(START, ts)
    ensures IsABCC(After(START, ts).out)
    ensures exists t :: Enabled(After(START, ts), t)
  {
    RunKeepsInv(START, ts);
    SomebodyCanStep(After(START, ts));
  }

  lemma SomebodyCanStep(s: State)
    requires Inv(s)
    ensures exists t :: Enabled(s, t)
  {
    if !Enabled(s, A) && !Enabled(s, B) {
      assert Enabled(s, C);
    }
  }

  // ----- growth -----

  /** Steps since a thread's last letter beyond four per letter. */
  function Slack(s: State): int {
    (match s.a case WaitA => 0 case PrintA => 1 case PostA => -2)
    + (match s.b case WaitB => 0 case PrintB => 1 case PostB1 => -2 case PostB2 => -1)
    + (match s.c case WaitC => 0 case CountC => 1 case PrintC => 2 case CheckC => -1)
  }

  lemma StepSpendsSlack(s: State, t: Thread)
    requires Enabled(s, t)
    ensures 4 * |s.out| + Slack(s) + 1 <= 4 * |Next(s, t).out| + Slack(Next(s, t))
  {
  }

  lemma {:induction false} RunSpendsSlack(s: State, ts: seq<Thread>)
    requires IsRun(s, ts)
    ensures 4 * |s.out| + Slack(s) + |ts| <= 4 * |After(s, ts).out| + Slack(After(s, ts))
    decreases |ts|
  {
    if ts != [] {
      StepSpendsSlack(s, ts[0]);
      RunSpendsSlack(Next(s, ts[0]), ts[1..]);
    }
  }

  /** Printing never stalls: a run of n steps, however scheduled, has printed at least
      n / 4 - 1 letters. */
  lemma OutputGrows(ts: seq<Thread>)
    requires IsRun(START, ts)
    ensures |ts| <= 4 * |After(START, ts).out| + 4
  {
    RunSpendsSlack(START, ts);
  }

  // ----- C between B's two posts -----

  lemma {:induction false} RunThenStep(s: State, ts: seq<Thread>, t: Thread)
    requires IsRun(s, ts) && Enabled(After(s, ts), t)
    ensures IsRun(s, ts + [t]) && After(s, ts + [t]) == Next(After(s, ts), t)
    decreases |ts|
  {
    hide Next, Enabled;
    if ts == [] {
      assert [t][1..] == [] && ts + [t] == [t];
    } else {
      assert (ts + [t])[1..] == ts[1..] + [t];
      RunThenStep(Next(s, ts[0]), ts[1..], t);
    }
  }

  lemma Then(s: State, ts: seq<Thread>, t: Thread, u: State) returns (us: seq<Thread>)
    requires IsRun(s, ts) && After(s, ts) == u && Enabled(u, t)
    ensures IsRun(s, us) && After(s, us) == Next(u, t)
  {
    RunThenStep(s, ts, t);
    us := ts + [t];
  }

  /** C does not wait for both of B's posts: there is a run in which it prints its first letter
      while B is about to make the second. */
  lemma CPrintsBetweenThePosts() returns (ts: seq<Thread>)
    ensures IsRun(START, ts)
    ensures After(START, ts) == State(0, 0, 0, WaitA, PostB2, CheckC, 1, ['A', 'B', 'C'])
  {
    hide IsRun, After;
    ts := [];
    assert IsRun(START, ts) && After(START, ts) == START by { Nothing(START); }
    ts := Then(START, ts, A, START);
    ts := Then(START, ts, A, State(0, 0, 0, PrintA, WaitB, WaitC, 0, []));
    ts := Then(START, ts, A, State(0, 0, 0, PostA, WaitB, WaitC, 0, ['A']));
    ts := Then(START, ts, B, State(0, 1, 0, WaitA, WaitB, WaitC, 0, ['A']));
    ts := Then(START, ts, B, State(0, 0, 0, WaitA, PrintB, WaitC, 0, ['A']));
    ts := Then(START, ts, B, State(0, 0, 0, WaitA, PostB1, WaitC, 0, ['A', 'B']));
    ts := Then(START, ts, C, State(0, 0, 1, WaitA, PostB2, WaitC, 0, ['A', 'B']));
    ts := Then(START, ts, C, State(0, 0, 0, WaitA, PostB2, CountC, 0, ['A', 'B']));
    ts := Then(START, ts, C, State(0, 0, 0, WaitA, PostB2, PrintC, 1, ['A', 'B']));
  }

  lemma Nothing(s: State)
    ensures IsRun(s, []) && After(s, []) == s
  {
  }
}
