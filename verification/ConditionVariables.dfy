/** Miscs/condition_variables.c as a step system: two threads that count together, one of which
    sleeps while the count is between two thresholds.  The thresholds are tested under one
    mutex and the count changes under another, so it can change between the two comparisons
    and between the test and the sleep. */
module ConditionVariables {

  datatype Config = Config(halt1: int, halt2: int, done: int)

  /** The thresholds of the program. */
  const SOURCE: Config := Config(3, 6, 10)

  /** Thresholds under which func1 cannot be left asleep: the range is empty, or func2 must pass
      it by two before it can return, or the count cannot get into it while func1 is looking. */
  predicate Proper(c: Config) {
    c.halt1 > c.halt2 || c.halt2 + 1 < c.done || c.halt2 < 0 || c.halt1 > c.done
  }

  /** func1 never signals and func2 never sleeps; the rest of the loop is the same. */
  datatype Pc =
    | LockCond     // about to lock condition_mutex
    | TestLow      // holds it, compares count with COUNT_HALT1
    | TestHigh     // holds it, compares count with COUNT_HALT2
    | ToSleep      // holds it, about to call pthread_cond_wait
    | Asleep
    | Woken        // about to lock condition_mutex again
    | SignalCond   // holds it, about to signal
    | UnlockCond
    | LockCount    // about to lock count_mutex
    | Increment    // holds it
    | UnlockCount
    | TestDone     // compares count with COUNT_DONE, holding nothing
    | Ended

  datatype State = State(count: int, condFree: bool, countFree: bool, func1: Pc, func2: Pc)

  datatype Action = Func1 | Func2 | Spurious

  const INIT: State := State(0, true, true, LockCond, LockCond)

  predicate CanMove(s: State, pc: Pc) {
    match pc
    case LockCond | Woken => s.condFree
    case LockCount => s.countFree
    case Asleep | Ended => false
    case _ => true
  }

  predicate Enabled(s: State, a: Action) {
    match a
    case Func1 => CanMove(s, s.func1)
    case Func2 => CanMove(s, s.func2)
    case Spurious => s.func1.Asleep?
  }

  /** The effect of the steps that both threads share. */
  function Move(s: State, pc: Pc): State {
    match pc
    case LockCond | Woken => s.(condFree := false)
    case ToSleep | UnlockCond => s.(condFree := true)
    case LockCount => s.(countFree := false)
    case Increment => s.(count := s.count + 1)
    case UnlockCount => s.(countFree := true)
    case _ => s
  }

  function NextCommon(c: Config, s: State, pc: Pc): Pc {
    match pc
    case LockCond | Woken => TestLow
    case ToSleep => Asleep
    case UnlockCond => LockCount
    case LockCount => Increment
    case Increment => UnlockCount
    case UnlockCount => TestDone
    case TestDone => if s.count >= c.done then Ended else LockCond
    case _ => pc
  }

  /** func1 sleeps again as long as the count is in the range. */
  function NextFunc1(c: Config, s: State): Pc {
    match s.func1
    case TestLow => if s.count >= c.halt1 then TestHigh else UnlockCond
    case TestHigh => if s.count <= c.halt2 then ToSleep else UnlockCond
    case pc => NextCommon(c, s, pc)
  }

  /** func2 signals when the count is out of the range. */
  function NextFunc2(c: Config, s: State): Pc {
    match s.func2
    case TestLow => if s.count < c.halt1 then SignalCond else TestHigh
    case TestHigh => if s.count > c.halt2 then SignalCond else UnlockCond
    case SignalCond => UnlockCond
    case pc => NextCommon(c, s, pc)
  }

  function Do(c: Config, s: State, a: Action): State {
    match a
    case Func1 => Move(s, s.func1).(func1 := NextFunc1(c, s))
    case Func2 =>
      Move(s, s.func2).(func2 := NextFunc2(c, s),
                        func1 := if s.func2.SignalCond? && s.func1.Asleep? then Woken else s.func1)
    case Spurious => s.(func1 := Woken)
  }

  predicate CanRun(c: Config, s: State, run: seq<Action>)
    decreases run
  {
    run == [] || (Enabled(s, run[0]) && CanRun(c, Do(c, s, run[0]), run[1..]))
  }

  function After(c: Config, s: State, run: seq<Action>): State
    decreases run
  {
    if run == [] then s else After(c, Do(c, s, run[0]), run[1..])
  }

  // ---------------------------------------------------------------- the invariant

  predicate HoldsCond(pc: Pc) {
    pc.TestLow? || pc.TestHigh? || pc.ToSleep? || pc.SignalCond? || pc.UnlockCond?
  }
  predicate HoldsCount(pc: Pc) { pc.Increment? || pc.UnlockCount? }

  /** Will still increment before it looks at COUNT_DONE again. */
  function Pending(pc: Pc): int {
    if pc.UnlockCount? || pc.TestDone? || pc.Ended? then 0 else 1
  }

  predicate Mutexes(s: State) {
    && (s.condFree <==> !HoldsCond(s.func1) && !HoldsCond(s.func2))
    && !(HoldsCond(s.func1) && HoldsCond(s.func2))
    && (s.countFree <==> !HoldsCount(s.func1) && !HoldsCount(s.func2))
    && !(HoldsCount(s.func1) && HoldsCount(s.func2))
    && !s.func1.SignalCond?
    && !s.func2.ToSleep? && !s.func2.Asleep? && !s.func2.Woken?
  }

  /** The count overshoots by at most one, and only when both threads had looked before. */
  predicate CountBounded(c: Config, s: State) {
    && (s.count < c.done || s.count + Pending(s.func1) + Pending(s.func2) <= c.done + 1)
    && (s.func1.Ended? || s.func2.Ended? ==> s.count >= c.done)
  }

  /** func2 has made the count leave the range and has its signal test still before it. */
  predicate AheadOfTest(pc: Pc) { pc.UnlockCount? || pc.TestDone? || pc.LockCond? }

  predicate WillSignal(pc: Pc) {
    AheadOfTest(pc) || pc.TestLow? || pc.TestHigh? || pc.SignalCond?
  }

  /** While func1 sleeps, func2 gets at most one increment past the range without signalling. */
  predicate SleepJustified(c: Config, s: State) {
    && s.count >= 0
    && (s.func1.TestHigh? ==> s.count >= c.halt1)
    && (s.func1.ToSleep? || s.func1.Asleep? ==> c.halt1 <= c.halt2 && 0 <= c.halt2 && c.halt1 <= c.done)
    && (s.func1.ToSleep? ==>
          s.count <= c.halt2 || (s.count == c.halt2 + 1 && AheadOfTest(s.func2)))
    && (s.func1.Asleep? ==>
          s.count <= c.halt2 || (s.count == c.halt2 + 1 && WillSignal(s.func2)))
  }

  predicate Inv(c: Config, s: State) {
    Mutexes(s) && CountBounded(c, s) && SleepJustified(c, s)
  }

  const ROUND: int := 17

  function Work1(pc: Pc): int {
    match pc
    case Ended | Asleep | SignalCond => 0
    case Increment => 3
    case LockCount => 4
    case UnlockCond | ToSleep => 5
    case TestHigh => 6
    case TestLow => 7
    case LockCond | Woken => 8
    case TestDone => 9
    case UnlockCount => 10
  }

  function Work2(pc: Pc): int {
    match pc
    case Ended | Asleep | ToSleep | Woken => 0
    case Increment => 2
    case LockCount => 3
    case UnlockCond => 4
    case SignalCond => 13
    case TestHigh => 14
    case TestLow => 15
    case LockCond => 16
    case TestDone => 17
    case UnlockCount => 18
  }

  function Rank(c: Config, s: State): int {
    ROUND * (c.done + 1 - s.count) + Work1(s.func1) + Work2(s.func2)
  }

  lemma Func1Keeps(c: Config, s: State)
    requires Proper(c) && c.done >= 1 && Inv(c, s) && Enabled(s, Func1)
    ensures Inv(c, Do(c, s, Func1)) && Rank(c, Do(c, s, Func1)) < Rank(c, s)
  {
    match s.func1
    case TestDone =>
    case Increment =>
    case _ =>
  }

  lemma Func2Keeps(c: Config, s: State)
    requires Proper(c) && c.done >= 1 && Inv(c, s) && Enabled(s, Func2)
    ensures Inv(c, Do(c, s, Func2)) && Rank(c, Do(c, s, Func2)) < Rank(c, s)
  {
    match s.func2
    case TestDone =>
    case Increment =>
    case SignalCond =>
    case _ =>
  }

  function OwnSteps(run: seq<Action>): nat {
    if run == [] then 0 else (if run[0].Spurious? then 0 else 1) + OwnSteps(run[1..])
  }

  lemma {:induction false} RunKeeps(c: Config, s: State, run: seq<Action>)
    requires Proper(c) && c.done >= 1 && Inv(c, s) && CanRun(c, s, run)
    ensures Inv(c, After(c, s, run))
    ensures OwnSteps(run) <= Rank(c, s) - Rank(c, After(c, s, run)) + 8 * (|run| - OwnSteps(run))
    decreases run
  {
    if run != [] {
      match run[0] {
        case Func1 => Func1Keeps(c, s);
        case Func2 => Func2Keeps(c, s);
        case Spurious =>
      }
      RunKeeps(c, Do(c, s, run[0]), run[1..]);
    }
  }

  // ---------------------------------------------------------------- who waits, who signals

  predicate InRange(c: Config, count: int) { c.halt1 <= count <= c.halt2 }

  /** For all thresholds and in any state, so at any point of any run: func1 gets past its loop test
      only by a step that finds the count out of the range, and decides to sleep only by one that
      finds it not above; func2 decides to signal only when the count is out of the range, and not
      to only when it is not above. */
  lemma DecidesByCount(c: Config, s: State)
    ensures Enabled(s, Func1) && Do(c, s, Func1).func1.UnlockCond? ==> !InRange(c, s.count)
    ensures Enabled(s, Func1) && Do(c, s, Func1).func1.ToSleep? ==> s.count <= c.halt2
    ensures Enabled(s, Func2) && Do(c, s, Func2).func2.SignalCond? ==> !InRange(c, s.count)
    ensures Enabled(s, Func2) && !s.func2.SignalCond? && Do(c, s, Func2).func2.UnlockCond? ==> s.count <= c.halt2
  {
  }

  /** A sleeping func1 is woken by func2's signal, and by nothing else that is not spurious. */
  lemma OnlySignalWakes(c: Config, s: State, a: Action)
    requires s.func1.Asleep? && Enabled(s, a)
    ensures if a.Spurious? || s.func2.SignalCond? then Do(c, s, a).func1.Woken? else Do(c, s, a).func1.Asleep?
  {
  }

  lemma {:induction false} RunsJoin(c: Config, s: State, run: seq<Action>, more: seq<Action>)
    requires CanRun(c, s, run) && CanRun(c, After(c, s, run), more)
    ensures CanRun(c, s, run + more) && After(c, s, run + more) == After(c, After(c, s, run), more)
    decreases run
  {
    if run == [] {
      assert run + more == more;
    } else {
      RunsJoin(c, Do(c, s, run[0]), run[1..], more);
      assert (run + more)[1..] == run[1..] + more && (run + more)[0] == run[0];
    }
  }

  lemma RunExtends(c: Config, s: State, run: seq<Action>, a: Action)
    requires CanRun(c, s, run) && Enabled(After(c, s, run), a)
    ensures CanRun(c, s, run + [a]) && After(c, s, run + [a]) == Do(c, After(c, s, run), a)
  {
    assert [a][1..] == [];
    RunsJoin(c, s, run, [a]);
  }

  /** k steps of one thread while the other stands still. */
  function Alone(a: Action, k: nat): seq<Action> { seq(k, _ => a) }

  lemma AloneExtends(c: Config, s: State, a: Action, k: nat)
    requires CanRun(c, s, Alone(a, k)) && Enabled(After(c, s, Alone(a, k)), a)
    ensures CanRun(c, s, Alone(a, k + 1))
    ensures After(c, s, Alone(a, k + 1)) == Do(c, After(c, s, Alone(a, k)), a)
  {
    RunExtends(c, s, Alone(a, k), a);
    assert Alone(a, k + 1) == Alone(a, k) + [a];
  }

  /** When func2 stands still, func1, about to look at the count, comes to sleep if the count is in
      the range, and gets past the test if it is not; k says when. */
  lemma Func1Looks(c: Config, s: State) returns (k: nat)
    requires (s.func1.LockCond? || s.func1.Woken?) && s.condFree
    ensures CanRun(c, s, Alone(Func1, k))
    ensures After(c, s, Alone(Func1, k))
         == s.(func1 := if InRange(c, s.count) then Asleep else UnlockCond, condFree := InRange(c, s.count))
    ensures forall j: nat :: j < k ==>
      !After(c, s, Alone(Func1, j)).func1.Asleep? && !After(c, s, Alone(Func1, j)).func1.UnlockCond?
  {
    AloneExtends(c, s, Func1, 0);
    AloneExtends(c, s, Func1, 1);
    if s.count < c.halt1 {
      return 2;
    }
    AloneExtends(c, s, Func1, 2);
    if s.count > c.halt2 {
      return 3;
    }
    AloneExtends(c, s, Func1, 3);
    return 4;
  }

  /** When func1 stands still, func2, about to look at the count, comes to signal exactly if the
      count is out of the range. */
  lemma Func2Looks(c: Config, s: State) returns (k: nat)
    requires s.func2.LockCond? && s.condFree
    ensures CanRun(c, s, Alone(Func2, k))
    ensures After(c, s, Alone(Func2, k))
         == s.(func2 := if InRange(c, s.count) then UnlockCond else SignalCond, condFree := false)
    ensures forall j: nat :: j < k ==>
      !After(c, s, Alone(Func2, j)).func2.SignalCond? && !After(c, s, Alone(Func2, j)).func2.UnlockCond?
  {
    AloneExtends(c, s, Func2, 0);
    AloneExtends(c, s, Func2, 1);
    if s.count < c.halt1 {
      return 2;
    }
    AloneExtends(c, s, Func2, 2);
    return 3;
  }

  function Increments(c: Config, s: State, run: seq<Action>): nat
    decreases run
  {
    if run == [] then 0
    else (if (run[0].Func1? && s.func1.Increment?) || (run[0].Func2? && s.func2.Increment?) then 1 else 0)
         + Increments(c, Do(c, s, run[0]), run[1..])
  }

  /** No increment is lost, and none happens anywhere else. */
  lemma {:induction false} CountIsIncrements(c: Config, s: State, run: seq<Action>)
    requires CanRun(c, s, run)
    ensures After(c, s, run).count == s.count + Increments(c, s, run)
    decreases run
  {
    if run != [] {
      CountIsIncrements(c, Do(c, s, run[0]), run[1..]);
    }
  }

  /** When the other thread stands still, a thread past its test of the range adds one and returns
      exactly if the count has then reached COUNT_DONE. */
  lemma FinishesRound(c: Config, s: State, a: Action)
    requires !a.Spurious? && s.countFree
    requires if a.Func1? then s.func1.UnlockCond? else s.func2.UnlockCond?
    ensures CanRun(c, s, Alone(a, 5))
    ensures var pc := if s.count + 1 >= c.done then Ended else LockCond;
      var t := s.(count := s.count + 1, condFree := true);
      After(c, s, Alone(a, 5)) == if a.Func1? then t.(func1 := pc) else t.(func2 := pc)
  {
    AloneExtends(c, s, a, 0);
    AloneExtends(c, s, a, 1);
    AloneExtends(c, s, a, 2);
    AloneExtends(c, s, a, 3);
    AloneExtends(c, s, a, 4);
  }

  // ---------------------------------------------------------------- results

  /** No wakeup is lost: as long as func1 sleeps unsignalled the count is in the range or below,
      or one past it with func2 on its way to the signal. */
  lemma NoLostWakeup(c: Config, run: seq<Action>)
    requires Proper(c) && c.done >= 1 && CanRun(c, INIT, run)
    ensures var s := After(c, INIT, run);
      s.func1.Asleep? ==>
        s.count <= c.halt2 || (s.count == c.halt2 + 1 && WillSignal(s.func2))
  {
    RunKeeps(c, INIT, run);
  }

  /** No thread can make a step of its own. */
  predicate Stuck(s: State) { !Enabled(s, Func1) && !Enabled(s, Func2) }

  /** Total correctness for all proper thresholds and schedules: the threads make a bounded
      number of steps, they get stuck only by both returning, and then the count is COUNT_DONE
      or one more. */
  lemma BothReturn(c: Config, run: seq<Action>)
    requires Proper(c) && c.done >= 1 && CanRun(c, INIT, run)
    ensures OwnSteps(run) <= ROUND * c.done + 41 + 8 * (|run| - OwnSteps(run))
    ensures var s := After(c, INIT, run);
      Stuck(s) ==> s.func1.Ended? && s.func2.Ended? && c.done <= s.count <= c.done + 1
  {
    RunKeeps(c, INIT, run);
  }

  /** The program as it is. */
  lemma SourceReturns(run: seq<Action>)
    requires CanRun(SOURCE, INIT, run) && Stuck(After(SOURCE, INIT, run))
    ensures var s := After(SOURCE, INIT, run); s.func1.Ended? && s.func2.Ended? && 10 <= s.count <= 11
  {
    BothReturn(SOURCE, run);
  }

  // ---------------------------------------------------------------- thresholds that do not work

  /** func2 goes once round its loop while func1 stands still: with nobody to wake, or asleep
      with the count in the range. */
  lemma Func2GoesRound(c: Config, run: seq<Action>) returns (longer: seq<Action>)
    requires CanRun(c, INIT, run)
    requires var s := After(c, INIT, run);
      && s == State(s.count, true, true, s.func1, LockCond)
      && (s.func1.LockCond? || (s.func1.Asleep? && c.halt1 <= s.count <= c.halt2))
    ensures CanRun(c, INIT, longer)
    ensures var s := After(c, INIT, run);
      After(c, INIT, longer)
        == State(s.count + 1, true, true, s.func1, if s.count + 1 >= c.done then Ended else LockCond)
  {
    var k := Func2Looks(c, After(c, INIT, run));
    longer := run + Alone(Func2, k);
    RunsJoin(c, INIT, run, Alone(Func2, k));
    if After(c, INIT, longer).func2.SignalCond? {
      RunExtends(c, INIT, longer, Func2);
      longer := longer + [Func2];
    }
    FinishesRound(c, After(c, INIT, longer), Func2);
    RunsJoin(c, INIT, longer, Alone(Func2, 5));
    longer := longer + Alone(Func2, 5);
  }

  /** Otherwise there is a run that leaves func1 asleep for ever: func2 counts up into the range,
      func1 falls asleep, and func2 reaches COUNT_DONE before its next signal test. */
  lemma ImproperGetsStuck(c: Config) returns (run: seq<Action>)
    requires !Proper(c) && c.done >= 1
    ensures CanRun(c, INIT, run)
    ensures var s := After(c, INIT, run); Stuck(s) && s.func1.Asleep? && s.func2.Ended?
  {
    var low := if c.halt1 < 0 then 0 else c.halt1;
    run := [];
    for k := 0 to low
      invariant CanRun(c, INIT, run)
      invariant After(c, INIT, run) == State(k, true, true, LockCond, if k >= c.done then Ended else LockCond)
    {
      run := Func2GoesRound(c, run);
    }
    for i := 0 to 4
      invariant CanRun(c, INIT, run)
      invariant After(c, INIT, run) == State(low, i == 0 || i == 4, true,
        match i case 0 => LockCond case 1 => TestLow case 2 => TestHigh case 3 => ToSleep case _ => Asleep,
        if low >= c.done then Ended else LockCond)
    {
      RunExtends(c, INIT, run, Func1);
      run := run + [Func1];
    }
    for k := low to c.done
      invariant CanRun(c, INIT, run)
      invariant After(c, INIT, run) == State(k, true, true, Asleep, if k >= c.done then Ended else LockCond)
    {
      run := Func2GoesRound(c, run);
    }
  }

  /** If this is a run that gets stuck, it does so by both threads returning. */
  ghost predicate StopsByReturning(c: Config, run: seq<Action>) {
    CanRun(c, INIT, run) && Stuck(After(c, INIT, run)) ==>
      After(c, INIT, run).func1.Ended? && After(c, INIT, run).func2.Ended?
  }

  /** The threads are sure to return, for a positive COUNT_DONE, exactly under these thresholds. */
  lemma ReturnIffProper(c: Config)
    requires c.done >= 1
    ensures Proper(c) <==> forall run: seq<Action> :: StopsByReturning(c, run)
  {
    if Proper(c) {
      forall run: seq<Action>
        ensures StopsByReturning(c, run)
      {
        if CanRun(c, INIT, run) {
          BothReturn(c, run);
        }
      }
    } else {
      var run := ImproperGetsStuck(c);
      assert !StopsByReturning(c, run);
    }
  }
}
