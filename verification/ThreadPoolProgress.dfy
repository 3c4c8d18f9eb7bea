/** Progress of the thread pool: the steps its own threads can make without new calls and
    spurious wakeups are bounded, and when none is left everything submitted has been done. */
module ThreadPoolProgress {
  import opened Basics
  import opened Counting
  import opened JobQueue
  import opened ThreadPool
  import opened ThreadPoolInvariant
  import opened ThreadPoolSignals
  import opened ThreadPoolSafety

  /** Steps of workers, of submitters inside a call and of the waiter inside a call.  The others
      are new calls, spurious wakeups and the polling of thpool_init and thpool_destroy. */
  predicate Internal(a: Action) { a.Worker? || a.Submitter? || a.Waiter? }

  const TOKEN_WORK: int := 14
  const JOB_WORK: int := 16

  function Work(pc: WorkerPc): int {
    match pc
    case Asleep | Gone => 0
    case Woken | BsemWait | Deregister => 1
    case LoopTest => 2
    case Start => 3
    case EndWork => 7
    case FreeNode(_) => 8
    case Execute(_) => 9
    case PullUnlock(_) => 10
    case PullBody => 11
    case PullLock => 12
    case BeginWork => 13
    case Recheck => 14
    case PullPost(_) => 26
  }

  function SubmitterWork(pc: SubmitterPc): int {
    match pc
    case Quiet => 0
    case PushUnlock => 1
    case PushPost => 17
    case PushBody(_) => 34
    case PushLock(_) => 35
  }

  function WaiterWork(pc: WaiterPc): int {
    match pc
    case NotWaiting | WaitAsleep | Returned => 0
    case ToSleep | WaitUnlock => 1
    case ReadWorking => 2
    case ReadLen => 3
    case WaitLock | WaitWoken => 4
  }

  /** What the shared data lets the threads still do. */
  function SharedWork(s: Pool): int {
    JOB_WORK * |s.queue| + (if s.token then TOKEN_WORK else 0) + WaiterWork(s.waiter)
  }

  ghost function Rank(s: Pool): int {
    SharedWork(s) + Sum(s.workers, Work) + Sum(s.submitters, SubmitterWork)
  }

  lemma RankNonNegative(s: Pool)
    ensures Rank(s) >= 0
  {
    SumNonNegative(s.workers, Work);
    SumNonNegative(s.submitters, SubmitterWork);
  }

  lemma SignalWork(ws: seq<WorkerPc>, pick: nat)
    ensures Sum(ws, Work) <= Sum(Signal(ws, pick), Work) <= Sum(ws, Work) + 1
  {
    SignalSum(ws, pick, Work);
  }

  lemma {:induction false} BroadcastWork(ws: seq<WorkerPc>)
    ensures Sum(Broadcast(ws), Work) <= Sum(ws, Work) + |ws|
  {
    if ws != [] {
      assert Broadcast(ws)[1..] == Broadcast(ws[1..]);
      BroadcastWork(ws[1..]);
    }
  }

  lemma WorkerSpends(s: Pool, pc: WorkerPc)
    requires WorkerCan(s, pc)
    ensures SharedWork(WorkerEffect(s, pc)) + Work(NextPc(s, pc)) + (if pc.PullPost? then 1 else 0)
          < SharedWork(s) + Work(pc)
  {
    match pc
    case PullBody =>
    case PullPost(_) =>
    case PullUnlock(_) =>
    case EndWork =>
    case BsemWait =>
    case Woken =>
    case _ =>
  }

  lemma WorkerStepSpends(s: Pool, a: Action)
    requires Enabled(s, a) && a.Worker?
    ensures Rank(Do(s, a)) < Rank(s)
  {
    var pc := s.workers[a.i];
    WorkerSpends(s, pc);
    if pc.PullPost? {
      SignalWork(s.workers, a.pick);
      SumUpdate(Signal(s.workers, a.pick), a.i, NextPc(s, pc), Work);
    } else {
      SumUpdate(s.workers, a.i, NextPc(s, pc), Work);
    }
  }

  lemma SubmitterStepSpends(s: Pool, a: Action)
    requires Enabled(s, a) && a.Submitter?
    ensures Rank(Do(s, a)) < Rank(s)
  {
    var pc := s.submitters[a.j];
    StepSubmitterSum(s, a, SubmitterWork);
    SignalWork(s.workers, a.pick);
    SubmitterSpends(s, pc);
  }

  lemma SubmitterSpends(s: Pool, pc: SubmitterPc)
    requires SubmitterCan(s, pc)
    ensures SharedWork(SubmitterEffect(s, pc)) + SubmitterWork(NextSubmitterPc(pc))
              + (if pc.PushPost? then 1 else 0)
          < SharedWork(s) + SubmitterWork(pc)
  {
    match pc
    case PushBody(_) =>
    case PushPost =>
    case _ =>
  }

  lemma WaiterStepSpends(s: Pool)
    requires Enabled(s, Waiter)
    ensures Rank(Do(s, Waiter)) < Rank(s)
  {
  }

  /** What a call, a spurious wakeup or a polling step can add. */
  function Cost(a: Action, workers: nat): nat {
    match a
    case Submit(_, _) => 35
    case Wait | SpuriousWaiterWake => 4
    case SpuriousWake(_) => 1
    case Destroyer(_) => TOKEN_WORK + workers + 1
    case _ => 0
  }

  lemma DestroyerSharedCost(s: Pool)
    requires DestroyerCan(s)
    ensures SharedWork(DestroyerEffect(s)) <= SharedWork(s) + TOKEN_WORK
  {
    match s.destroyer
    case Clearing =>
    case Broadcasting =>
    case _ =>
  }

  lemma DestroyerCosts(s: Pool, a: Action)
    requires Enabled(s, a) && a.Destroyer?
    ensures Rank(Do(s, a)) <= Rank(s) + Cost(a, |s.workers|)
  {
    SignalWork(s.workers, a.pick);
    BroadcastWork(s.workers);
    DestroyerSharedCost(s);
  }

  lemma CallCosts(s: Pool, a: Action)
    requires Enabled(s, a) && !Internal(a) && !a.Destroyer?
    ensures Rank(Do(s, a)) <= Rank(s) + Cost(a, |s.workers|)
  {
    StepSubmitterSum(s, a, SubmitterWork);
    if a.SpuriousWake? {
      SignalWork(s.workers, a.i);
    }
  }

  lemma StepSpends(s: Pool, a: Action)
    requires Enabled(s, a)
    ensures Rank(Do(s, a)) <= Rank(s) + (if Internal(a) then -1 else Cost(a, |s.workers|))
  {
    match a
    case Worker(_, _) => WorkerStepSpends(s, a);
    case Submitter(_, _) => SubmitterStepSpends(s, a);
    case Waiter => WaiterStepSpends(s);
    case Destroyer(_) => DestroyerCosts(s, a);
    case _ => CallCosts(s, a);
  }

  function InternalSteps(run: seq<Action>): nat {
    if run == [] then 0 else (if Internal(run[0]) then 1 else 0) + InternalSteps(run[1..])
  }

  function TotalCost(run: seq<Action>, workers: nat): nat {
    if run == [] then 0
    else (if Internal(run[0]) then 0 else Cost(run[0], workers)) + TotalCost(run[1..], workers)
  }

  lemma {:induction false} RunSpends(s: Pool, run: seq<Action>)
    requires CanRun(s, run)
    ensures InternalSteps(run) <= Rank(s) - Rank(After(s, run)) + TotalCost(run, |s.workers|)
    decreases run
  {
    if run != [] {
      StepSpends(s, run[0]);
      StepSum(s, run[0], Registered);
      RunSpends(Do(s, run[0]), run[1..]);
    }
  }

  /** However the threads are scheduled, the pool makes at most a bounded number of steps for
      each worker, each submission, each wait, each polling step and each spurious wakeup. */
  lemma EveryRunIsBounded(n: nat, m: nat, run: seq<Action>)
    requires CanRun(Init(n, m), run)
    ensures InternalSteps(run) <= 3 * n + TotalCost(run, n)
  {
    var s := Init(n, m);
    SumConstant(s.workers, Work, 3);
    SumConstant(s.submitters, SubmitterWork, 0);
    RunSpends(s, run);
    RankNonNegative(After(s, run));
  }

  // ---------------------------------------------------------------- where the steps end

  ghost predicate Settled(s: Pool) {
    forall a: Action :: Enabled(s, a) ==> !Internal(a)
  }

  lemma SomePick(ws: seq<WorkerPc>) returns (pick: nat)
    ensures PickOk(ws, pick)
  {
    if i :| 0 <= i < |ws| && ws[i].Asleep? {
      pick := i;
    } else {
      pick := 0;
    }
  }

  lemma SettledWaiter(s: Pool)
    requires Locks(s) && Settled(s)
    ensures s.thcountFree
    ensures s.waiter.NotWaiting? || s.waiter.WaitAsleep? || s.waiter.Returned?
  {
    assert !Enabled(s, Waiter);
  }

  lemma SettledRw(s: Pool)
    requires Locks(s) && Settled(s)
    ensures s.rwFree == 1
  {
    var pick := SomePick(s.workers);
    SumNonNegative(s.workers, HoldsRw);
    SumNonNegative(s.submitters, PushHoldsRw);
    if Sum(s.workers, HoldsRw) > 0 {
      var i := SumWitness(s.workers, HoldsRw);
      assert Enabled(s, Worker(i, pick));
    } else if Sum(s.submitters, PushHoldsRw) > 0 {
      var j := SumWitness(s.submitters, PushHoldsRw);
      assert Enabled(s, Submitter(j, pick));
    }
  }

  lemma SettledThreads(s: Pool)
    requires Locks(s) && Settled(s)
    ensures forall i | 0 <= i < |s.workers| :: s.workers[i].Asleep? || s.workers[i].Gone?
    ensures forall j | 0 <= j < |s.submitters| :: s.submitters[j].Quiet?
  {
    SettledWaiter(s);
    SettledRw(s);
    var pick := SomePick(s.workers);
    forall i | 0 <= i < |s.workers|
      ensures s.workers[i].Asleep? || s.workers[i].Gone?
    {
      assert !Enabled(s, Worker(i, pick));
    }
    forall j | 0 <= j < |s.submitters|
      ensures s.submitters[j].Quiet?
    {
      assert !Enabled(s, Submitter(j, pick));
    }
  }

  lemma SettledIdle(s: Pool)
    requires Inv(s) && Settled(s)
    ensures s.working == 0
    ensures s.h.cleared == 0 ==> s.h.executed == multiset(s.h.pushed[..s.h.taken])
    ensures s.h.freed == multiset(s.h.pushed[..s.h.taken])
  {
    SettledThreads(s);
    SumConstant(s.workers, InWork, 0);
    IdleHands(s.workers);
    assert s.h.executed + Gather(s.workers, ToRun) == s.h.executed;
    assert s.h.freed + Gather(s.workers, ToFree) == s.h.freed;
  }

  /** The queue is empty, every job ever pushed has been run once and its node freed once, all
      workers sleep, and no call of thpool_add_work or thpool_wait is still in progress. */
  ghost predicate AllDone(s: Pool) {
    && s.queue == [] && s.working == 0
    && s.h.executed == multiset(s.h.pushed) && s.h.freed == multiset(s.h.pushed)
    && (forall i | 0 <= i < |s.workers| :: s.workers[i].Asleep?)
    && (forall j | 0 <= j < |s.submitters| :: s.submitters[j].Quiet?)
    && (s.waiter.NotWaiting? || s.waiter.Returned?)
  }

  /** In a running pool with a worker everything is done once no thread of the pool can move. */
  lemma SettledMeansDone(n: nat, m: nat, s: Pool)
    requires Reachable(n, m, s) && n >= 1 && s.keepalive && Settled(s)
    ensures AllDone(s)
  {
    ReachableInv(n, m, s);
    SettledThreads(s);
    SettledIdle(s);
    SettledWaiter(s);
    forall i | 0 <= i < |s.workers|
      ensures s.workers[i].Asleep?
    {
      SumAtLeast(s.workers, i, Leaving);
    }
    SettledQueueEmpty(s);
    assert s.h.pushed[..s.h.taken] == s.h.pushed;
  }

  lemma SettledQueueEmpty(s: Pool)
    requires Inv(s) && s.keepalive && s.workers != []
    requires forall i | 0 <= i < |s.workers| :: s.workers[i].Asleep?
    requires forall j | 0 <= j < |s.submitters| :: s.submitters[j].Quiet?
    ensures s.queue == []
  {
    SumConstant(s.workers, Claimed, 0);
    SumConstant(s.workers, Posting, 0);
    SumConstant(s.workers, IsWoken, 0);
    SumConstant(s.submitters, PushPosting, 0);
    SumAtLeast(s.workers, 0, IsAsleep);
  }

  /** thpool_destroy never gets stuck: it can always make its next step. */
  lemma DestroyNeverStuck(n: nat, m: nat, s: Pool) returns (pick: nat)
    requires Reachable(n, m, s) && !s.destroyer.NotDestroying? && !s.destroyer.Finished?
    ensures Enabled(s, Destroyer(pick))
  {
    ReachableInv(n, m, s);
    pick := SomePick(s.workers);
    if PastPolling(s.destroyer) {
      ClearRunsAlone(n, m, s);
    }
  }

  /** Where a worker goes from its return from bsem_wait when the flag is cleared. */
  predicate AfterLateReturn(pc: WorkerPc) {
    pc.Recheck? || pc.LoopTest? || pc.Deregister? || pc.Gone?
  }

  /** What holds from a broadcast on: those gone stay gone, and either the token is still there
      or one of the others is on its way out. */
  ghost predicate RoundKept(before: seq<WorkerPc>, s: Pool) {
    && |s.workers| == |before| && !s.keepalive
    && (forall i | 0 <= i < |before| && before[i].Gone? :: s.workers[i].Gone?)
    && (s.token || PastPolling(s.destroyer)
        || exists i :: 0 <= i < |before| && !before[i].Gone? && AfterLateReturn(s.workers[i]))
  }

  lemma WorkerTakesToken(s: Pool, pc: WorkerPc)
    requires WorkerCan(s, pc) && !s.keepalive
    ensures var t := WorkerEffect(s, pc);
      && !t.keepalive && t.destroyer == s.destroyer
      && (s.token && !t.token ==> NextPc(s, pc).Recheck?)
      && (AfterLateReturn(pc) ==> AfterLateReturn(NextPc(s, pc)))
  {
    match pc
    case BsemWait =>
    case Woken =>
    case _ =>
  }

  lemma WorkerKeepsGone(before: seq<WorkerPc>, s: Pool, a: Action)
    requires Enabled(s, a) && a.Worker? && |s.workers| == |before|
    requires forall i | 0 <= i < |before| && before[i].Gone? :: s.workers[i].Gone?
    ensures |WorkersAfter(s, a)| == |before|
    ensures forall i | 0 <= i < |before| && before[i].Gone? :: WorkersAfter(s, a)[i].Gone?
  {
  }

  lemma WorkerKeepsRound(before: seq<WorkerPc>, s: Pool, a: Action)
    requires RoundKept(before, s) && Enabled(s, a) && a.Worker?
    ensures RoundKept(before, Do(s, a))
  {
    var pc := s.workers[a.i];
    var t := WorkerEffect(s, pc);
    WorkerTakesToken(s, pc);
    WorkerKeepsGone(before, s, a);
    if s.token && !t.token {
      assert !before[a.i].Gone? && AfterLateReturn(Do(s, a).workers[a.i]);
    } else if !s.token && !PastPolling(s.destroyer) {
      var i :| 0 <= i < |before| && !before[i].Gone? && AfterLateReturn(s.workers[i]);
      assert AfterLateReturn(Do(s, a).workers[i]);
    }
  }

  lemma OthersKeepToken(s: Pool, a: Action)
    requires Enabled(s, a) && !a.Worker?
    ensures var t := Effect(s, a);
      && (s.token ==> t.token || PastPolling(t.destroyer))
      && (PastPolling(s.destroyer) ==> PastPolling(t.destroyer))
  {
    match a
    case Submitter(_, _) =>
    case Waiter =>
    case Destroyer(_) =>
    case _ =>
  }

  lemma OthersKeepRound(before: seq<WorkerPc>, s: Pool, a: Action)
    requires Shutdown(s) && RoundKept(before, s) && Enabled(s, a) && !a.Worker?
    ensures RoundKept(before, Do(s, a))
  {
    OthersLeaveFlag(s, a);
    OthersKeepToken(s, a);
    StepSum(s, a, Registered);
    forall i | 0 <= i < |before| && before[i].Gone?
      ensures Do(s, a).workers[i].Gone?
    {
      OthersOnlyWake(s, a, i);
    }
  }

  lemma StepKeepsRound(before: seq<WorkerPc>, s: Pool, a: Action)
    requires Inv(s) && RoundKept(before, s) && Enabled(s, a)
    ensures RoundKept(before, Do(s, a))
  {
    if a.Worker? {
      WorkerKeepsRound(before, s, a);
    } else {
      OthersKeepRound(before, s, a);
    }
  }

  lemma {:induction false} RunKeepsRound(before: seq<WorkerPc>, s: Pool, run: seq<Action>)
    requires Inv(s) && RoundKept(before, s) && CanRun(s, run)
    ensures RoundKept(before, After(s, run)) && Inv(After(s, run))
    decreases run
  {
    if run != [] {
      StepKeepsInv(s, run[0]);
      StepKeepsRound(before, s, run[0]);
      RunKeepsRound(before, Do(s, run[0]), run[1..]);
    }
  }

  lemma BroadcastState(s: Pool, pick: nat)
    requires Enabled(s, Destroyer(pick)) && s.destroyer.Broadcasting?
    ensures Do(s, Destroyer(pick)) == s.(token := true, destroyer := Polling, workers := Broadcast(s.workers))
  {
  }

  lemma RoundStarts(s: Pool, pick: nat)
    requires Inv(s) && s.destroyer.Broadcasting? && Enabled(s, Destroyer(pick))
    ensures s.ready && RoundKept(s.workers, Do(s, Destroyer(pick)))
  {
    BroadcastState(s, pick);
  }

  /** When all workers have come to rest after a broadcast, one of them has gone. */
  lemma RoundEnds(s: Pool, t: Pool)
    requires Inv(s) && s.ready && s.alive > 0
    requires Inv(t) && Settled(t) && RoundKept(s.workers, t)
    ensures t.alive < s.alive
  {
    SettledThreads(t);
    if !PastPolling(t.destroyer) {
      var i: nat;
      if t.token {
        SumConstant(t.workers, IsWoken, 0);
        i := SumWitness(s.workers, Registered);
        SumAtLeast(t.workers, i, IsAsleep);
      } else {
        i :| i < |s.workers| && !s.workers[i].Gone? && AfterLateReturn(t.workers[i]);
      }
      forall k | 0 <= k < |s.workers|
        ensures !s.workers[k].Start?
      {
        SumAtLeast(s.workers, k, Unregistered);
      }
      SumDrops(s.workers, t.workers, i, Registered);
    }
  }

  lemma BroadcastRetires(s: Pool, pick: nat, run: seq<Action>)
    requires Inv(s) && s.alive > 0
    requires s.destroyer.Broadcasting? && Enabled(s, Destroyer(pick))
    requires CanRun(Do(s, Destroyer(pick)), run) && Settled(After(Do(s, Destroyer(pick)), run))
    ensures After(Do(s, Destroyer(pick)), run).alive < s.alive
  {
    StepKeepsInv(s, Destroyer(pick));
    RoundStarts(s, pick);
    RunKeepsRound(s.workers, Do(s, Destroyer(pick)), run);
    RoundEnds(s, After(Do(s, Destroyer(pick)), run));
  }

  /** Every broadcast of thpool_destroy, whatever the workers are doing at that moment, has
      retired at least one of them by the next time none of them can move. */
  lemma EveryRoundRetiresAWorker(n: nat, m: nat, s: Pool, pick: nat, run: seq<Action>)
    requires Reachable(n, m, s) && s.alive > 0
    requires s.destroyer.Broadcasting? && Enabled(s, Destroyer(pick))
    requires CanRun(Do(s, Destroyer(pick)), run) && Settled(After(Do(s, Destroyer(pick)), run))
    ensures After(Do(s, Destroyer(pick)), run).alive < s.alive <= n
  {
    ReachableInv(n, m, s);
    BroadcastRetires(s, pick, run);
    SumAtMostLength(s.workers, Registered);
  }
}
