/** Where the promises of the thread pool end: runs that show each condition of theirs to be
    needed. */
module ThreadPoolLimits {
  import opened Basics
  import opened Counting
  import opened JobQueue
  import opened ThreadPool
  import opened ThreadPoolInvariant
  import opened ThreadPoolSignals
  import opened ThreadPoolSafety
  import opened ThreadPoolProgress

  // ---------------------------------------------------------------- building runs

  lemma InitReachable(n: nat, m: nat)
    ensures Reachable(n, m, Init(n, m))
  {
    var run: seq<Action> := [];
    assert CanRun(Init(n, m), run) && After(Init(n, m), run) == Init(n, m);
  }

  /** The first k workers at one place and the others at another. */
  function Split(n: nat, k: nat, done: WorkerPc, ahead: WorkerPc): seq<WorkerPc> {
    seq(n, i => if i < k then done else ahead)
  }

  /** thpool_init has returned and every worker is about to test the flag. */
  function Started(n: nat, m: nat): Pool {
    Init(n, m).(ready := true, alive := n, workers := Split(n, n, LoopTest, LoopTest))
  }

  lemma StartedReachable(n: nat, m: nat)
    ensures Reachable(n, m, Started(n, m))
  {
    var s := Init(n, m);
    InitReachable(n, m);
    assert s.workers == Split(n, 0, LoopTest, Start);
    for k := 0 to n
      invariant s == Init(n, m).(alive := k, workers := Split(n, k, LoopTest, Start))
      invariant Reachable(n, m, s)
    {
      StepReachable(n, m, s, Worker(k, 0));
      s := Do(s, Worker(k, 0));
      assert s.workers == Split(n, k + 1, LoopTest, Start);
    }
    StepReachable(n, m, s, PoolReady);
    assert s.workers == Split(n, n, LoopTest, LoopTest);
  }

  /** One job has been submitted, and its push is complete. */
  function Queued(n: nat, m: nat, job: Job): Pool {
    var s := Started(n, m);
    s.(token := true, queue := [Node(0, job)], h := s.h.(pushed := [Node(0, job)]))
  }

  ghost predicate NobodySleeps(s: Pool) {
    forall i | 0 <= i < |s.workers| :: !s.workers[i].Asleep?
  }

  lemma PushBegins(n: nat, m: nat, s: Pool, job: Job)
    requires Reachable(n, m, s) && NobodySleeps(s) && s.ready && s.destroyer.NotDestroying? && s.rwFree == 1
    requires s.submitters != [] && s.submitters[0].Quiet?
    ensures Reachable(n, m, s.(rwFree := 0, submitters := s.submitters[0 := PushBody(job)]))
  {
    StepReachable(n, m, s, Submit(0, job));
    StepReachable(n, m, Do(s, Submit(0, job)), Submitter(0, 0));
  }

  lemma PushEnds(n: nat, m: nat, s: Pool)
    requires Reachable(n, m, s) && NobodySleeps(s) && s.submitters != [] && s.submitters[0].PushPost?
    ensures Reachable(n, m, s.(token := true, rwFree := s.rwFree + 1, submitters := s.submitters[0 := Quiet]))
  {
    StepReachable(n, m, s, Submitter(0, 0));
    StepReachable(n, m, Do(s, Submitter(0, 0)), Submitter(0, 0));
  }

  lemma QueuedReachable(n: nat, m: nat, job: Job)
    requires m >= 1
    ensures Reachable(n, m, Queued(n, m, job))
  {
    var s := Started(n, m);
    var node := Node(0, job);
    var s1 := s.(rwFree := 0, submitters := s.submitters[0 := PushBody(job)]);
    var s2 := s1.(queue := [node], submitters := s.submitters[0 := PushPost], h := s.h.(pushed := [node]));
    StartedReachable(n, m);
    PushBegins(n, m, s, job);
    StepReachable(n, m, s1, Submitter(0, 0));
    PushEnds(n, m, s2);
    assert s.submitters[0 := Quiet] == s.submitters;
  }

  // ---------------------------------------------------------------- no workers

  /** In a pool with no workers the job stays queued for ever. */
  lemma NobodyServes(m: nat, job: Job)
    requires m >= 1
    ensures Reachable(0, m, Queued(0, m, job)) && Settled(Queued(0, m, job))
  {
    QueuedReachable(0, m, job);
  }

  lemma NothingPushed(n: nat, s: Pool)
    requires Reachable(n, 0, s)
    ensures s.h.pushed == []
  {
    var run: seq<Action> :| CanRun(Init(n, 0), run) && After(Init(n, 0), run) == s;
    RunPushesNothing(Init(n, 0), run);
  }

  lemma {:induction false} RunPushesNothing(s: Pool, run: seq<Action>)
    requires CanRun(s, run) && s.submitters == [] && s.h.pushed == []
    ensures After(s, run).h.pushed == []
    decreases run
  {
    if run != [] {
      StepPushesNothing(s, run[0]);
      RunPushesNothing(Do(s, run[0]), run[1..]);
    }
  }

  lemma StepPushesNothing(s: Pool, a: Action)
    requires Enabled(s, a) && s.submitters == []
    ensures Effect(s, a).h.pushed == s.h.pushed && SubmittersAfter(s, a) == []
  {
    match a
    case Worker(i, _) => WorkerPulls(s, s.workers[i]);
    case Waiter =>
    case Destroyer(_) =>
    case _ =>
  }

  /** In a pool with these numbers of threads everything is done whenever no thread can move. */
  ghost predicate RestsDone(n: nat, m: nat) {
    forall s: Pool :: Reachable(n, m, s) && s.keepalive && Settled(s) ==> AllDone(s)
  }

  /** thpool_init accepts any number of workers, but the pool does its work only if there is at
      least one, or nothing to do. */
  lemma RestsDoneIff(n: nat, m: nat)
    ensures RestsDone(n, m) <==> n >= 1 || m == 0
  {
    if n >= 1 {
      forall s: Pool | Reachable(n, m, s) && s.keepalive && Settled(s)
        ensures AllDone(s)
      {
        SettledMeansDone(n, m, s);
      }
    } else if m == 0 {
      forall s: Pool | Reachable(0, 0, s) && s.keepalive && Settled(s)
        ensures AllDone(s)
      {
        NothingToDo(s);
      }
    } else {
      var job := Job(0, 0);
      NobodyServes(m, job);
      assert !AllDone(Queued(0, m, job));
    }
  }

  lemma NothingToDo(s: Pool)
    requires Reachable(0, 0, s) && s.keepalive && Settled(s)
    ensures AllDone(s)
  {
    ReachableInv(0, 0, s);
    NothingPushed(0, s);
    SettledThreads(s);
    SettledIdle(s);
    SettledWaiter(s);
  }

  // ---------------------------------------------------------------- jobs thrown away

  /** A thpool_wait call is under way beside the queued job. */
  function Waiting(n: nat, m: nat, job: Job, waiter: WaiterPc, seen: nat): Pool {
    var s := Queued(n, m, job);
    s.(waiter := waiter, h := s.h.(seenByWait := seen))
  }

  /** thpool_destroy has cleared the flag and k workers have gone. */
  function Stopped(n: nat, m: nat, job: Job, waiter: WaiterPc, seen: nat, k: nat): Pool {
    Waiting(n, m, job, waiter, seen).(keepalive := false, alive := n - k,
                                      workers := Split(n, k, Gone, LoopTest), destroyer := Polling)
  }

  /** thpool_destroy has thrown the job away. */
  function ThrownAway(n: nat, m: nat, job: Job, waiter: WaiterPc, seen: nat): Pool {
    var s := Stopped(n, m, job, waiter, seen, n);
    s.(queue := [], destroyer := Clearing,
       h := s.h.(taken := 1, cleared := 1, freed := multiset{Node(0, job)}))
  }

  lemma WorkerLeaves(n: nat, m: nat, s: Pool, k: nat)
    requires Reachable(n, m, s) && k < |s.workers| && s.workers[k].LoopTest?
    requires NobodySleeps(s) && !s.keepalive && s.thcountFree
    ensures Reachable(n, m, s.(alive := s.alive - 1, workers := s.workers[k := Gone]))
  {
    StepReachable(n, m, s, Worker(k, 0));
    StepReachable(n, m, Do(s, Worker(k, 0)), Worker(k, 0));
  }

  lemma StopReachable(n: nat, m: nat, job: Job, waiter: WaiterPc, seen: nat)
    requires Reachable(n, m, Waiting(n, m, job, waiter, seen))
    ensures Reachable(n, m, Stopped(n, m, job, waiter, seen, 0))
  {
    var s := Waiting(n, m, job, waiter, seen);
    StepReachable(n, m, s, Destroy);
    StepReachable(n, m, Do(s, Destroy), Destroyer(0));
    assert Split(n, n, LoopTest, LoopTest) == Split(n, 0, Gone, LoopTest);
  }

  lemma OneLeaves(n: nat, m: nat, job: Job, waiter: WaiterPc, seen: nat, k: nat)
    requires k < n && Reachable(n, m, Stopped(n, m, job, waiter, seen, k))
    ensures Reachable(n, m, Stopped(n, m, job, waiter, seen, k + 1))
  {
    var s := Stopped(n, m, job, waiter, seen, k);
    WorkerLeaves(n, m, s, k);
    assert s.workers[k := Gone] == Split(n, k + 1, Gone, LoopTest);
  }

  lemma AllLeave(n: nat, m: nat, job: Job, waiter: WaiterPc, seen: nat)
    requires Reachable(n, m, Stopped(n, m, job, waiter, seen, 0))
    ensures Reachable(n, m, Stopped(n, m, job, waiter, seen, n))
  {
    for k := 0 to n
      invariant Reachable(n, m, Stopped(n, m, job, waiter, seen, k))
    {
      OneLeaves(n, m, job, waiter, seen, k);
    }
  }

  lemma ThrownAwayReachable(n: nat, m: nat, job: Job, waiter: WaiterPc, seen: nat)
    requires Reachable(n, m, Waiting(n, m, job, waiter, seen))
    ensures Reachable(n, m, ThrownAway(n, m, job, waiter, seen))
  {
    StopReachable(n, m, job, waiter, seen);
    AllLeave(n, m, job, waiter, seen);
    var s := Stopped(n, m, job, waiter, seen, n);
    StepReachable(n, m, s, Destroyer(0));
    StepReachable(n, m, s.(destroyer := Clearing), Destroyer(0));
    assert multiset{} + multiset{Node(0, job)} == multiset{Node(0, job)};
  }

  lemma WaitCalled(n: nat, m: nat, job: Job)
    requires m >= 1
    ensures Reachable(n, m, Waiting(n, m, job, WaitLock, 0))
  {
    QueuedReachable(n, m, job);
    StepReachable(n, m, Queued(n, m, job), Wait);
  }

  lemma WaiterReturns(n: nat, m: nat, s: Pool)
    requires Reachable(n, m, s) && s.waiter.WaitLock? && s.thcountFree && s.queue == [] && s.working == 0
    ensures Reachable(n, m, s.(waiter := Returned, h := s.h.(seenByWait := |s.h.pushed|)))
  {
    StepReachable(n, m, s, Waiter);
    var s1 := Do(s, Waiter);
    StepReachable(n, m, s1, Waiter);
    var s2 := Do(s1, Waiter);
    StepReachable(n, m, s2, Waiter);
    StepReachable(n, m, Do(s2, Waiter), Waiter);
  }

  lemma WaiterFallsAsleep(n: nat, m: nat, s: Pool)
    requires Reachable(n, m, s) && s.waiter.WaitLock? && s.thcountFree && s.queue != []
    ensures Reachable(n, m, s.(waiter := WaitAsleep, h := s.h.(seenByWait := |s.h.pushed|)))
  {
    StepReachable(n, m, s, Waiter);
    var s1 := Do(s, Waiter);
    StepReachable(n, m, s1, Waiter);
    StepReachable(n, m, Do(s1, Waiter), Waiter);
  }

  /** With any number of workers: thpool_wait returns although the only job, pushed before the
      call, has not been run, because thpool_destroy threw it away during the call. */
  lemma BarrierBroken(n: nat, m: nat, job: Job) returns (s: Pool)
    requires m >= 1
    ensures Reachable(n, m, s) && s.waiter.Returned?
    ensures s.h.seenByWait == 1 && s.h.pushed == [Node(0, job)] && s.h.executed == multiset{}
  {
    WaitCalled(n, m, job);
    ThrownAwayReachable(n, m, job, WaitLock, 0);
    s := ThrownAway(n, m, job, WaitLock, 0);
    WaiterReturns(n, m, s);
    s := s.(waiter := Returned, h := s.h.(seenByWait := 1));
  }

  lemma DestroyEnds(n: nat, m: nat, s: Pool)
    requires Reachable(n, m, s) && NobodySleeps(s) && s.destroyer.Clearing? && s.queue == []
    ensures Reachable(n, m, s.(token := false, destroyer := Finished))
  {
    StepReachable(n, m, s, Destroyer(0));
    StepReachable(n, m, Do(s, Destroyer(0)), Destroyer(0));
  }

  /** Nothing is left that could wake the waiter. */
  ghost predicate Forgotten(s: Pool) {
    && s.ready && s.waiter.WaitAsleep? && s.destroyer.Finished?
    && (forall i | 0 <= i < |s.workers| :: s.workers[i].Gone?)
    && (forall j | 0 <= j < |s.submitters| :: s.submitters[j].Quiet?)
  }

  /** Only a spurious wakeup can. */
  lemma ForgottenStaysAsleep(s: Pool, a: Action)
    requires Forgotten(s) && Enabled(s, a)
    ensures a.SpuriousWaiterWake?
  {
  }

  lemma SleeperLeft(n: nat, m: nat, job: Job)
    requires m >= 1
    ensures Reachable(n, m, ThrownAway(n, m, job, WaitAsleep, 1))
  {
    WaitCalled(n, m, job);
    WaiterFallsAsleep(n, m, Waiting(n, m, job, WaitLock, 0));
    ThrownAwayReachable(n, m, job, WaitAsleep, 1);
  }

  /** With any number of workers: thpool_wait is left asleep with nobody to wake it, because
      thpool_destroy, which has returned, threw away the job it was waiting for and signalled
      nobody. */
  lemma WaiterForgotten(n: nat, m: nat, job: Job) returns (s: Pool)
    requires m >= 1
    ensures Reachable(n, m, s) && Forgotten(s)
  {
    SleeperLeft(n, m, job);
    s := ThrownAway(n, m, job, WaitAsleep, 1);
    DestroyEnds(n, m, s);
    s := s.(token := false, destroyer := Finished);
  }
}
