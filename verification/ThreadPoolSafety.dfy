/** The thread pool's promises, in every state that any interleaving can reach. */
module ThreadPoolSafety {
  import opened Basics
  import opened Counting
  import opened JobQueue
  import opened ThreadPool
  import opened ThreadPoolInvariant
  import opened ThreadPoolSignals

  ghost predicate Inv(s: Pool) {
    && Locks(s) && Counters(s) && Phases(s) && Ledger(s)
    && JobBacked(s) && SleeperCalled(s) && WaitKept(s)
  }

  lemma InitInv(n: nat, m: nat)
    ensures Inv(Init(n, m))
  {
    var s := Init(n, m);
    SumConstant(s.workers, HoldsRw, 0);
    SumConstant(s.workers, Registered, 0);
    SumConstant(s.workers, InWork, 0);
    SumConstant(s.workers, Leaving, 0);
    SumConstant(s.workers, IsAsleep, 0);
    SumConstant(s.submitters, PushHoldsRw, 0);
    SumConstant(s.submitters, Busy, 0);
    GatherNothing(s.workers, ToRun);
    GatherNothing(s.workers, ToFree);
  }

  lemma StepKeepsSignals(s: Pool, a: Action)
    requires Inv(s) && Enabled(s, a)
    ensures JobBacked(Do(s, a)) && SleeperCalled(Do(s, a))
  {
    if a.Worker? {
      WorkerKeepsBacking(s, a);
      WorkerKeepsSleepers(s, a);
    } else {
      OthersKeepBacking(s, a);
      OthersKeepSleepers(s, a);
    }
  }

  lemma StepKeepsWait(s: Pool, a: Action)
    requires Inv(s) && Enabled(s, a)
    ensures WaitKept(Do(s, a))
  {
    if a.Worker? {
      WorkerKeepsWait(s, a);
    } else if a.Waiter? {
      WaiterStepKeepsWait(s);
    } else {
      OthersKeepWait(s, a);
    }
  }

  lemma StepKeepsInv(s: Pool, a: Action)
    requires Inv(s) && Enabled(s, a)
    ensures Inv(Do(s, a))
    ensures |Do(s, a).workers| == |s.workers| && |Do(s, a).submitters| == |s.submitters|
  {
    StepKeepsLocks(s, a);
    StepKeepsCounters(s, a);
    StepKeepsPhases(s, a);
    StepKeepsLedger(s, a);
    StepKeepsSignals(s, a);
    StepKeepsWait(s, a);
    StepSum(s, a, Registered);
    StepSubmitterSum(s, a, Busy);
  }

  lemma {:induction false} RunKeepsInv(s: Pool, run: seq<Action>)
    requires Inv(s) && CanRun(s, run)
    ensures Inv(After(s, run))
    ensures |After(s, run).workers| == |s.workers| && |After(s, run).submitters| == |s.submitters|
    decreases run
  {
    if run != [] {
      StepKeepsInv(s, run[0]);
      RunKeepsInv(Do(s, run[0]), run[1..]);
    }
  }

  lemma ReachableInv(n: nat, m: nat, s: Pool)
    requires Reachable(n, m, s)
    ensures Inv(s) && |s.workers| == n && |s.submitters| == m
  {
    var run: seq<Action> :| CanRun(Init(n, m), run) && After(Init(n, m), run) == s;
    InitInv(n, m);
    RunKeepsInv(Init(n, m), run);
  }

  // ---------------------------------------------------------------- the barrier

  lemma ClearingHandsEmpty(n: nat, m: nat, s: Pool)
    requires Reachable(n, m, s) && PastPolling(s.destroyer)
    ensures s.working == 0
    ensures Gather(s.workers, ToRun) == multiset{} && Gather(s.workers, ToFree) == multiset{}
  {
    ReachableInv(n, m, s);
    ClearRunsAlone(n, m, s);
    SumConstant(s.workers, InWork, 0);
    IdleHands(s.workers);
  }

  /** What thpool_wait promises on its return, that every job pushed before its last look at the
      queue has been run, although it reads the queue length without rw_mutex and the two numbers
      one after the other.  It keeps the promise unless thpool_destroy has thrown one of those
      jobs away, and always while thpool_destroy has not come to its clear. */
  lemma BarrierIsSound(n: nat, m: nat, s: Pool)
    requires Reachable(n, m, s) && s.waiter.Returned?
    ensures s.h.seenByWait <= |s.h.pushed|
    ensures multiset(s.h.pushed[..s.h.seenByWait]) <= s.h.executed
      <==> s.h.seenByWait <= s.h.taken - s.h.cleared
    ensures !PastPolling(s.destroyer) ==> multiset(s.h.pushed[..s.h.seenByWait]) <= s.h.executed
  {
    ReachableInv(n, m, s);
    var h := s.h;
    var toWorkers := h.taken - h.cleared;
    if toWorkers < h.seenByWait {
      var lost := h.pushed[toWorkers];
      OnRecordOnce(h, s.queue, Gather(s.workers, ToRun), Gather(s.workers, ToFree), lost);
      assert h.pushed[..h.seenByWait][toWorkers] == lost;
      assert lost in multiset(h.pushed[..h.seenByWait]) && h.executed[lost] == 0;
    } else if h.cleared > 0 {
      ClearingHandsEmpty(n, m, s);
      assert h.executed == h.executed + Gather(s.workers, ToRun);
      assert h.pushed[..toWorkers] == h.pushed[..h.seenByWait] + h.pushed[h.seenByWait..toWorkers];
    }
  }

  // ---------------------------------------------------------------- no lost wakeup

  /** A waiter that sleeps, or has decided to, has something to wait for, unless thpool_destroy
      has thrown the last queued job away. */
  lemma NoLostWakeup(n: nat, m: nat, s: Pool)
    requires Reachable(n, m, s) && (s.waiter.ToSleep? || s.waiter.WaitAsleep?)
    ensures s.queue == [] && s.working == 0 <==> s.queue == [] && s.h.cleared > 0
    ensures !PastPolling(s.destroyer) ==> s.queue != [] || s.working > 0
  {
    ReachableInv(n, m, s);
    SumNonNegative(s.workers, InWork);
    if s.h.cleared > 0 {
      ClearingHandsEmpty(n, m, s);
    }
  }

  /** The one step that leaves nothing to wait for is a worker's last one, which wakes the
      sleeping waiter, or else, once thpool_destroy clears the queue, its last pull, which does
      not. */
  lemma LastWorkerSignals(n: nat, m: nat, s: Pool, a: Action)
    requires Reachable(n, m, s) && Enabled(s, a) && s.waiter.WaitAsleep?
    requires s.queue != [] || s.working > 0
    requires Do(s, a).queue == [] && Do(s, a).working == 0
    ensures if s.destroyer.Clearing? then a.Destroyer? && |s.queue| == 1 && Do(s, a).waiter.WaitAsleep?
            else a.Worker? && s.workers[a.i].EndWork? && Do(s, a).waiter.WaitWoken?
  {
    ReachableInv(n, m, s);
    if a.Worker? {
      SumAtLeast(s.workers, a.i, InWork);
      WorkerDrains(s, s.workers[a.i]);
      if s.destroyer.Clearing? {
        NobodyAlive(s);
      }
    } else if a.Destroyer? {
      DestroyerDrains(s);
      if s.destroyer.Clearing? {
        ClearingHandsEmpty(n, m, s);
      }
    } else {
      OthersDrainNothing(s, a);
    }
  }

  lemma DestroyerDrains(s: Pool)
    requires DestroyerCan(s) && (s.destroyer.Resetting? ==> s.queue == [])
    ensures var t := DestroyerEffect(s);
      && t.waiter == s.waiter && t.working == s.working
      && (t.queue == [] ==> s.queue == [] || (s.destroyer.Clearing? && |s.queue| == 1))
  {
    match s.destroyer
    case Clearing =>
    case _ =>
  }

  lemma OthersDrainNothing(s: Pool, a: Action)
    requires Enabled(s, a) && !a.Worker? && !a.Destroyer?
    ensures var t := Effect(s, a); t.working == s.working && (t.queue == [] ==> s.queue == [])
  {
    match a
    case Submitter(_, _) =>
    case Waiter =>
    case _ =>
  }

  lemma WorkerDrains(s: Pool, pc: WorkerPc)
    requires WorkerCan(s, pc) && s.working >= InWork(pc) && s.waiter.WaitAsleep?
    requires s.queue != [] || s.working > 0
    ensures var t := WorkerEffect(s, pc);
      t.queue == [] && t.working == 0 ==> pc.EndWork? && t.waiter.WaitWoken?
  {
    match pc
    case PullBody =>
    case BeginWork =>
    case EndWork =>
    case _ =>
  }

  // ---------------------------------------------------------------- no stranded job

  /** While the pool runs, a queued job is backed by the token or by a thread that is about to
      deal with it, and a token that is there has somebody coming for it if anybody sleeps. */
  lemma TokenBacksJobs(n: nat, m: nat, s: Pool)
    requires Reachable(n, m, s)
    ensures JobBacked(s) && SleeperCalled(s)
  {
    ReachableInv(n, m, s);
  }

  /** While the pool runs, a queued job is never left behind with every worker asleep and no
      post under way, although one binary token stands for any number of jobs. */
  lemma NoStrandedJob(n: nat, m: nat, s: Pool)
    requires Reachable(n, m, s) && n >= 1 && s.keepalive && s.queue != []
    requires forall i | 0 <= i < |s.workers| :: s.workers[i].Asleep?
    ensures exists j :: 0 <= j < |s.submitters| && s.submitters[j].PushPost?
  {
    ReachableInv(n, m, s);
    SumConstant(s.workers, Claimed, 0);
    SumConstant(s.workers, Posting, 0);
    SumConstant(s.workers, IsWoken, 0);
    SumAtLeast(s.workers, 0, IsAsleep);
    var j := SumWitness(s.submitters, PushPosting);
  }

  // ---------------------------------------------------------------- no needless post

  /** A worker about to post holds rw_mutex, so that the jobs it saw are still there. */
  ghost predicate PostsBacked(s: Pool) { Sum(s.workers, Posting) > 0 ==> s.queue != [] }

  lemma HolderIsAlone(ws: seq<WorkerPc>, i: nat)
    requires i < |ws| && ws[i].PullBody? && Sum(ws, HoldsRw) <= 1
    ensures Sum(ws, Posting) <= 0
  {
    if Sum(ws, Posting) > 0 {
      var k := SumWitness(ws, Posting);
      SumUpdate(ws, i, Gone, HoldsRw);
      SumAtLeast(ws[i := Gone], k, HoldsRw);
    }
  }

  lemma WorkerKeepsPosts(s: Pool, a: Action)
    requires Locks(s) && PostsBacked(s) && Enabled(s, a) && a.Worker?
    ensures PostsBacked(Do(s, a))
  {
    var pc := s.workers[a.i];
    StepSum(s, a, Posting);
    SumNonNegative(s.submitters, PushHoldsRw);
    if pc.PullBody? {
      HolderIsAlone(s.workers, a.i);
      PullPostsIffJobsRemain(s, a);
    } else {
      WorkerPulls(s, pc);
    }
  }

  lemma OthersKeepPosts(s: Pool, a: Action)
    requires Inv(s) && PostsBacked(s) && Enabled(s, a) && !a.Worker?
    ensures PostsBacked(Do(s, a))
  {
    StepSum(s, a, Posting);
    if PastPolling(s.destroyer) {
      NobodyAlive(s);
      SumConstant(s.workers, Posting, 0);
    } else if a.Destroyer? {
      DestroyerDrains(s);
    } else {
      OthersDrainNothing(s, a);
    }
  }

  lemma {:induction false} RunKeepsPosts(s: Pool, run: seq<Action>)
    requires Inv(s) && PostsBacked(s) && CanRun(s, run)
    ensures PostsBacked(After(s, run))
    decreases run
  {
    if run != [] {
      StepKeepsInv(s, run[0]);
      if run[0].Worker? {
        WorkerKeepsPosts(s, run[0]);
      } else {
        OthersKeepPosts(s, run[0]);
      }
      RunKeepsPosts(Do(s, run[0]), run[1..]);
    }
  }

  /** A worker that is about to wake another finds the jobs still queued for which it does so. */
  lemma NoNeedlessPost(n: nat, m: nat, s: Pool, i: nat)
    requires Reachable(n, m, s) && i < |s.workers| && s.workers[i].PullPost?
    ensures s.queue != []
  {
    var run: seq<Action> :| CanRun(Init(n, m), run) && After(Init(n, m), run) == s;
    InitInv(n, m);
    SumConstant(Init(n, m).workers, Posting, 0);
    RunKeepsPosts(Init(n, m), run);
    SumAtLeast(s.workers, i, Posting);
  }

  // ---------------------------------------------------------------- first in, first out

  /** Nodes leave the queue in the order they entered it. */
  lemma ServedInOrder(n: nat, m: nat, s: Pool)
    requires Reachable(n, m, s)
    ensures s.h.taken <= |s.h.pushed| && s.h.pushed[..s.h.taken] + s.queue == s.h.pushed
  {
    ReachableInv(n, m, s);
  }

  // ---------------------------------------------------------------- shutdown

  lemma {:induction false} DistinctOnce(pushed: seq<Node>, k: nat, x: Node)
    requires k <= |pushed|
    requires forall i | 0 <= i < |pushed| :: pushed[i].id == i
    ensures multiset(pushed[..k])[x] == (if x.id < k && pushed[x.id] == x then 1 else 0)
  {
    if k > 0 {
      DistinctOnce(pushed, k - 1, x);
      assert pushed[..k] == pushed[..k - 1] + [pushed[k - 1]];
    }
  }

  lemma OnRecordOnce(h: History, queue: seq<Node>, r: multiset<Node>, f: multiset<Node>, x: Node)
    requires Books(h, queue, r, f)
    ensures h.executed[x] + r[x] == (if x.id < h.taken - h.cleared && h.pushed[x.id] == x then 1 else 0)
    ensures h.freed[x] + f[x] == (if x.id < h.taken && h.pushed[x.id] == x then 1 else 0)
  {
    DistinctOnce(h.pushed, h.taken - h.cleared, x);
    DistinctOnce(h.pushed, h.taken, x);
    assert (h.executed + r)[x] == multiset(h.pushed[..h.taken - h.cleared])[x];
    assert (h.freed + f)[x] == multiset(h.pushed[..h.taken])[x];
  }

  /** At any time no node has been run or freed twice, and only nodes handed to workers run. */
  lemma AtMostOnce(n: nat, m: nat, s: Pool, x: Node)
    requires Reachable(n, m, s)
    ensures s.h.executed[x] <= 1 && s.h.freed[x] <= 1
    ensures x in s.h.executed ==>
      x.id < s.h.taken - s.h.cleared && s.h.taken <= |s.h.pushed| && s.h.pushed[x.id] == x
  {
    ReachableInv(n, m, s);
    OnRecordOnce(s.h, s.queue, Gather(s.workers, ToRun), Gather(s.workers, ToFree), x);
  }

  /** jobqueue_clear runs alone: by then every worker has ended and no push is under way. */
  lemma ClearRunsAlone(n: nat, m: nat, s: Pool)
    requires Reachable(n, m, s) && PastPolling(s.destroyer)
    ensures |s.workers| == n && |s.submitters| == m
    ensures forall i | 0 <= i < |s.workers| :: s.workers[i].Gone?
    ensures forall j | 0 <= j < |s.submitters| :: s.submitters[j].Quiet?
    ensures s.rwFree == 1
  {
    ReachableInv(n, m, s);
    NobodyAlive(s);
    forall j | 0 <= j < |s.submitters|
      ensures s.submitters[j].Quiet?
    {
      SumAtLeast(s.submitters, j, Busy);
    }
    SumConstant(s.workers, HoldsRw, 0);
    SumConstant(s.submitters, PushHoldsRw, 0);
  }

  /** After thpool_destroy every node ever pushed has been freed exactly once; it was run exactly
      once if a worker got it and not at all if it was thrown away. */
  lemma ShutdownAccountsForAll(n: nat, m: nat, s: Pool, x: Node)
    requires Reachable(n, m, s) && s.destroyer.Finished?
    ensures s.queue == [] && !s.token && s.h.taken == |s.h.pushed|
    ensures s.h.freed[x] == (if x in s.h.pushed then 1 else 0)
    ensures s.h.executed[x] == (if x in s.h.pushed && x.id < |s.h.pushed| - s.h.cleared then 1 else 0)
  {
    ReachableInv(n, m, s);
    ClearingHandsEmpty(n, m, s);
    var h := s.h;
    OnRecordOnce(h, s.queue, Gather(s.workers, ToRun), Gather(s.workers, ToFree), x);
    assert x in h.pushed <==> x.id < |h.pushed| && h.pushed[x.id] == x by {
      if x in h.pushed {
        var k :| 0 <= k < |h.pushed| && h.pushed[k] == x;
        assert k == x.id;
      }
    }
  }
}
