/** The wake token, the waiter's condition variable and the shutdown flag: the groups of facts
    about who is told what, and when. */
module ThreadPoolSignals {
  import opened Basics
  import opened Counting
  import opened JobQueue
  import opened ThreadPool
  import opened ThreadPoolInvariant

  // ---------------------------------------------------------------- the wake token

  /** While the pool runs, a queued job is backed by the token, or by a worker that has taken the
      token and not pulled yet, or by a push or pull about to post it. */
  ghost predicate JobBacked(s: Pool) {
    s.keepalive && s.queue != [] ==>
      || s.token
      || Sum(s.workers, Claimed) > 0
      || Sum(s.workers, Posting) > 0
      || Sum(s.submitters, PushPosting) > 0
  }

  lemma WorkerBacks(s: Pool, pc: WorkerPc)
    requires WorkerCan(s, pc) && s.keepalive
    ensures var t := WorkerEffect(s, pc);
      t.queue != [] ==>
        || t.token || Claimed(NextPc(s, pc)) == 1 || Posting(NextPc(s, pc)) == 1
        || (s.queue != [] && !s.token && Claimed(pc) == 0 && Posting(pc) == 0)
  {
    match pc
    case PullBody =>
    case PullPost(_) =>
    case BsemWait =>
    case Woken =>
    case _ =>
  }

  lemma OthersLeaveBacking(s: Pool, a: Action)
    requires Enabled(s, a) && !a.Worker? && !(a.Submitter? && s.submitters[a.j].PushBody?)
    requires Shutdown(s)
    ensures var t := Effect(s, a);
      t.keepalive && t.queue != [] ==> s.keepalive && s.queue != [] && (s.token ==> t.token)
  {
    match a
    case Submitter(_, _) =>
    case Waiter =>
    case Destroyer(_) =>
    case _ =>
  }

  lemma WorkerKeepsBacking(s: Pool, a: Action)
    requires JobBacked(s) && Enabled(s, a) && a.Worker?
    ensures JobBacked(Do(s, a))
  {
    var pc := s.workers[a.i];
    WorkerPhaseFlow(s, pc);
    if s.keepalive {
      WorkerBacks(s, pc);
      StepSum(s, a, Claimed);
      StepSum(s, a, Posting);
      SumAtLeast(s.workers, a.i, Claimed);
      SumAtLeast(s.workers, a.i, Posting);
    }
  }

  lemma PushPosts(s: Pool, pc: SubmitterPc)
    requires SubmitterCan(s, pc)
    ensures pc.PushPost? ==> SubmitterEffect(s, pc).token
  {
  }

  lemma OthersKeepBacking(s: Pool, a: Action)
    requires Shutdown(s) && JobBacked(s) && Enabled(s, a) && !a.Worker?
    ensures JobBacked(Do(s, a))
  {
    StepSum(s, a, Claimed);
    StepSum(s, a, Posting);
    StepSubmitterSum(s, a, PushPosting);
    if a.Submitter? {
      PushPosts(s, s.submitters[a.j]);
      SumAtLeast(s.submitters, a.j, PushPosting);
    }
    if !(a.Submitter? && s.submitters[a.j].PushBody?) {
      OthersLeaveBacking(s, a);
    }
  }

  /** With the token there and somebody asleep, somebody is already on the way to it. */
  ghost predicate SleeperCalled(s: Pool) {
    s.token && Sum(s.workers, IsAsleep) > 0 ==> Sum(s.workers, IsWoken) > 0
  }

  /** After a post, if anybody is still asleep then somebody is awake on its account. */
  lemma SignalCalls(ws: seq<WorkerPc>, pick: nat)
    requires PickOk(ws, pick)
    ensures Sum(Signal(ws, pick), IsAsleep) > 0 ==> Sum(Signal(ws, pick), IsWoken) > 0
  {
    if Sleeps(ws, pick) {
      SumAtLeast(Signal(ws, pick), pick, IsWoken);
    } else {
      SumConstant(ws, IsAsleep, 0);
    }
  }

  lemma BroadcastWakesAll(ws: seq<WorkerPc>)
    ensures Sum(Broadcast(ws), IsAsleep) == 0
    ensures Sum(Broadcast(ws), IsWoken) == Sum(ws, IsWoken) + Sum(ws, IsAsleep)
  {
    SumConstant(Broadcast(ws), IsAsleep, 0);
    BroadcastWoken(ws);
  }

  lemma {:induction false} BroadcastWoken(ws: seq<WorkerPc>)
    ensures Sum(Broadcast(ws), IsWoken) == Sum(ws, IsWoken) + Sum(ws, IsAsleep)
  {
    if ws != [] {
      assert Broadcast(ws)[1..] == Broadcast(ws[1..]);
      BroadcastWoken(ws[1..]);
    }
  }

  lemma WorkerToken(s: Pool, pc: WorkerPc)
    requires WorkerCan(s, pc)
    ensures var t := WorkerEffect(s, pc);
      && (pc.PullPost? ==> t.token && NextPc(s, pc).PullUnlock?)
      && (pc.BsemWait? || pc.Woken? ==> !t.token)
      && (!pc.PullPost? && !pc.BsemWait? && !pc.Woken? ==>
            t.token == s.token && !NextPc(s, pc).Asleep? && !NextPc(s, pc).Woken?)
  {
    match pc
    case PullPost(_) =>
    case PullBody =>
    case PullUnlock(_) =>
    case BsemWait =>
    case Woken =>
    case _ =>
  }

  lemma WorkerKeepsSleepers(s: Pool, a: Action)
    requires SleeperCalled(s) && Enabled(s, a) && a.Worker?
    ensures SleeperCalled(Do(s, a))
  {
    var pc := s.workers[a.i];
    WorkerToken(s, pc);
    if pc.PullPost? {
      SignalCalls(s.workers, a.pick);
      var ws := Signal(s.workers, a.pick);
      SumUpdate(ws, a.i, NextPc(s, pc), IsAsleep);
      SumUpdate(ws, a.i, NextPc(s, pc), IsWoken);
    } else {
      SumUpdate(s.workers, a.i, NextPc(s, pc), IsAsleep);
      SumUpdate(s.workers, a.i, NextPc(s, pc), IsWoken);
    }
  }

  /** A step of anybody else either leaves token and sleepers alone, or takes the token away, or
      wakes somebody. */
  lemma OthersToken(s: Pool, a: Action)
    requires Enabled(s, a) && !a.Worker?
    ensures var t := Effect(s, a); var ws := WorkersAfter(s, a);
      || !t.token
      || (t.token == s.token && ws == s.workers)
      || ((a.Submitter? || a.Destroyer?) && ws == Signal(s.workers, a.pick))
      || (a.SpuriousWake? && t.token == s.token && ws == Signal(s.workers, a.i))
      || ws == Broadcast(s.workers)
  {
    match a
    case Submitter(_, _) =>
    case Waiter =>
    case Destroyer(_) =>
    case _ =>
  }

  lemma OthersKeepSleepers(s: Pool, a: Action)
    requires SleeperCalled(s) && Enabled(s, a) && !a.Worker?
    ensures SleeperCalled(Do(s, a))
  {
    OthersToken(s, a);
    if a.Submitter? || a.Destroyer? {
      SignalCalls(s.workers, a.pick);
    }
    if a.SpuriousWake? {
      SignalCalls(s.workers, a.i);
    }
    BroadcastWakesAll(s.workers);
  }

  // ---------------------------------------------------------------- thpool_wait

  /** Until jobs are thrown away by thpool_destroy: a waiter that sleeps, or is about to, has
      something to wait for; and once it has seen an empty queue and then nobody working, all
      jobs pushed before it looked at the queue have been run. */
  ghost predicate WaitKept(s: Pool) {
    && s.h.seenByWait <= |s.h.pushed|
    && (s.h.cleared == 0 ==>
          && (s.waiter.ToSleep? || s.waiter.WaitAsleep? ==> s.queue != [] || s.working > 0)
          && (s.waiter.ReadWorking? ==> s.h.seenByWait <= s.h.taken)
          && (s.waiter.WaitUnlock? || s.waiter.Returned? ==> SeenJobsRun(s.h)))
  }

  ghost predicate SeenJobsRun(h: History) {
    h.seenByWait <= |h.pushed| && multiset(h.pushed[..h.seenByWait]) <= h.executed
  }

  lemma WorkerWaiter(s: Pool, pc: WorkerPc)
    requires WorkerCan(s, pc)
    requires s.working >= InWork(pc)
    requires s.thcountFree <==> !HoldsThcount(s.waiter)
    ensures var t := WorkerEffect(s, pc);
      && (t.waiter == s.waiter || (s.waiter.WaitAsleep? && t.waiter.WaitWoken?))
      && (t.waiter.ToSleep? || t.waiter.WaitAsleep? ==>
            (s.queue != [] || s.working > 0 ==> t.queue != [] || t.working > 0))
  {
    match pc
    case PullBody =>
    case BeginWork =>
    case EndWork =>
    case _ =>
  }

  lemma WorkerKeepsWait(s: Pool, a: Action)
    requires Locks(s) && Counters(s) && WaitKept(s) && Enabled(s, a) && a.Worker?
    ensures WaitKept(Do(s, a))
  {
    var pc := s.workers[a.i];
    SumAtLeast(s.workers, a.i, InWork);
    WorkerWaiter(s, pc);
    WorkerPulls(s, pc);
    WorkerHistory(s, pc);
  }

  /** Nobody working means nothing is in anybody's hands. */
  lemma {:induction false} IdleHands(ws: seq<WorkerPc>)
    requires Sum(ws, InWork) == 0
    ensures Gather(ws, ToRun) == multiset{} && Gather(ws, ToFree) == multiset{}
  {
    forall i | 0 <= i < |ws|
      ensures ToRun(ws[i]) == multiset{} && ToFree(ws[i]) == multiset{}
    {
      SumAtLeast(ws, i, InWork);
    }
    GatherNothing(ws, ToRun);
    GatherNothing(ws, ToFree);
  }

  /** So every job that was queued when the waiter found the queue empty has been run. */
  lemma IdleMeansRun(s: Pool)
    requires Counters(s) && Ledger(s) && s.working == 0 && s.h.cleared == 0
    requires s.h.seenByWait <= s.h.taken
    ensures SeenJobsRun(s.h)
  {
    IdleHands(s.workers);
    var h := s.h;
    assert h.executed == h.executed + Gather(s.workers, ToRun);
    assert h.pushed[..h.taken] == h.pushed[..h.seenByWait] + h.pushed[h.seenByWait..h.taken];
  }

  lemma EmptyQueueAllTaken(s: Pool)
    requires Ledger(s)
    ensures s.queue == [] ==> s.h.taken == |s.h.pushed|
  {
  }

  lemma WaiterKeepsWait(s: Pool)
    requires WaitKept(s) && WaiterCan(s) && s.working >= 0
    requires s.queue == [] ==> s.h.taken == |s.h.pushed|
    requires s.waiter.ReadWorking? && s.working == 0 && s.h.cleared == 0 ==> SeenJobsRun(s.h)
    ensures WaitKept(WaiterEffect(s))
  {
    match s.waiter
    case ReadLen =>
    case ReadWorking =>
    case _ =>
  }

  lemma WaiterStepKeepsWait(s: Pool)
    requires Counters(s) && Ledger(s) && WaitKept(s) && WaiterCan(s)
    ensures WaitKept(WaiterEffect(s))
  {
    SumNonNegative(s.workers, InWork);
    EmptyQueueAllTaken(s);
    if s.waiter.ReadWorking? && s.working == 0 && s.h.cleared == 0 {
      IdleMeansRun(s);
    }
    WaiterKeepsWait(s);
  }

  lemma OthersLeaveRecords(s: Pool, a: Action)
    requires Enabled(s, a) && !a.Worker? && !a.Waiter?
    ensures var t := Effect(s, a);
      && t.h.seenByWait == s.h.seenByWait && t.h.executed == s.h.executed
      && s.h.cleared <= t.h.cleared && s.h.pushed <= t.h.pushed && s.h.taken <= t.h.taken
  {
    match a
    case Submitter(_, _) =>
    case Destroyer(_) =>
    case _ =>
  }

  lemma OthersLeaveWait(s: Pool, a: Action)
    requires Enabled(s, a) && !a.Worker? && !a.Waiter?
    ensures var t := Effect(s, a);
      && t.working == s.working
      && (t.waiter == s.waiter || t.waiter.WaitLock? || t.waiter.WaitWoken?)
      && (t.queue == [] ==> s.queue == [] || t.h.cleared > s.h.cleared || s.destroyer.Resetting?)
  {
    match a
    case Submitter(_, _) =>
    case Destroyer(_) =>
    case _ =>
  }

  lemma OthersKeepWait(s: Pool, a: Action)
    requires Shutdown(s) && WaitKept(s) && Enabled(s, a) && !a.Worker? && !a.Waiter?
    ensures WaitKept(Do(s, a))
  {
    OthersLeaveRecords(s, a);
    OthersLeaveWait(s, a);
    assert Effect(s, a).h.pushed[..s.h.seenByWait] == s.h.pushed[..s.h.seenByWait];
  }

  // ---------------------------------------------------------------- the shutdown flag

  lemma OthersLeaveFlag(s: Pool, a: Action)
    requires Enabled(s, a) && !a.Worker?
    requires !(a.Destroyer? && s.destroyer.Stopping?)
    ensures Effect(s, a).keepalive == s.keepalive
  {
    match a
    case Submitter(_, _) =>
    case Waiter =>
    case Destroyer(_) =>
    case _ =>
  }

  /** Everybody else moves a worker only from asleep to woken. */
  lemma OthersOnlyWake(s: Pool, a: Action, k: nat)
    requires Enabled(s, a) && !a.Worker? && k < |s.workers|
    ensures var ws := WorkersAfter(s, a);
      |ws| == |s.workers| && (ws[k] == s.workers[k] || (s.workers[k].Asleep? && ws[k].Woken?))
  {
  }

  // ---------------------------------------------------------------- posts and wakeups

  /** A worker's step with rw_mutex held takes the oldest node and goes on to post the token
      exactly if nodes remain; it leaves the token itself alone. */
  lemma PullPostsIffJobsRemain(s: Pool, a: Action)
    requires Enabled(s, a) && a.Worker? && s.workers[a.i].PullBody?
    ensures var t := Do(s, a); var pc := t.workers[a.i];
      && t.token == s.token
      && (pc.PullPost? <==> t.queue != [])
      && (pc.PullPost? ==> s.queue == [pc.node] + t.queue)
      && (!pc.PullPost? ==> pc.PullUnlock? && s.queue == (if pc.pulled.Some? then [pc.pulled.value] else []))
  {
    WorkerPulls(s, PullBody);
  }

  /** thpool_destroy takes out one node at a time, and posts as a pull does. */
  lemma ClearPulls(s: Pool, pick: nat)
    requires Enabled(s, Destroyer(pick)) && s.destroyer.Clearing? && s.queue != []
    ensures var t := Do(s, Destroyer(pick));
      && t.destroyer.Clearing? && s.queue == [s.queue[0]] + t.queue
      && t.h.freed == s.h.freed + multiset{s.queue[0]}
      && (t.token <==> s.token || t.queue != [])
  {
  }

  predicate PostsToOne(s: Pool, a: Action) {
    || (a.Worker? && a.i < |s.workers| && s.workers[a.i].PullPost?)
    || (a.Submitter? && a.j < |s.submitters| && s.submitters[a.j].PushPost?)
    || (a.Destroyer? && s.destroyer.Clearing? && |s.queue| > 1)
  }

  predicate PostsToAll(s: Pool, a: Action) { a.Destroyer? && s.destroyer.Broadcasting? }

  lemma SignalWakesOne(ws: seq<WorkerPc>, pick: nat)
    requires PickOk(ws, pick)
    ensures Sum(Signal(ws, pick), IsAsleep) == Max(0, Sum(ws, IsAsleep) - 1)
  {
    SignalSum(ws, pick, IsAsleep);
    if Sleeps(ws, pick) {
      SumAtLeast(ws, pick, IsAsleep);
    } else {
      SumConstant(ws, IsAsleep, 0);
    }
  }

  /** A post sets the token and wakes one sleeper if anybody sleeps; the post of thpool_destroy
      wakes them all. */
  lemma PostsWake(s: Pool, a: Action)
    requires Enabled(s, a) && (PostsToOne(s, a) || PostsToAll(s, a))
    ensures var t := Do(s, a);
      && t.token && |t.workers| == |s.workers|
      && Sum(t.workers, IsAsleep) == (if PostsToAll(s, a) then 0 else Max(0, Sum(s.workers, IsAsleep) - 1))
  {
    if a.Worker? {
      SignalWakesOne(s.workers, a.pick);
      SumUpdate(Signal(s.workers, a.pick), a.i, NextPc(s, s.workers[a.i]), IsAsleep);
      WorkerToken(s, s.workers[a.i]);
    } else {
      SignalWakesOne(s.workers, a.pick);
      BroadcastWakesAll(s.workers);
    }
  }

  /** The token is taken only by a worker that comes out of bsem_wait, or by the final reset. */
  lemma OnlyTakersTake(s: Pool, a: Action)
    requires Enabled(s, a) && !PostsToOne(s, a) && !PostsToAll(s, a)
    ensures var t := Do(s, a);
      t.token == (s.token && !(a.Worker? && t.workers[a.i].Recheck?) && !(a.Destroyer? && s.destroyer.Resetting?))
  {
    match a
    case Worker(i, _) => TakersRecheck(s, s.workers[i]);
    case Submitter(_, _) =>
    case Waiter =>
    case Destroyer(_) =>
    case _ =>
  }

  lemma TakersRecheck(s: Pool, pc: WorkerPc)
    requires WorkerCan(s, pc) && !pc.PullPost?
    ensures WorkerEffect(s, pc).token == (s.token && !NextPc(s, pc).Recheck?)
  {
    match pc
    case PullBody =>
    case PullUnlock(_) =>
    case BsemWait =>
    case Woken =>
    case _ =>
  }

  /** A worker starts on a job only when it finds the flag still set after it came out of
      bsem_wait, and leaves only when its loop test finds the flag cleared. */
  lemma FlagDecides(s: Pool, a: Action)
    requires Enabled(s, a) && a.Worker?
    ensures var pc := Do(s, a).workers[a.i];
      && (pc.BeginWork? <==> s.workers[a.i].Recheck? && s.keepalive)
      && (pc.Deregister? <==> s.workers[a.i].LoopTest? && !s.keepalive)
      && (pc.BsemWait? <==> s.workers[a.i].LoopTest? && s.keepalive)
  {
  }

  /** Nobody wakes a sleeping waiter but the worker that leaves nobody working, unless it wakes
      spuriously. */
  lemma OnlyLastWorkerWakesWaiter(s: Pool, a: Action)
    requires Enabled(s, a) && s.waiter.WaitAsleep?
    ensures var t := Do(s, a);
      if a.SpuriousWaiterWake? || (a.Worker? && s.workers[a.i].EndWork? && t.working == 0)
      then t.waiter.WaitWoken? else t.waiter.WaitAsleep?
  {
    match a
    case Worker(i, _) => WakesWaiter(s, s.workers[i]);
    case Submitter(_, _) =>
    case Destroyer(_) =>
    case _ =>
  }

  lemma WakesWaiter(s: Pool, pc: WorkerPc)
    requires WorkerCan(s, pc) && s.waiter.WaitAsleep?
    ensures var t := WorkerEffect(s, pc);
      if pc.EndWork? && t.working == 0 then t.waiter.WaitWoken? else t.waiter.WaitAsleep?
  {
    match pc
    case PullBody =>
    case EndWork =>
    case _ =>
  }
}
