/** What every step of the thread pool keeps.  Each group of facts has its own lemma, which
    needs only the groups it names. */
module ThreadPoolInvariant {
  import opened Basics
  import opened Counting
  import opened JobQueue
  import opened ThreadPool

  // ---------------------------------------------------------------- populations

  function Registered(pc: WorkerPc): int { if pc.Start? || pc.Gone? then 0 else 1 }
  function Unregistered(pc: WorkerPc): int { if pc.Start? then 1 else 0 }
  function Leaving(pc: WorkerPc): int { if pc.Deregister? || pc.Gone? then 1 else 0 }
  function HoldsRw(pc: WorkerPc): int {
    if pc.PullBody? || pc.PullPost? || pc.PullUnlock? then 1 else 0
  }
  function InWork(pc: WorkerPc): int {
    if pc.PullLock? || pc.PullBody? || pc.PullPost? || pc.PullUnlock? || pc.Execute? || pc.FreeNode?
       || pc.EndWork? then 1 else 0
  }
  function Claimed(pc: WorkerPc): int {
    if pc.Recheck? || pc.BeginWork? || pc.PullLock? || pc.PullBody? then 1 else 0
  }
  function Posting(pc: WorkerPc): int { if pc.PullPost? then 1 else 0 }
  function IsAsleep(pc: WorkerPc): int { if pc.Asleep? then 1 else 0 }
  function IsWoken(pc: WorkerPc): int { if pc.Woken? then 1 else 0 }

  function Busy(pc: SubmitterPc): int { if pc.Quiet? then 0 else 1 }
  function PushHoldsRw(pc: SubmitterPc): int {
    if pc.PushBody? || pc.PushPost? || pc.PushUnlock? then 1 else 0
  }
  function PushPosting(pc: SubmitterPc): int { if pc.PushPost? then 1 else 0 }

  /** The node a worker has taken and not yet run, or not yet freed. */
  ghost function ToRun(pc: WorkerPc): multiset<Node> {
    match pc
    case PullPost(node) => multiset{node}
    case PullUnlock(pulled) => if pulled.Some? then multiset{pulled.value} else multiset{}
    case Execute(node) => multiset{node}
    case _ => multiset{}
  }
  ghost function ToFree(pc: WorkerPc): multiset<Node> {
    if pc.FreeNode? then multiset{pc.node} else ToRun(pc)
  }

  lemma SignalSum(ws: seq<WorkerPc>, pick: nat, w: WorkerPc -> int)
    ensures Sum(Signal(ws, pick), w)
         == Sum(ws, w) + (if Sleeps(ws, pick) then w(Woken) - w(Asleep) else 0)
  {
    if Sleeps(ws, pick) {
      SumUpdate(ws, pick, Woken, w);
    }
  }

  lemma SignalGather(ws: seq<WorkerPc>, pick: nat, f: WorkerPc -> multiset<Node>)
    requires f(Asleep) == multiset{} && f(Woken) == multiset{}
    ensures Gather(Signal(ws, pick), f) == Gather(ws, f)
  {
    if Sleeps(ws, pick) {
      GatherUpdate(ws, pick, Woken, f);
      var g := Gather(ws[pick := Woken], f);
      assert g + f(ws[pick]) == g;
    }
  }

  /** How a step changes a population of workers that does not tell sleepers from woken ones:
      only by the move of the worker that makes the step. */
  lemma StepSum(s: Pool, a: Action, w: WorkerPc -> int)
    requires Enabled(s, a) && w(Asleep) == w(Woken)
    ensures |WorkersAfter(s, a)| == |s.workers|
    ensures Sum(WorkersAfter(s, a), w) == Sum(s.workers, w)
      + (if a.Worker? then w(NextPc(s, s.workers[a.i])) - w(s.workers[a.i]) else 0)
  {
    match a
    case Worker(i, pick) =>
      var pc := s.workers[i];
      SignalSum(s.workers, pick, w);
      SumUpdate(if pc.PullPost? then Signal(s.workers, pick) else s.workers, i, NextPc(s, pc), w);
    case Submitter(j, pick) => SignalSum(s.workers, pick, w);
    case SpuriousWake(i) => SignalSum(s.workers, i, w);
    case Destroyer(pick) =>
      SignalSum(s.workers, pick, w);
      SumPointwise(s.workers, Broadcast(s.workers), w);
    case _ =>
  }

  lemma StepGather(s: Pool, a: Action, f: WorkerPc -> multiset<Node>)
    requires Enabled(s, a) && f(Asleep) == multiset{} && f(Woken) == multiset{}
    ensures if a.Worker? then
              Gather(WorkersAfter(s, a), f) + f(s.workers[a.i])
                == Gather(s.workers, f) + f(NextPc(s, s.workers[a.i]))
            else Gather(WorkersAfter(s, a), f) == Gather(s.workers, f)
  {
    match a
    case Worker(i, pick) =>
      var pc := s.workers[i];
      SignalGather(s.workers, pick, f);
      GatherUpdate(if pc.PullPost? then Signal(s.workers, pick) else s.workers, i, NextPc(s, pc), f);
    case Submitter(j, pick) => SignalGather(s.workers, pick, f);
    case SpuriousWake(i) => SignalGather(s.workers, i, f);
    case Destroyer(pick) =>
      SignalGather(s.workers, pick, f);
      GatherPointwise(s.workers, Broadcast(s.workers), f);
    case _ =>
  }

  lemma StepSubmitterSum(s: Pool, a: Action, w: SubmitterPc -> int)
    requires Enabled(s, a)
    ensures |SubmittersAfter(s, a)| == |s.submitters|
    ensures Sum(SubmittersAfter(s, a), w) == Sum(s.submitters, w)
      + (match a
         case Submit(j, job) => w(PushLock(job)) - w(s.submitters[j])
         case Submitter(j, _) => w(NextSubmitterPc(s.submitters[j])) - w(s.submitters[j])
         case _ => 0)
  {
    match a
    case Submit(j, job) => SumUpdate(s.submitters, j, PushLock(job), w);
    case Submitter(j, _) => SumUpdate(s.submitters, j, NextSubmitterPc(s.submitters[j]), w);
    case _ =>
  }

  // ---------------------------------------------------------------- locks and counters

  predicate HoldsThcount(pc: WaiterPc) {
    pc.ReadLen? || pc.ReadWorking? || pc.ToSleep? || pc.WaitUnlock?
  }

  ghost predicate Locks(s: Pool) {
    && s.rwFree + Sum(s.workers, HoldsRw) + Sum(s.submitters, PushHoldsRw) == 1
    && (s.thcountFree <==> !HoldsThcount(s.waiter))
  }

  lemma WorkerRwFlow(s: Pool, pc: WorkerPc)
    requires WorkerCan(s, pc)
    ensures var t := WorkerEffect(s, pc);
      && t.rwFree + HoldsRw(NextPc(s, pc)) == s.rwFree + HoldsRw(pc)
      && t.thcountFree == s.thcountFree && HoldsThcount(t.waiter) == HoldsThcount(s.waiter)
  {
    match pc
    case PullLock =>
    case PullBody =>
    case PullUnlock(_) =>
    case EndWork =>
    case _ =>
  }

  lemma SubmitterRwFlow(s: Pool, pc: SubmitterPc)
    requires SubmitterCan(s, pc)
    ensures var t := SubmitterEffect(s, pc);
      && t.rwFree + PushHoldsRw(NextSubmitterPc(pc)) == s.rwFree + PushHoldsRw(pc)
      && t.thcountFree == s.thcountFree && t.waiter == s.waiter
  {
  }

  lemma OthersLeaveLocks(s: Pool, a: Action)
    requires Enabled(s, a) && !a.Worker? && !a.Submitter?
    requires s.thcountFree <==> !HoldsThcount(s.waiter)
    ensures var t := Effect(s, a);
      t.rwFree == s.rwFree && (t.thcountFree <==> !HoldsThcount(t.waiter))
  {
    match a
    case Waiter =>
    case Destroyer(_) =>
    case _ =>
  }

  lemma StepKeepsLocks(s: Pool, a: Action)
    requires Locks(s) && Enabled(s, a)
    ensures Locks(Do(s, a))
  {
    StepSum(s, a, HoldsRw);
    StepSubmitterSum(s, a, PushHoldsRw);
    if a.Worker? {
      WorkerRwFlow(s, s.workers[a.i]);
    } else if a.Submitter? {
      SubmitterRwFlow(s, s.submitters[a.j]);
    } else {
      OthersLeaveLocks(s, a);
    }
  }

  /** thcount_lock does its work: while the waiter holds it no step changes either counter. */
  lemma CountersUnderLock(s: Pool, a: Action)
    requires Locks(s) && HoldsThcount(s.waiter) && Enabled(s, a)
    ensures Do(s, a).alive == s.alive && Do(s, a).working == s.working
  {
    if a.Worker? {
      WorkerNeedsLock(s, s.workers[a.i]);
    } else {
      OthersLeaveCounters(s, a);
    }
  }

  lemma WorkerNeedsLock(s: Pool, pc: WorkerPc)
    requires WorkerCan(s, pc) && !s.thcountFree
    ensures WorkerEffect(s, pc).alive == s.alive && WorkerEffect(s, pc).working == s.working
  {
    match pc
    case PullBody =>
    case _ =>
  }

  /** So does rw_mutex: while a worker or submitter holds it, only its holder changes the queue,
      except for the last store of jobqueue_clear. */
  lemma QueueUnderLock(s: Pool, a: Action)
    requires Locks(s) && s.rwFree == 0 && Enabled(s, a) && !s.destroyer.Resetting?
    ensures Do(s, a).queue == s.queue
         || (a.Worker? && HoldsRw(s.workers[a.i]) == 1) || (a.Submitter? && PushHoldsRw(s.submitters[a.j]) == 1)
  {
    match a
    case Worker(i, _) => WorkerPulls(s, s.workers[i]);
    case Submitter(_, _) =>
    case Waiter =>
    case Destroyer(_) =>
    case _ =>
  }

  ghost predicate Counters(s: Pool) {
    && s.alive == Sum(s.workers, Registered)
    && s.working == Sum(s.workers, InWork)
    && (s.ready ==> Sum(s.workers, Unregistered) == 0)
    && (s.keepalive ==> Sum(s.workers, Leaving) == 0)
  }

  lemma WorkerCounterFlow(s: Pool, pc: WorkerPc)
    requires WorkerCan(s, pc)
    ensures var t := WorkerEffect(s, pc);
      && t.alive - Registered(NextPc(s, pc)) == s.alive - Registered(pc)
      && t.working - InWork(NextPc(s, pc)) == s.working - InWork(pc)
      && t.ready == s.ready && t.keepalive == s.keepalive
      && Unregistered(NextPc(s, pc)) == 0
      && (s.keepalive ==> Leaving(NextPc(s, pc)) <= Leaving(pc))
  {
    match pc
    case Start =>
    case BeginWork =>
    case PullBody =>
    case EndWork =>
    case Deregister =>
    case _ =>
  }

  lemma OthersLeaveCounters(s: Pool, a: Action)
    requires Enabled(s, a) && !a.Worker?
    ensures var t := Effect(s, a);
      && t.alive == s.alive && t.working == s.working
      && (t.keepalive ==> s.keepalive)
      && t.ready == (s.ready || a.PoolReady?)
  {
    match a
    case Submitter(_, _) =>
    case Waiter =>
    case Destroyer(_) =>
    case _ =>
  }

  lemma StepKeepsCounters(s: Pool, a: Action)
    requires Counters(s) && Enabled(s, a)
    ensures Counters(Do(s, a))
  {
    StepSum(s, a, Registered);
    StepSum(s, a, InWork);
    StepSum(s, a, Unregistered);
    StepSum(s, a, Leaving);
    if a.Worker? {
      WorkerCounterFlow(s, s.workers[a.i]);
      SumAtLeast(s.workers, a.i, Unregistered);
      SumAtLeast(s.workers, a.i, Leaving);
    } else {
      OthersLeaveCounters(s, a);
      if a.PoolReady? {
        AllRegistered(s.workers);
      }
    }
  }

  lemma AllRegistered(ws: seq<WorkerPc>)
    requires Sum(ws, Registered) == |ws|
    ensures Sum(ws, Unregistered) == 0
  {
    forall i | 0 <= i < |ws|
      ensures Unregistered(ws[i]) == 0
    {
      if ws[i].Start? {
        SumBelowLength(ws, i, Registered);
      }
    }
    SumConstant(ws, Unregistered, 0);
  }

  /** After thpool_init has returned, nobody alive means every worker has ended. */
  lemma NobodyAlive(s: Pool)
    requires Counters(s) && s.ready && s.alive == 0
    ensures forall i | 0 <= i < |s.workers| :: s.workers[i].Gone?
  {
    forall i | 0 <= i < |s.workers|
      ensures s.workers[i].Gone?
    {
      SumAtLeast(s.workers, i, Registered);
      SumAtLeast(s.workers, i, Unregistered);
    }
  }

  predicate PastPolling(pc: DestroyerPc) { pc.Clearing? || pc.Resetting? || pc.Finished? }

  ghost predicate Phases(s: Pool) {
    && (!s.ready ==> s.waiter.NotWaiting? && s.destroyer.NotDestroying?)
    && (!s.ready || !s.destroyer.NotDestroying? ==> Sum(s.submitters, Busy) == 0)
    && Shutdown(s)
  }

  predicate Shutdown(s: Pool) {
    && (s.keepalive <==> s.destroyer.NotDestroying? || s.destroyer.Stopping?)
    && (PastPolling(s.destroyer) ==> s.alive == 0)
    && (s.h.cleared > 0 ==> PastPolling(s.destroyer))
    && (s.destroyer.Resetting? || s.destroyer.Finished? ==> s.queue == [])
    && (s.destroyer.Finished? ==> !s.token)
  }

  lemma WorkerPhaseFlow(s: Pool, pc: WorkerPc)
    requires WorkerCan(s, pc)
    ensures var t := WorkerEffect(s, pc);
      && t.ready == s.ready && t.keepalive == s.keepalive
      && t.destroyer == s.destroyer && t.h.cleared == s.h.cleared
      && (s.waiter.NotWaiting? ==> t.waiter == s.waiter)
  {
  }

  lemma DestroyerKeepsShutdown(s: Pool)
    requires DestroyerCan(s) && Shutdown(s)
    ensures Shutdown(DestroyerEffect(s))
  {
    match s.destroyer
    case Clearing =>
    case _ =>
  }

  lemma OthersKeepShutdown(s: Pool, a: Action)
    requires Enabled(s, a) && !a.Worker? && Shutdown(s)
    requires a.Submitter? ==> s.destroyer.NotDestroying?
    ensures Shutdown(Effect(s, a))
  {
    match a
    case Submitter(_, _) =>
    case Waiter =>
    case Destroyer(_) => DestroyerKeepsShutdown(s);
    case _ =>
  }

  lemma OthersMoveOnlyTheirOwn(s: Pool, a: Action)
    requires Enabled(s, a) && !a.Worker?
    ensures var t := Effect(s, a);
      && (t.ready <==> s.ready || a.PoolReady?)
      && (t.waiter == s.waiter || a.Wait? || a.Waiter? || a.SpuriousWaiterWake?)
      && (t.destroyer == s.destroyer || a.Destroy? || a.Destroyer?)
  {
    match a
    case Submitter(_, _) =>
    case Waiter =>
    case Destroyer(_) =>
    case _ =>
  }

  lemma StepKeepsPhases(s: Pool, a: Action)
    requires Counters(s) && Phases(s) && Enabled(s, a)
    ensures Phases(Do(s, a))
  {
    StepSubmitterSum(s, a, Busy);
    if a.Worker? {
      WorkerPhaseFlow(s, s.workers[a.i]);
      if PastPolling(s.destroyer) {
        NobodyAlive(s);
      }
    } else {
      if a.Submitter? {
        SumAtLeast(s.submitters, a.j, Busy);
      }
      if a.Destroy? {
        SumConstant(s.submitters, Busy, 0);
      }
      OthersKeepShutdown(s, a);
      OthersMoveOnlyTheirOwn(s, a);
    }
  }

  // ---------------------------------------------------------------- every node accounted for

  /** The queue is what has been pushed and not taken out, oldest first; every node taken out by
      a worker has been run once or is still in that worker's hands, and every node taken out
      has been freed once or is still in a worker's hands. */
  ghost predicate Books(h: History, queue: seq<Node>, toRun: multiset<Node>, toFree: multiset<Node>) {
    && h.cleared <= h.taken <= |h.pushed|
    && queue == h.pushed[h.taken..]
    && (forall k | 0 <= k < |h.pushed| :: h.pushed[k].id == k)
    && h.executed + toRun == multiset(h.pushed[..h.taken - h.cleared])
    && h.freed + toFree == multiset(h.pushed[..h.taken])
  }

  ghost predicate Ledger(s: Pool) {
    Books(s.h, s.queue, Gather(s.workers, ToRun), Gather(s.workers, ToFree))
  }

  /** What a worker at pc takes off the queue. */
  function Got(queue: seq<Node>, pc: WorkerPc): seq<Node> {
    if pc.PullBody? && queue != [] then queue[..1] else []
  }

  lemma WorkerPulls(s: Pool, pc: WorkerPc)
    requires WorkerCan(s, pc)
    ensures var t := WorkerEffect(s, pc);
      && s.queue == Got(s.queue, pc) + t.queue
      && t.h.taken == s.h.taken + |Got(s.queue, pc)| && t.h.pushed == s.h.pushed
      && t.h.cleared == s.h.cleared && t.h.seenByWait == s.h.seenByWait
  {
    match pc
    case PullBody =>
    case _ =>
  }

  lemma WorkerHistory(s: Pool, pc: WorkerPc)
    requires WorkerCan(s, pc)
    ensures var t := WorkerEffect(s, pc);
      && t.h.executed == (if pc.Execute? then s.h.executed + multiset{pc.node} else s.h.executed)
      && t.h.freed == (if pc.FreeNode? then s.h.freed + multiset{pc.node} else s.h.freed)
  {
    match pc
    case Execute(_) =>
    case FreeNode(_) =>
    case _ =>
  }

  /** What is in a worker's hands changes only when it pulls, runs or frees. */
  lemma WorkerHands(s: Pool, pc: WorkerPc)
    requires WorkerCan(s, pc) && !pc.PullBody?
    ensures ToRun(NextPc(s, pc)) == (if pc.Execute? then multiset{} else ToRun(pc))
  {
    match pc
    case PullUnlock(_) =>
    case Execute(_) =>
    case FreeNode(_) =>
    case _ =>
  }

  lemma WorkerFreeingHands(s: Pool, pc: WorkerPc)
    requires WorkerCan(s, pc) && !pc.PullBody?
    ensures ToFree(NextPc(s, pc)) == (if pc.FreeNode? then multiset{} else ToFree(pc))
  {
    match pc
    case PullUnlock(_) =>
    case Execute(_) =>
    case FreeNode(_) =>
    case _ =>
  }

  lemma PullerHands(s: Pool)
    requires WorkerCan(s, PullBody)
    ensures ToRun(NextPc(s, PullBody)) == multiset(Got(s.queue, PullBody)) == ToFree(NextPc(s, PullBody))
  {
    assert s.queue != [] ==> s.queue[..1] == [s.queue[0]];
  }

  /** x becomes y in one worker's hands, so g becomes h in all hands together, while a becomes b
      on the record: the worker pulls z, puts x on record, or does neither. */
  lemma Balance(a: multiset<Node>, b: multiset<Node>, g: multiset<Node>, h: multiset<Node>,
                x: multiset<Node>, y: multiset<Node>, z: multiset<Node>)
    requires h + x == g + y
    requires || (b == a && x == multiset{} && y == z)
             || (b == a + x && y == multiset{} && z == multiset{})
             || (b == a && y == x && z == multiset{})
    ensures b + h == a + g + z
  {
    forall n: Node
      ensures (b + h)[n] == (a + g + z)[n]
    {
      assert (h + x)[n] == (g + y)[n];
    }
  }

  /** Moving got from the front of the queue extends the part already taken. */
  lemma TakenExtends(pushed: seq<Node>, taken: nat, got: seq<Node>, rest: seq<Node>)
    requires taken <= |pushed| && pushed[taken..] == got + rest
    ensures taken + |got| <= |pushed|
    ensures rest == pushed[taken + |got|..]
    ensures multiset(pushed[..taken + |got|]) == multiset(pushed[..taken]) + multiset(got)
  {
    assert |pushed| - taken == |got| + |rest|;
    assert pushed[..taken + |got|] == pushed[..taken] + got by {
      forall k | taken <= k < taken + |got|
        ensures pushed[k] == got[k - taken]
      {
        assert pushed[k] == pushed[taken..][k - taken];
      }
    }
    forall k | 0 <= k < |rest|
      ensures rest[k] == pushed[taken + |got|..][k]
    {
      assert rest[k] == pushed[taken..][|got| + k];
    }
  }

  /** A worker's pull: got leaves the queue and becomes something to run and to free. */
  lemma PullKeepsBooks(h: History, queue: seq<Node>, r: multiset<Node>, f: multiset<Node>,
                       h': History, queue': seq<Node>, r': multiset<Node>, f': multiset<Node>,
                       got: seq<Node>)
    requires Books(h, queue, r, f)
    requires h.cleared == 0
    requires queue == got + queue' && h'.taken == h.taken + |got|
    requires h'.pushed == h.pushed && h'.cleared == h.cleared
    requires h'.executed + r' == h.executed + r + multiset(got)
    requires h'.freed + f' == h.freed + f + multiset(got)
    ensures Books(h', queue', r', f')
  {
    TakenExtends(h.pushed, h.taken, got, queue');
  }

  lemma PushKeepsBooks(h: History, queue: seq<Node>, r: multiset<Node>, f: multiset<Node>, job: Job)
    requires Books(h, queue, r, f)
    ensures var node := Node(|h.pushed|, job);
      Books(h.(pushed := h.pushed + [node]), queue + [node], r, f)
  {
    var pushed := h.pushed + [Node(|h.pushed|, job)];
    var k := h.taken - h.cleared;
    assert pushed[..k] == h.pushed[..k];
    assert pushed[..h.taken] == h.pushed[..h.taken];
  }

  lemma Swap(a: multiset<Node>, b: multiset<Node>, c: multiset<Node>)
    ensures a + b + c == a + c + b
  {
  }

  lemma ClearKeepsBooks(h: History, queue: seq<Node>, r: multiset<Node>, f: multiset<Node>, n: Node)
    requires Books(h, queue, r, f) && queue != [] && n == queue[0]
    ensures Books(h.(taken := h.taken + 1, cleared := h.cleared + 1, freed := h.freed + multiset{n}),
                  queue[1..], r, f)
  {
    assert h.pushed[h.taken..] == [n] + queue[1..];
    TakenExtends(h.pushed, h.taken, [n], queue[1..]);
    assert multiset([n]) == multiset{n};
    Swap(h.freed, multiset{n}, f);
  }

  /** The remaining steps touch none of it. */
  lemma OthersLeaveQueue(s: Pool, a: Action)
    requires Enabled(s, a) && !a.Worker?
    requires !(a.Submitter? && s.submitters[a.j].PushBody?) && !(a.Destroyer? && s.destroyer.Clearing?)
    requires s.destroyer.Resetting? ==> s.queue == []
    ensures var t := Effect(s, a);
      t.queue == s.queue && t.h.pushed == s.h.pushed && t.h.taken == s.h.taken
  {
    match a
    case Submitter(_, _) =>
    case Waiter =>
    case Destroyer(_) =>
    case _ =>
  }

  lemma OthersLeaveOutcomes(s: Pool, a: Action)
    requires Enabled(s, a) && !a.Worker?
    requires !(a.Submitter? && s.submitters[a.j].PushBody?) && !(a.Destroyer? && s.destroyer.Clearing?)
    ensures var t := Effect(s, a);
      t.h.cleared == s.h.cleared && t.h.executed == s.h.executed && t.h.freed == s.h.freed
  {
    match a
    case Submitter(_, _) =>
    case Waiter =>
    case Destroyer(_) =>
    case _ =>
  }

  lemma NoPullAfterClear(s: Pool, i: nat)
    requires Counters(s) && Phases(s) && i < |s.workers| && !s.workers[i].Gone?
    ensures s.h.cleared == 0
  {
    if PastPolling(s.destroyer) {
      NobodyAlive(s);
    }
  }

  /** What a worker pulls is added to what is to be run or has been run, and to what is to be freed
      or has been freed. */
  lemma WorkerBalance(s: Pool, a: Action)
    requires Enabled(s, a) && a.Worker?
    ensures var t := Do(s, a); var got := multiset(Got(s.queue, s.workers[a.i]));
      && t.h.executed + Gather(t.workers, ToRun) == s.h.executed + Gather(s.workers, ToRun) + got
      && t.h.freed + Gather(t.workers, ToFree) == s.h.freed + Gather(s.workers, ToFree) + got
  {
    var pc := s.workers[a.i];
    var got := multiset(Got(s.queue, pc));
    var t := WorkerEffect(s, pc);
    var ws := WorkersAfter(s, a);
    WorkerHistory(s, pc);
    if pc.PullBody? {
      PullerHands(s);
    } else {
      WorkerHands(s, pc);
      WorkerFreeingHands(s, pc);
    }
    StepGather(s, a, ToRun);
    StepGather(s, a, ToFree);
    Balance(s.h.executed, t.h.executed, Gather(s.workers, ToRun), Gather(ws, ToRun),
            ToRun(pc), ToRun(NextPc(s, pc)), got);
    Balance(s.h.freed, t.h.freed, Gather(s.workers, ToFree), Gather(ws, ToFree),
            ToFree(pc), ToFree(NextPc(s, pc)), got);
  }

  lemma WorkerKeepsLedger(s: Pool, a: Action)
    requires Ledger(s) && Enabled(s, a) && a.Worker? && s.h.cleared == 0
    ensures Ledger(Do(s, a))
  {
    var t := Do(s, a);
    WorkerPulls(s, s.workers[a.i]);
    WorkerBalance(s, a);
    PullKeepsBooks(s.h, s.queue, Gather(s.workers, ToRun), Gather(s.workers, ToFree),
                   t.h, t.queue, Gather(t.workers, ToRun), Gather(t.workers, ToFree),
                   Got(s.queue, s.workers[a.i]));
  }

  lemma PushKeepsLedger(s: Pool, a: Action)
    requires Ledger(s) && Enabled(s, a) && a.Submitter? && s.submitters[a.j].PushBody?
    ensures Ledger(Do(s, a))
  {
    StepGather(s, a, ToRun);
    StepGather(s, a, ToFree);
    PushKeepsBooks(s.h, s.queue, Gather(s.workers, ToRun), Gather(s.workers, ToFree),
                   s.submitters[a.j].job);
  }

  lemma ClearEffect(s: Pool)
    requires s.destroyer.Clearing? && DestroyerCan(s)
    ensures var t := DestroyerEffect(s);
      if s.queue == [] then t.h == s.h && t.queue == s.queue
      else && t.h == s.h.(taken := s.h.taken + 1, cleared := s.h.cleared + 1,
                          freed := s.h.freed + multiset{s.queue[0]})
           && t.queue == s.queue[1..]
  {
  }

  lemma ClearKeepsLedger(s: Pool, a: Action)
    requires Ledger(s) && Enabled(s, a) && a.Destroyer? && s.destroyer.Clearing?
    ensures Ledger(Do(s, a))
  {
    StepGather(s, a, ToRun);
    StepGather(s, a, ToFree);
    ClearEffect(s);
    if s.queue != [] {
      ClearKeepsBooks(s.h, s.queue, Gather(s.workers, ToRun), Gather(s.workers, ToFree), s.queue[0]);
    }
  }

  lemma OthersKeepLedger(s: Pool, a: Action)
    requires Ledger(s) && Enabled(s, a) && !a.Worker?
    requires !(a.Submitter? && s.submitters[a.j].PushBody?) && !(a.Destroyer? && s.destroyer.Clearing?)
    requires s.destroyer.Resetting? ==> s.queue == []
    ensures Ledger(Do(s, a))
  {
    StepGather(s, a, ToRun);
    StepGather(s, a, ToFree);
    OthersLeaveQueue(s, a);
    OthersLeaveOutcomes(s, a);
  }

  lemma StepKeepsLedger(s: Pool, a: Action)
    requires Counters(s) && Phases(s) && Ledger(s) && Enabled(s, a)
    ensures Ledger(Do(s, a))
  {
    if a.Worker? {
      NoPullAfterClear(s, a.i);
      WorkerKeepsLedger(s, a);
    } else if a.Submitter? && s.submitters[a.j].PushBody? {
      PushKeepsLedger(s, a);
    } else if a.Destroyer? && s.destroyer.Clearing? {
      ClearKeepsLedger(s, a);
    } else {
      OthersKeepLedger(s, a);
    }
  }
}
