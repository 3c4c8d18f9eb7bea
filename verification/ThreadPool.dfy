/** common/thpool.c as a step system: any number of workers running thread_do, any number of
    submitters running thpool_add_work, one caller of thpool_wait and one of thpool_destroy.

    A step is one access to shared data.  Three kinds of critical section are one step each,
    because nobody looks inside them: the binary semaphore's (all accesses to v hold its
    mutex), and those of the workers on thcount_lock (each changes one counter).  rw_mutex and
    the waiter's use of thcount_lock are kept as separate lock, body and unlock steps, because
    the waiter reads len without rw_mutex, and reads len and the working counter in two steps.
    pthread_cond_wait releases its mutex and sleeps in one step; any sleeper may wake
    spuriously at any time. */
module ThreadPool {
  import opened Basics
  import opened Counting
  import opened JobQueue

  datatype Job = Job(function_: int, args: int)

  /** A queue node; id says as how manieth it was pushed. */
  datatype Node = Node(id: nat, job: Job)

  datatype WorkerPc =
    | Start                             // about to count itself alive
    | LoopTest                          // reads threads_keepalive in the loop test
    | BsemWait                          // about to enter bsem_wait and test v
    | Asleep                            // in pthread_cond_wait on the semaphore
    | Woken                             // woken, about to test v again
    | Recheck                           // out of bsem_wait, reads threads_keepalive again
    | BeginWork                         // about to increment num_threads_working
    | PullLock                          // about to lock rw_mutex
    | PullBody                          // holds rw_mutex, about to take a node out
    | PullPost(node: Node)              // holds rw_mutex, about to post the token again
    | PullUnlock(pulled: Option<Node>)  // about to unlock rw_mutex
    | Execute(node: Node)
    | FreeNode(node: Node)
    | EndWork                           // about to decrement num_threads_working
    | Deregister                        // out of the loop, about to count itself dead
    | Gone

  datatype SubmitterPc = Quiet | PushLock(job: Job) | PushBody(job: Job) | PushPost | PushUnlock

  datatype WaiterPc =
    | NotWaiting
    | WaitLock     // about to lock thcount_lock
    | ReadLen      // holds the lock, reads job_queue.len
    | ReadWorking  // holds the lock, reads num_threads_working
    | ToSleep      // holds the lock, about to sleep
    | WaitAsleep
    | WaitWoken    // about to lock thcount_lock again
    | WaitUnlock   // saw both zero
    | Returned

  datatype DestroyerPc =
    | NotDestroying
    | Stopping      // about to clear threads_keepalive
    | Polling       // reads num_threads_alive in one of the two loops
    | Broadcasting  // in bsem_post_all
    | Clearing      // in the loop of jobqueue_clear
    | Resetting     // bsem_reset and the final stores of jobqueue_clear
    | Finished

  /** What has happened so far; the program has none of these.  The nodes are handed out in the
      order of `pushed`: first `taken - cleared` of them to workers, then `cleared` to
      jobqueue_clear. */
  datatype History = History(
    pushed: seq<Node>, taken: nat, cleared: nat,
    executed: multiset<Node>, freed: multiset<Node>,
    seenByWait: nat)  // |pushed| when the waiter last read len

  datatype Pool = Pool(
    keepalive: bool, ready: bool, alive: int, working: int, thcountFree: bool,
    rwFree: nat, token: bool, queue: seq<Node>,
    workers: seq<WorkerPc>, submitters: seq<SubmitterPc>,
    waiter: WaiterPc, destroyer: DestroyerPc, h: History)

  function Init(workers: nat, submitters: nat): Pool {
    Pool(true, false, 0, 0, true, 1, false, [],
         seq(workers, _ => Start), seq(submitters, _ => Quiet), NotWaiting, NotDestroying,
         History([], 0, 0, multiset{}, multiset{}, 0))
  }

  /** `pick` names the sleeper that a post wakes, when there is one. */
  datatype Action =
    | PoolReady                     // thpool_init stops spinning and returns
    | Submit(j: nat, job: Job)      // a call of thpool_add_work
    | Wait                          // a call of thpool_wait
    | Destroy                       // a call of thpool_destroy
    | SpuriousWake(i: nat)
    | SpuriousWaiterWake
    | Worker(i: nat, pick: nat)
    | Submitter(j: nat, pick: nat)
    | Waiter
    | Destroyer(pick: nat)

  // ---------------------------------------------------------------- waking sleepers

  predicate Sleeps(ws: seq<WorkerPc>, pick: nat) {
    pick < |ws| && ws[pick].Asleep?
  }

  predicate PickOk(ws: seq<WorkerPc>, pick: nat) {
    Sleeps(ws, pick) || forall i | 0 <= i < |ws| :: !ws[i].Asleep?
  }

  /** pthread_cond_signal. */
  function Signal(ws: seq<WorkerPc>, pick: nat): (r: seq<WorkerPc>)
    ensures |r| == |ws|
  {
    if Sleeps(ws, pick) then ws[pick := Woken] else ws
  }

  /** pthread_cond_broadcast. */
  function Broadcast(ws: seq<WorkerPc>): (r: seq<WorkerPc>)
    ensures |r| == |ws|
  {
    seq(|ws|, i requires 0 <= i < |ws| => if ws[i].Asleep? then Woken else ws[i])
  }

  // ---------------------------------------------------------------- steps

  predicate WorkerCan(s: Pool, pc: WorkerPc) {
    match pc
    case Asleep | Gone => false
    case Start | BeginWork | EndWork | Deregister => s.thcountFree
    case PullLock => s.rwFree > 0
    case _ => true
  }

  predicate SubmitterCan(s: Pool, pc: SubmitterPc) {
    match pc
    case Quiet => false
    case PushLock(_) => s.rwFree > 0
    case _ => true
  }

  predicate WaiterCan(s: Pool) {
    match s.waiter
    case NotWaiting | WaitAsleep | Returned => false
    case WaitLock | WaitWoken => s.thcountFree
    case _ => true
  }

  predicate DestroyerCan(s: Pool) {
    match s.destroyer
    case NotDestroying | Finished => false
    case Clearing => s.queue != [] ==> s.rwFree > 0
    case _ => true
  }

  /** Calls come only after thpool_init has returned; thpool_destroy is called when no
      submission is in progress, and no call starts after it. */
  predicate Enabled(s: Pool, a: Action) {
    match a
    case PoolReady => !s.ready && s.alive == |s.workers|
    case Submit(j, job) =>
      s.ready && s.destroyer.NotDestroying? && j < |s.submitters| && s.submitters[j].Quiet?
    case Wait => s.ready && s.destroyer.NotDestroying? && (s.waiter.NotWaiting? || s.waiter.Returned?)
    case Destroy =>
      s.ready && s.destroyer.NotDestroying? && forall j | 0 <= j < |s.submitters| :: s.submitters[j].Quiet?
    case SpuriousWake(i) => Sleeps(s.workers, i)
    case SpuriousWaiterWake => s.waiter.WaitAsleep?
    case Worker(i, pick) =>
      i < |s.workers| && WorkerCan(s, s.workers[i]) && PickOk(s.workers, pick)
    case Submitter(j, pick) =>
      j < |s.submitters| && SubmitterCan(s, s.submitters[j]) && PickOk(s.workers, pick)
    case Waiter => WaiterCan(s)
    case Destroyer(pick) => DestroyerCan(s) && PickOk(s.workers, pick)
  }

  /** Callers are free: once thpool_init has returned, and until thpool_destroy is called, any idle
      submitter may submit any job, and the other calls may come at any time; and any sleeper may
      wake spuriously. */
  lemma CallersAreFree(s: Pool, job: Job)
    requires s.ready && s.destroyer.NotDestroying?
    ensures forall j | 0 <= j < |s.submitters| && s.submitters[j].Quiet? :: Enabled(s, Submit(j, job))
    ensures s.waiter.NotWaiting? || s.waiter.Returned? ==> Enabled(s, Wait)
    ensures (forall j | 0 <= j < |s.submitters| :: s.submitters[j].Quiet?) ==> Enabled(s, Destroy)
    ensures forall i | 0 <= i < |s.workers| && s.workers[i].Asleep? :: Enabled(s, SpuriousWake(i))
    ensures s.waiter.WaitAsleep? ==> Enabled(s, SpuriousWaiterWake)
  {
  }

  /** Where a worker goes from pc. */
  function NextPc(s: Pool, pc: WorkerPc): WorkerPc
    requires WorkerCan(s, pc)
  {
    match pc
    case Start => LoopTest
    case LoopTest => if s.keepalive then BsemWait else Deregister
    case BsemWait | Woken => if s.token then Recheck else Asleep
    case Recheck => if s.keepalive then BeginWork else LoopTest
    case BeginWork => PullLock
    case PullLock => PullBody
    case PullBody =>
      var pulled := PullOf(s.queue);
      if pulled.posts then PullPost(pulled.job.value) else PullUnlock(pulled.job)
    case PullPost(node) => PullUnlock(Some(node))
    case PullUnlock(pulled) => if pulled.Some? then Execute(pulled.value) else EndWork
    case Execute(node) => FreeNode(node)
    case FreeNode(_) => EndWork
    case EndWork => LoopTest
    case Deregister => Gone
  }

  /** What a worker does to the shared data on its way from pc. */
  function WorkerEffect(s: Pool, pc: WorkerPc): Pool
    requires WorkerCan(s, pc)
  {
    match pc
    case Start => s.(alive := s.alive + 1)
    case BsemWait | Woken => s.(token := false)
    case BeginWork => s.(working := s.working + 1)
    case PullLock => s.(rwFree := s.rwFree - 1)
    case PullBody =>
      var pulled := PullOf(s.queue);
      if pulled.job.None? then s
      else s.(queue := pulled.rest, h := s.h.(taken := s.h.taken + 1))
    case PullPost(_) => s.(token := true)
    case PullUnlock(_) => s.(rwFree := s.rwFree + 1)
    case Execute(node) => s.(h := s.h.(executed := s.h.executed + multiset{node}))
    case FreeNode(node) => s.(h := s.h.(freed := s.h.freed + multiset{node}))
    case EndWork =>
      s.(working := s.working - 1,
         waiter := if s.working - 1 == 0 && s.waiter.WaitAsleep? then WaitWoken else s.waiter)
    case Deregister => s.(alive := s.alive - 1)
    case LoopTest | Recheck => s
  }

  function NextSubmitterPc(pc: SubmitterPc): SubmitterPc
    requires !pc.Quiet?
  {
    match pc
    case PushLock(job) => PushBody(job)
    case PushBody(_) => PushPost
    case PushPost => PushUnlock
    case PushUnlock => Quiet
  }

  function SubmitterEffect(s: Pool, pc: SubmitterPc): Pool
    requires SubmitterCan(s, pc)
  {
    match pc
    case PushLock(_) => s.(rwFree := s.rwFree - 1)
    case PushBody(job) =>
      var node := Node(|s.h.pushed|, job);
      s.(queue := s.queue + [node], h := s.h.(pushed := s.h.pushed + [node]))
    case PushPost => s.(token := true)
    case PushUnlock => s.(rwFree := s.rwFree + 1)
  }

  function WaiterEffect(s: Pool): Pool
    requires WaiterCan(s)
  {
    match s.waiter
    case WaitLock | WaitWoken => s.(thcountFree := false, waiter := ReadLen)
    case ReadLen =>
      s.(waiter := if s.queue != [] then ToSleep else ReadWorking,
         h := s.h.(seenByWait := |s.h.pushed|))
    case ReadWorking => s.(waiter := if s.working != 0 then ToSleep else WaitUnlock)
    case ToSleep => s.(thcountFree := true, waiter := WaitAsleep)
    case WaitUnlock => s.(thcountFree := true, waiter := Returned)
  }

  function DestroyerEffect(s: Pool): Pool
    requires DestroyerCan(s)
  {
    match s.destroyer
    case Stopping => s.(keepalive := false, destroyer := Polling)
    case Polling => s.(destroyer := if s.alive != 0 then Broadcasting else Clearing)
    case Broadcasting => s.(token := true, destroyer := Polling)
    case Clearing =>
      var pulled := PullOf(s.queue);
      if pulled.job.None? then
        s.(destroyer := Resetting)
      else
        s.(queue := pulled.rest, token := s.token || pulled.posts,
           h := s.h.(taken := s.h.taken + 1, cleared := s.h.cleared + 1,
                     freed := s.h.freed + multiset{pulled.job.value}))
    case Resetting => s.(queue := [], token := false, destroyer := Finished)
  }

  /** What a step does to everything but the program counters of workers and submitters. */
  function Effect(s: Pool, a: Action): Pool
    requires Enabled(s, a)
  {
    match a
    case PoolReady => s.(ready := true)
    case Wait => s.(waiter := WaitLock)
    case Destroy => s.(destroyer := Stopping)
    case SpuriousWaiterWake => s.(waiter := WaitWoken)
    case Worker(i, _) => WorkerEffect(s, s.workers[i])
    case Submitter(j, _) => SubmitterEffect(s, s.submitters[j])
    case Waiter => WaiterEffect(s)
    case Destroyer(_) => DestroyerEffect(s)
    case Submit(_, _) | SpuriousWake(_) => s
  }

  function WorkersAfter(s: Pool, a: Action): seq<WorkerPc>
    requires Enabled(s, a)
  {
    match a
    case Worker(i, pick) =>
      var pc := s.workers[i];
      (if pc.PullPost? then Signal(s.workers, pick) else s.workers)[i := NextPc(s, pc)]
    case Submitter(j, pick) =>
      if s.submitters[j].PushPost? then Signal(s.workers, pick) else s.workers
    case SpuriousWake(i) => Signal(s.workers, i)
    case Destroyer(pick) =>
      if s.destroyer.Broadcasting? then Broadcast(s.workers)
      else if s.destroyer.Clearing? && PullOf(s.queue).posts then Signal(s.workers, pick)
      else s.workers
    case _ => s.workers
  }

  function SubmittersAfter(s: Pool, a: Action): seq<SubmitterPc>
    requires Enabled(s, a)
  {
    match a
    case Submit(j, job) => s.submitters[j := PushLock(job)]
    case Submitter(j, _) => s.submitters[j := NextSubmitterPc(s.submitters[j])]
    case _ => s.submitters
  }

  function Do(s: Pool, a: Action): Pool
    requires Enabled(s, a)
  {
    Effect(s, a).(workers := WorkersAfter(s, a), submitters := SubmittersAfter(s, a))
  }

  // ---------------------------------------------------------------- runs

  predicate CanRun(s: Pool, run: seq<Action>)
    decreases run
  {
    run == [] || (Enabled(s, run[0]) && CanRun(Do(s, run[0]), run[1..]))
  }

  function After(s: Pool, run: seq<Action>): Pool
    requires CanRun(s, run)
    decreases run
  {
    if run == [] then s else After(Do(s, run[0]), run[1..])
  }

  /** A state some run of a pool with these numbers of threads can reach. */
  ghost predicate Reachable(workers: nat, submitters: nat, s: Pool) {
    exists run: seq<Action> :: CanRun(Init(workers, submitters), run)
                            && After(Init(workers, submitters), run) == s
  }

  lemma {:induction false} RunExtends(s: Pool, run: seq<Action>, a: Action)
    requires CanRun(s, run) && Enabled(After(s, run), a)
    ensures CanRun(s, run + [a]) && After(s, run + [a]) == Do(After(s, run), a)
    decreases run
  {
    if run == [] {
      assert run + [a] == [a] && [a][1..] == [];
    } else {
      RunExtends(Do(s, run[0]), run[1..], a);
      assert (run + [a])[1..] == run[1..] + [a] && (run + [a])[0] == run[0];
    }
  }

  lemma StepReachable(n: nat, m: nat, s: Pool, a: Action)
    requires Reachable(n, m, s) && Enabled(s, a)
    ensures Reachable(n, m, Do(s, a))
  {
    var run: seq<Action> :| CanRun(Init(n, m), run) && After(Init(n, m), run) == s;
    RunExtends(Init(n, m), run, a);
  }

  lemma {:induction false} RunReachable(n: nat, m: nat, s: Pool, run: seq<Action>)
    requires Reachable(n, m, s) && CanRun(s, run)
    ensures Reachable(n, m, After(s, run))
    decreases run
  {
    if run != [] {
      StepReachable(n, m, s, run[0]);
      RunReachable(n, m, Do(s, run[0]), run[1..]);
    }
  }
}
