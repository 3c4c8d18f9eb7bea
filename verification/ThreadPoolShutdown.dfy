/** thpool_destroy comes to an end: its broadcasts retire all workers, one in each round at least,
    and from then on it has only a known number of steps to make.  Meanwhile hardly any more jobs
    are started. */
module ThreadPoolShutdown {
  import opened Basics
  import opened Counting
  import opened JobQueue
  import opened ThreadPool
  import opened ThreadPoolInvariant
  import opened ThreadPoolSignals
  import opened ThreadPoolSafety
  import opened ThreadPoolProgress

  // ---------------------------------------------------------------- rounds

  /** A run up to a broadcast of thpool_destroy, the broadcast, and a run from there until none
      of the pool's threads can move. */
  datatype Round = Round(before: seq<Action>, pick: nat, after: seq<Action>)

  ghost predicate CanRound(s: Pool, r: Round) {
    && CanRun(s, r.before)
    && After(s, r.before).destroyer.Broadcasting?
    && Enabled(After(s, r.before), Destroyer(r.pick))
    && CanRun(Do(After(s, r.before), Destroyer(r.pick)), r.after)
    && Settled(AfterRound(s, r))
  }

  function AfterRound(s: Pool, r: Round): Pool
    requires CanRun(s, r.before) && Enabled(After(s, r.before), Destroyer(r.pick))
    requires CanRun(Do(After(s, r.before), Destroyer(r.pick)), r.after)
  {
    After(Do(After(s, r.before), Destroyer(r.pick)), r.after)
  }

  ghost predicate CanRounds(s: Pool, rounds: seq<Round>)
    decreases rounds
  {
    rounds == [] || (CanRound(s, rounds[0]) && CanRounds(AfterRound(s, rounds[0]), rounds[1..]))
  }

  ghost function AfterRounds(s: Pool, rounds: seq<Round>): Pool
    requires CanRounds(s, rounds)
    decreases rounds
  {
    if rounds == [] then s else AfterRounds(AfterRound(s, rounds[0]), rounds[1..])
  }

  /** Once thpool_init has returned, nobody registers any more. */
  lemma NoNewWorkers(s: Pool, a: Action)
    requires Inv(s) && s.ready && Enabled(s, a)
    ensures Do(s, a).ready && Do(s, a).alive <= s.alive
  {
    if a.Worker? {
      SumAtLeast(s.workers, a.i, Unregistered);
      WorkerPhaseFlow(s, s.workers[a.i]);
      WorkerOnlyLeaves(s, s.workers[a.i]);
    } else {
      OthersLeaveCounters(s, a);
    }
  }

  lemma WorkerOnlyLeaves(s: Pool, pc: WorkerPc)
    requires WorkerCan(s, pc) && !pc.Start?
    ensures WorkerEffect(s, pc).alive <= s.alive
  {
    match pc
    case PullBody =>
    case _ =>
  }

  lemma {:induction false} NoNewWorkersInRun(s: Pool, run: seq<Action>)
    requires Inv(s) && s.ready && CanRun(s, run)
    ensures Inv(After(s, run)) && After(s, run).ready && After(s, run).alive <= s.alive
    decreases run
  {
    if run != [] {
      StepKeepsInv(s, run[0]);
      NoNewWorkers(s, run[0]);
      NoNewWorkersInRun(Do(s, run[0]), run[1..]);
    }
  }

  lemma RoundRetires(s: Pool, r: Round)
    requires Inv(s) && s.ready && CanRound(s, r)
    ensures Inv(AfterRound(s, r)) && AfterRound(s, r).ready
    ensures AfterRound(s, r).alive <= Max(0, s.alive - 1)
  {
    var u := After(s, r.before);
    var v := Do(u, Destroyer(r.pick));
    NoNewWorkersInRun(s, r.before);
    StepKeepsInv(u, Destroyer(r.pick));
    NoNewWorkers(u, Destroyer(r.pick));
    NoNewWorkersInRun(v, r.after);
    if u.alive > 0 {
      BroadcastRetires(u, r.pick, r.after);
    }
  }

  lemma {:induction false} RoundsRetire(s: Pool, rounds: seq<Round>)
    requires Inv(s) && s.ready && CanRounds(s, rounds)
    ensures Inv(AfterRounds(s, rounds)) && AfterRounds(s, rounds).ready
    ensures AfterRounds(s, rounds).alive <= Max(0, s.alive - |rounds|)
    decreases rounds
  {
    NobodyRegistered(s);
    if rounds != [] {
      RoundRetires(s, rounds[0]);
      RoundsRetire(AfterRound(s, rounds[0]), rounds[1..]);
    }
  }

  /** Every round retires a worker while there is one, so after n rounds, however they came
      about, all n workers have gone. */
  lemma RoundsRetireAll(n: nat, m: nat, s: Pool, rounds: seq<Round>)
    requires Reachable(n, m, s) && s.ready && CanRounds(s, rounds)
    ensures var t := AfterRounds(s, rounds);
      && t.alive <= Max(0, s.alive - |rounds|) <= Max(0, n - |rounds|)
      && (|rounds| >= n ==>
            t.alive == 0 && forall i | 0 <= i < |t.workers| :: t.workers[i].Gone?)
  {
    ReachableInv(n, m, s);
    RoundsRetire(s, rounds);
    SumAtMostLength(s.workers, Registered);
    NobodyRegistered(AfterRounds(s, rounds));
  }

  lemma NobodyRegistered(s: Pool)
    requires Inv(s) && s.ready
    ensures s.alive >= 0
    ensures s.alive == 0 ==> forall i | 0 <= i < |s.workers| :: s.workers[i].Gone?
  {
    SumNonNegative(s.workers, Registered);
    if s.alive == 0 {
      NobodyAlive(s);
    }
  }

  // ---------------------------------------------------------------- the rest of thpool_destroy

  /** The steps thpool_destroy still has to make when nobody is alive. */
  function StepsLeft(s: Pool): (left: nat)
    ensures left <= |s.queue| + 4
    ensures left == 0 <==> s.destroyer.Finished?
  {
    match s.destroyer
    case Polling => |s.queue| + 3
    case Clearing => |s.queue| + 2
    case Resetting => 1
    case Finished => 0
    case _ => |s.queue| + 4
  }

  function DestroyerSteps(run: seq<Action>): nat {
    if run == [] then 0 else (if run[0].Destroyer? then 1 else 0) + DestroyerSteps(run[1..])
  }

  /** The flag is cleared and nobody is alive. */
  predicate Deserted(s: Pool) { !s.keepalive && s.alive == 0 }

  lemma DestroyerCountsDown(s: Pool)
    requires DestroyerCan(s) && Deserted(s) && Shutdown(s)
    ensures var t := DestroyerEffect(s);
      StepsLeft(t) == StepsLeft(s) - 1 && Deserted(t)
  {
    match s.destroyer
    case Clearing =>
    case _ =>
  }

  lemma OnlyDestroyerActs(s: Pool, a: Action)
    requires Inv(s) && Deserted(s) && Enabled(s, a) && !a.Destroyer?
    ensures a.Waiter? || a.SpuriousWaiterWake?
  {
    NobodyAlive(s);
    if a.Submitter? {
      SumAtLeast(s.submitters, a.j, Busy);
    }
  }

  lemma WaiterLeavesShutdown(s: Pool, a: Action)
    requires Enabled(s, a) && (a.Waiter? || a.SpuriousWaiterWake?)
    ensures var t := Effect(s, a);
      && t.destroyer == s.destroyer && t.queue == s.queue
      && t.keepalive == s.keepalive && t.alive == s.alive
  {
  }

  lemma DesertedEffect(s: Pool, a: Action)
    requires Inv(s) && Deserted(s) && Enabled(s, a)
    ensures var t := Effect(s, a);
      Deserted(t) && StepsLeft(t) == StepsLeft(s) - (if a.Destroyer? then 1 else 0)
  {
    if a.Destroyer? {
      DestroyerCountsDown(s);
    } else {
      OnlyDestroyerActs(s, a);
      WaiterLeavesShutdown(s, a);
    }
  }

  lemma DesertedStep(s: Pool, a: Action) returns (t: Pool)
    requires Inv(s) && Deserted(s) && Enabled(s, a)
    ensures t == Do(s, a) && Inv(t) && Deserted(t)
    ensures StepsLeft(t) == StepsLeft(s) - (if a.Destroyer? then 1 else 0)
  {
    t := Do(s, a);
    StepKeepsInv(s, a);
    DesertedEffect(s, a);
    SameStepsLeft(Effect(s, a), t);
  }

  lemma SameStepsLeft(s: Pool, t: Pool)
    requires s.destroyer == t.destroyer && s.queue == t.queue
    ensures StepsLeft(s) == StepsLeft(t)
  {
  }

  lemma {:induction false} DesertedRun(s: Pool, run: seq<Action>)
    requires Inv(s) && Deserted(s) && CanRun(s, run)
    ensures DestroyerSteps(run) + StepsLeft(After(s, run)) == StepsLeft(s)
    decreases run
  {
    if run != [] {
      var t := DesertedStep(s, run[0]);
      DesertedRun(t, run[1..]);
    }
  }

  /** Once the flag is cleared and nobody is alive, whatever else happens, thpool_destroy returns
      after exactly as many steps of its own as StepsLeft says: one for each job it throws away
      and at most four more. */
  lemma DestroyReturns(n: nat, m: nat, s: Pool, run: seq<Action>)
    requires Reachable(n, m, s) && Deserted(s) && CanRun(s, run)
    ensures DestroyerSteps(run) <= StepsLeft(s) <= |s.queue| + 4
    ensures After(s, run).destroyer.Finished? <==> DestroyerSteps(run) == StepsLeft(s)
  {
    ReachableInv(n, m, s);
    DesertedRun(s, run);
  }

  // ---------------------------------------------------------------- work done late

  /** Whether a worker may still return from bsem_wait, or pull, when the flag is cleared. */
  function Quota(pc: WorkerPc): int {
    if pc.BsemWait? || pc.Asleep? || pc.Woken? then 1 else Committed(pc)
  }

  /** Between the second test of the flag and the pull. */
  function Committed(pc: WorkerPc): int {
    if pc.BeginWork? || pc.PullLock? || pc.PullBody? then 1 else 0
  }

  /** Worker i returns from bsem_wait or takes a node off the queue. */
  predicate IsLate(s: Pool, a: Action, i: nat)
    requires Enabled(s, a)
  {
    a.Worker? && a.i == i && (WorkersAfter(s, a)[i].Recheck? || Do(s, a).h.taken > s.h.taken)
  }

  function LateEvents(s: Pool, run: seq<Action>, i: nat): nat
    requires CanRun(s, run)
    decreases run
  {
    if run == [] then 0
    else (if IsLate(s, run[0], i) then 1 else 0) + LateEvents(Do(s, run[0]), run[1..], i)
  }

  lemma WorkerUsesQuota(s: Pool, pc: WorkerPc)
    requires WorkerCan(s, pc) && !s.keepalive
    ensures var t := WorkerEffect(s, pc);
      && !t.keepalive && s.h.taken <= t.h.taken && t.h.cleared == s.h.cleared
      && Quota(NextPc(s, pc)) + (if NextPc(s, pc).Recheck? || t.h.taken > s.h.taken then 1 else 0) <= Quota(pc)
      && t.h.taken + Committed(NextPc(s, pc)) <= s.h.taken + Committed(pc)
  {
    match pc
    case PullBody =>
    case PullUnlock(_) =>
    case BsemWait =>
    case Woken =>
    case _ =>
  }

  lemma StepUsesQuota(s: Pool, a: Action, i: nat)
    requires Shutdown(s) && !s.keepalive && Enabled(s, a) && i < |s.workers|
    ensures var t := Do(s, a);
      && !t.keepalive && |t.workers| == |s.workers|
      && Quota(t.workers[i]) + (if IsLate(s, a, i) then 1 else 0) <= Quota(s.workers[i])
  {
    if a.Worker? {
      WorkerUsesQuota(s, s.workers[a.i]);
    } else {
      OthersLeaveFlag(s, a);
      OthersOnlyWake(s, a, i);
    }
  }

  lemma OthersLeaveHandedOut(s: Pool, a: Action)
    requires Enabled(s, a) && !a.Worker?
    ensures var t := Effect(s, a); t.h.taken - t.h.cleared == s.h.taken - s.h.cleared
  {
    match a
    case Submitter(_, _) =>
    case Waiter =>
    case Destroyer(_) =>
    case _ =>
  }

  lemma StepUsesCommitted(s: Pool, a: Action)
    requires !s.keepalive && Enabled(s, a)
    ensures var t := Do(s, a);
      t.h.taken - t.h.cleared + Sum(t.workers, Committed) <= s.h.taken - s.h.cleared + Sum(s.workers, Committed)
  {
    StepSum(s, a, Committed);
    if a.Worker? {
      WorkerUsesQuota(s, s.workers[a.i]);
    } else {
      OthersLeaveHandedOut(s, a);
    }
  }

  lemma {:induction false} RunUsesQuota(s: Pool, run: seq<Action>, i: nat)
    requires Inv(s) && !s.keepalive && CanRun(s, run) && i < |s.workers|
    ensures |After(s, run).workers| == |s.workers|
    ensures LateEvents(s, run, i) + Quota(After(s, run).workers[i]) <= Quota(s.workers[i])
    decreases run
  {
    if run != [] {
      StepKeepsInv(s, run[0]);
      StepUsesQuota(s, run[0], i);
      RunUsesQuota(Do(s, run[0]), run[1..], i);
    }
  }

  lemma {:induction false} RunUsesCommitted(s: Pool, run: seq<Action>)
    requires Inv(s) && !s.keepalive && CanRun(s, run)
    ensures var t := After(s, run);
      t.h.taken - t.h.cleared + Sum(t.workers, Committed) <= s.h.taken - s.h.cleared + Sum(s.workers, Committed)
    decreases run
  {
    if run != [] {
      StepKeepsInv(s, run[0]);
      FlagStaysCleared(s, run[0]);
      StepUsesCommitted(s, run[0]);
      RunUsesCommitted(Do(s, run[0]), run[1..]);
    }
  }

  lemma FlagStaysCleared(s: Pool, a: Action)
    requires Shutdown(s) && !s.keepalive && Enabled(s, a)
    ensures !Do(s, a).keepalive
  {
    if a.Worker? {
      WorkerPhaseFlow(s, s.workers[a.i]);
    } else {
      OthersLeaveFlag(s, a);
    }
  }

  /** Whatever happens after the flag is cleared, each worker comes out of bsem_wait at most once
      or takes at most one more node, and not both, and then does neither again; and all workers
      together take no more nodes than there were workers between the second flag test and the
      pull. */
  lemma FewJobsAfterStop(n: nat, m: nat, s: Pool, run: seq<Action>, i: nat)
    requires Reachable(n, m, s) && !s.keepalive && CanRun(s, run) && i < n
    ensures |s.workers| == |After(s, run).workers| == n
    ensures LateEvents(s, run, i) + Quota(After(s, run).workers[i]) <= Quota(s.workers[i]) <= 1
    ensures var t := After(s, run);
      (t.h.taken - t.h.cleared) - (s.h.taken - s.h.cleared) <= Sum(s.workers, Committed)
  {
    ReachableInv(n, m, s);
    RunUsesQuota(s, run, i);
    RunUsesCommitted(s, run);
    SumNonNegative(After(s, run).workers, Committed);
  }
}
