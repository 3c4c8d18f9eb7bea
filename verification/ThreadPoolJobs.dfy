/** The jobs that the pool runs are the jobs that its callers submitted: what the calls in a run
    pass in, compared with what its workers execute. */
module ThreadPoolJobs {
  import opened Basics
  import opened Counting
  import opened JobQueue
  import opened ThreadPool
  import opened ThreadPoolInvariant
  import opened ThreadPoolSignals
  import opened ThreadPoolSafety
  import opened ThreadPoolProgress

  // ---------------------------------------------------------------- what calls pass in

  /** The jobs passed to thpool_add_work, by anybody and by submitter j, in the order of the
      calls. */
  function Submitted(run: seq<Action>): seq<Job> {
    if run == [] then [] else (if run[0].Submit? then [run[0].job] else []) + Submitted(run[1..])
  }

  function SubmittedBy(run: seq<Action>, j: nat): seq<Job> {
    if run == [] then [] else Passed(run[0], j) + SubmittedBy(run[1..], j)
  }

  function Passed(a: Action, j: nat): seq<Job> {
    if a.Submit? && a.j == j then [a.job] else []
  }

  function Jobs(nodes: seq<Node>): (jobs: seq<Job>)
    ensures |jobs| == |nodes|
  {
    seq(|nodes|, i requires 0 <= i < |nodes| => nodes[i].job)
  }

  /** The job of a call that has not put it on the queue yet. */
  function InHand(pc: SubmitterPc): seq<Job> {
    match pc
    case PushLock(job) => [job]
    case PushBody(job) => [job]
    case _ => []
  }

  /** What a step puts on the queue. */
  function Pushed(s: Pool, a: Action): seq<Job>
    requires Enabled(s, a)
  {
    var now := Do(s, a).h.pushed;
    if |s.h.pushed| <= |now| then Jobs(now[|s.h.pushed|..]) else []
  }

  function PushedBy(s: Pool, run: seq<Action>, j: nat): seq<Job>
    requires CanRun(s, run)
    decreases run
  {
    if run == [] then []
    else (if run[0].Submitter? && run[0].j == j then Pushed(s, run[0]) else [])
         + PushedBy(Do(s, run[0]), run[1..], j)
  }

  // ---------------------------------------------------------------- each submitter's jobs, in order

  lemma SubmitterPushesItsJob(s: Pool, pc: SubmitterPc)
    requires SubmitterCan(s, pc)
    ensures var t := SubmitterEffect(s, pc);
      s.h.pushed <= t.h.pushed && Jobs(t.h.pushed[|s.h.pushed|..]) + InHand(NextSubmitterPc(pc)) == InHand(pc)
  {
    match pc
    case PushBody(job) =>
      var t := SubmitterEffect(s, pc);
      assert Jobs(t.h.pushed[|s.h.pushed|..]) == [job];
    case _ =>
  }

  lemma OthersPushNothing(s: Pool, a: Action)
    requires Enabled(s, a) && !a.Submitter?
    ensures Effect(s, a).h.pushed == s.h.pushed
  {
    match a
    case Worker(i, _) => WorkerPulls(s, s.workers[i]);
    case Waiter =>
    case Destroyer(_) =>
    case _ =>
  }

  lemma StepCarriesJobs(s: Pool, a: Action, j: nat)
    requires Enabled(s, a) && j < |s.submitters|
    ensures |SubmittersAfter(s, a)| == |s.submitters|
    ensures (if a.Submitter? && a.j == j then Pushed(s, a) else []) + InHand(SubmittersAfter(s, a)[j])
         == InHand(s.submitters[j]) + Passed(a, j)
  {
    if a.Submitter? {
      SubmitterPushesItsJob(s, s.submitters[a.j]);
    }
  }

  lemma Chain(push: seq<Job>, hand: seq<Job>, was: seq<Job>, pass: seq<Job>,
              pushes: seq<Job>, end: seq<Job>, passes: seq<Job>)
    requires push + hand == was + pass && pushes + end == hand + passes
    ensures (push + pushes) + end == was + (pass + passes)
  {
    calc {
      (push + pushes) + end;
      push + (pushes + end);
      (push + hand) + passes;
      was + (pass + passes);
    }
  }

  lemma {:induction false} RunCarriesJobs(s: Pool, run: seq<Action>, j: nat)
    requires CanRun(s, run) && j < |s.submitters|
    ensures |After(s, run).submitters| == |s.submitters|
    ensures PushedBy(s, run, j) + InHand(After(s, run).submitters[j])
         == InHand(s.submitters[j]) + SubmittedBy(run, j)
    decreases run
  {
    if run != [] {
      var a, t := run[0], Do(s, run[0]);
      StepCarriesJobs(s, a, j);
      RunCarriesJobs(t, run[1..], j);
      Chain(if a.Submitter? && a.j == j then Pushed(s, a) else [], InHand(t.submitters[j]),
            InHand(s.submitters[j]), Passed(a, j),
            PushedBy(t, run[1..], j), InHand(After(s, run).submitters[j]), SubmittedBy(run[1..], j));
    }
  }

  /** Every submitter's jobs go on the queue unchanged and in the order of its calls; at most the
      last one is still in its hands. */
  lemma EachPushesWhatItSubmits(n: nat, m: nat, run: seq<Action>, j: nat)
    requires CanRun(Init(n, m), run) && j < m
    ensures var s := After(Init(n, m), run);
      && |s.submitters| == m
      && PushedBy(Init(n, m), run, j) + InHand(s.submitters[j]) == SubmittedBy(run, j)
  {
    RunCarriesJobs(Init(n, m), run, j);
  }

  // ---------------------------------------------------------------- all jobs together

  ghost function Hand(pc: SubmitterPc): multiset<Job> { multiset(InHand(pc)) }

  lemma StepSubmitterGather(s: Pool, a: Action)
    requires Enabled(s, a)
    ensures Gather(SubmittersAfter(s, a), Hand) + multiset(if a.Submitter? then InHand(s.submitters[a.j]) else [])
         == Gather(s.submitters, Hand)
            + multiset(if a.Submitter? then InHand(NextSubmitterPc(s.submitters[a.j])) else [])
            + multiset(if a.Submit? then [a.job] else [])
  {
    match a
    case Submit(j, job) => GatherUpdate(s.submitters, j, PushLock(job), Hand);
    case Submitter(j, _) => GatherUpdate(s.submitters, j, NextSubmitterPc(s.submitters[j]), Hand);
    case _ =>
  }

  lemma JobsJoin(a: seq<Node>, b: seq<Node>)
    ensures Jobs(a + b) == Jobs(a) + Jobs(b)
  {
  }

  lemma StepPushes(s: Pool, a: Action)
    requires Enabled(s, a)
    ensures Jobs(Do(s, a).h.pushed) == Jobs(s.h.pushed) + Pushed(s, a)
    ensures Pushed(s, a) + (if a.Submitter? then InHand(NextSubmitterPc(s.submitters[a.j])) else [])
         == (if a.Submitter? then InHand(s.submitters[a.j]) else [])
  {
    if a.Submitter? {
      SubmitterPushesItsJob(s, s.submitters[a.j]);
    } else {
      OthersPushNothing(s, a);
    }
    var now := Do(s, a).h.pushed;
    JobsJoin(s.h.pushed, now[|s.h.pushed|..]);
    assert now == s.h.pushed + now[|s.h.pushed|..];
  }

  ghost function OnTheWay(s: Pool): multiset<Job> {
    multiset(Jobs(s.h.pushed)) + Gather(s.submitters, Hand)
  }

  lemma Transfer(p: multiset<Job>, q: multiset<Job>, g: multiset<Job>, h: multiset<Job>,
                 x: multiset<Job>, y: multiset<Job>, z: multiset<Job>)
    requires h + x == g + y + z && q + y == x
    ensures p + q + h == p + g + z
  {
    forall j: Job
      ensures (p + q + h)[j] == (p + g + z)[j]
    {
      assert (h + x)[j] == (g + y + z)[j] && (q + y)[j] == x[j];
    }
  }

  lemma StepKeepsJobs(s: Pool, a: Action)
    requires Enabled(s, a)
    ensures OnTheWay(Do(s, a)) == OnTheWay(s) + multiset(if a.Submit? then [a.job] else [])
  {
    StepPushes(s, a);
    StepSubmitterGather(s, a);
    var x := if a.Submitter? then InHand(s.submitters[a.j]) else [];
    var y := if a.Submitter? then InHand(NextSubmitterPc(s.submitters[a.j])) else [];
    assert multiset(Pushed(s, a) + y) == multiset(x);
    Transfer(multiset(Jobs(s.h.pushed)), multiset(Pushed(s, a)),
             Gather(s.submitters, Hand), Gather(SubmittersAfter(s, a), Hand),
             multiset(x), multiset(y), multiset(if a.Submit? then [a.job] else []));
  }

  lemma {:induction false} RunKeepsJobs(s: Pool, run: seq<Action>)
    requires CanRun(s, run)
    ensures OnTheWay(After(s, run)) == OnTheWay(s) + multiset(Submitted(run))
    decreases run
  {
    if run != [] {
      StepKeepsJobs(s, run[0]);
      RunKeepsJobs(Do(s, run[0]), run[1..]);
    }
  }

  /** In every run the jobs on record as pushed and those still in submitters' hands are, each
      once, the jobs submitted. */
  lemma PushedAreSubmitted(n: nat, m: nat, run: seq<Action>)
    requires CanRun(Init(n, m), run)
    ensures var s := After(Init(n, m), run);
      multiset(Jobs(s.h.pushed)) + Gather(s.submitters, Hand) == multiset(Submitted(run))
  {
    RunKeepsJobs(Init(n, m), run);
    GatherNothing(Init(n, m).submitters, Hand);
  }

  // ---------------------------------------------------------------- what workers run

  /** The nodes whose jobs the workers call, in the order of the calls. */
  function Ran(s: Pool, run: seq<Action>): seq<Node>
    requires CanRun(s, run)
    decreases run
  {
    if run == [] then []
    else (if run[0].Worker? && s.workers[run[0].i].Execute? then [s.workers[run[0].i].node] else [])
         + Ran(Do(s, run[0]), run[1..])
  }

  lemma OthersRunNothing(s: Pool, a: Action)
    requires Enabled(s, a) && !a.Worker?
    ensures Effect(s, a).h.executed == s.h.executed
  {
    match a
    case Submitter(_, _) =>
    case Waiter =>
    case Destroyer(_) =>
    case _ =>
  }

  lemma StepRuns(s: Pool, a: Action)
    requires Enabled(s, a)
    ensures Do(s, a).h.executed == s.h.executed
      + multiset(if a.Worker? && s.workers[a.i].Execute? then [s.workers[a.i].node] else [])
  {
    if a.Worker? {
      WorkerHistory(s, s.workers[a.i]);
    } else {
      OthersRunNothing(s, a);
    }
  }

  lemma {:induction false} RunRuns(s: Pool, run: seq<Action>)
    requires CanRun(s, run)
    ensures After(s, run).h.executed == s.h.executed + multiset(Ran(s, run))
    decreases run
  {
    if run != [] {
      StepRuns(s, run[0]);
      RunRuns(Do(s, run[0]), run[1..]);
    }
  }

  function Without(b: seq<Node>, k: nat): seq<Node>
    requires k < |b|
  {
    b[..k] + b[k + 1..]
  }

  lemma OneMore(b: seq<Node>, k: nat)
    requires k < |b|
    ensures multiset(b) == multiset(Without(b, k)) + multiset{b[k]}
    ensures multiset(Jobs(b)) == multiset(Jobs(Without(b, k))) + multiset{b[k].job}
  {
    assert b == b[..k] + [b[k]] + b[k + 1..];
    JobsJoin(b[..k], b[k + 1..]);
    JobsJoin(b[..k] + [b[k]], b[k + 1..]);
    JobsJoin(b[..k], [b[k]]);
    assert Jobs([b[k]]) == [b[k].job];
  }

  lemma OneLess(a: multiset<Node>, b: multiset<Node>, x: Node)
    requires a + multiset{x} <= b + multiset{x}
    ensures a <= b
  {
    forall y: Node
      ensures a[y] <= b[y]
    {
      assert (a + multiset{x})[y] <= (b + multiset{x})[y];
    }
  }

  /** Nodes that are among others bring along jobs that are among theirs. */
  lemma {:induction false} JobsAmong(a: seq<Node>, b: seq<Node>)
    requires multiset(a) <= multiset(b)
    ensures multiset(Jobs(a)) <= multiset(Jobs(b))
    decreases a
  {
    if a != [] {
      OneMore(a, 0);
      assert Without(a, 0) == a[1..];
      assert a[0] in multiset(b);
      var k :| 0 <= k < |b| && b[k] == a[0];
      OneMore(b, k);
      OneLess(multiset(a[1..]), multiset(Without(b, k)), a[0]);
      JobsAmong(a[1..], Without(b, k));
    }
  }

  lemma ReachedBy(n: nat, m: nat, run: seq<Action>)
    requires CanRun(Init(n, m), run)
    ensures Reachable(n, m, After(Init(n, m), run))
  {
  }

  lemma ExecutedArePushed(n: nat, m: nat, s: Pool)
    requires Reachable(n, m, s)
    ensures s.h.executed <= multiset(s.h.pushed)
  {
    ReachableInv(n, m, s);
    var k := s.h.taken - s.h.cleared;
    assert s.h.pushed == s.h.pushed[..k] + s.h.pushed[k..];
    assert s.h.executed <= s.h.executed + Gather(s.workers, ToRun);
  }

  /** The functions and arguments that workers call are those that callers submitted: no job is
      called more often than it was submitted, and when no thread of a running pool can move,
      exactly as often. */
  lemma RunsWhatIsSubmitted(n: nat, m: nat, run: seq<Action>)
    requires CanRun(Init(n, m), run)
    ensures var s := After(Init(n, m), run); var ran := Jobs(Ran(Init(n, m), run));
      && multiset(ran) <= multiset(Submitted(run))
      && (n >= 1 && s.keepalive && Settled(s) ==> multiset(ran) == multiset(Submitted(run)))
  {
    var s, ran := After(Init(n, m), run), Ran(Init(n, m), run);
    ReachedBy(n, m, run);
    RunRuns(Init(n, m), run);
    assert s.h.executed == multiset(ran);
    ExecutedArePushed(n, m, s);
    JobsAmong(ran, s.h.pushed);
    PushedAreSubmitted(n, m, run);
    if n >= 1 && s.keepalive && Settled(s) {
      SettledMeansDone(n, m, s);
      JobsAmong(s.h.pushed, ran);
      GatherNothing(s.submitters, Hand);
    }
  }

  // ---------------------------------------------------------------- thpool_wait for its caller

  /** In state s, some time after a call of thpool_wait that found `before` pushed: the last look
      at the queue came after the call. */
  predicate LooksLater(before: seq<Node>, s: Pool) {
    && before <= s.h.pushed
    && !s.waiter.NotWaiting?
    && (s.waiter.ReadWorking? || s.waiter.WaitUnlock? || s.waiter.Returned? ==> |before| <= s.h.seenByWait)
  }

  lemma WorkerLooksLater(before: seq<Node>, s: Pool, pc: WorkerPc)
    requires LooksLater(before, s) && WorkerCan(s, pc)
    ensures LooksLater(before, WorkerEffect(s, pc))
  {
    match pc
    case PullBody =>
    case EndWork =>
    case _ =>
  }

  lemma WaiterLooksLater(before: seq<Node>, s: Pool)
    requires LooksLater(before, s) && WaiterCan(s)
    ensures LooksLater(before, WaiterEffect(s))
  {
    match s.waiter
    case ReadLen =>
    case _ =>
  }

  lemma OthersLookLater(before: seq<Node>, s: Pool, a: Action)
    requires LooksLater(before, s) && Enabled(s, a) && !a.Worker?
    ensures LooksLater(before, Effect(s, a))
  {
    if a.Waiter? {
      WaiterLooksLater(before, s);
    } else {
      OthersLeaveRecords(s, a);
      OthersLeaveWait(s, a);
    }
  }

  lemma {:induction false} RunLooksLater(before: seq<Node>, s: Pool, run: seq<Action>)
    requires LooksLater(before, s) && CanRun(s, run)
    ensures LooksLater(before, After(s, run))
    decreases run
  {
    if run != [] {
      if run[0].Worker? {
        WorkerLooksLater(before, s, s.workers[run[0].i]);
      } else {
        OthersLookLater(before, s, run[0]);
      }
      RunLooksLater(before, Do(s, run[0]), run[1..]);
    }
  }

  /** thpool_wait as its caller sees it: when a call made in state s has returned, and
      thpool_destroy has not come to its clear, every job that was on record as pushed at the call
      has been run. */
  lemma WaitRunsEarlierJobs(n: nat, m: nat, s: Pool, run: seq<Action>)
    requires Reachable(n, m, s) && Enabled(s, Wait) && CanRun(Do(s, Wait), run)
    ensures var t := After(Do(s, Wait), run);
      t.waiter.Returned? && !PastPolling(t.destroyer) ==> multiset(s.h.pushed) <= t.h.executed
  {
    var t := After(Do(s, Wait), run);
    RunLooksLater(s.h.pushed, Do(s, Wait), run);
    if t.waiter.Returned? && !PastPolling(t.destroyer) {
      StepReachable(n, m, s, Wait);
      RunReachable(n, m, Do(s, Wait), run);
      BarrierIsSound(n, m, t);
      assert t.h.pushed[..t.h.seenByWait] == s.h.pushed + t.h.pushed[|s.h.pushed|..t.h.seenByWait];
    }
  }
}
