/** Pthread/producer_consumer.c: one producer that generates random batches until it has made at
    least num_gen numbers, and one consumer that takes exactly num_gen of them, over a stack
    guarded by a semaphore.  The last batch may overshoot. */
module ProducerConsumer {
  import opened Basics

  /** What a producer that draws `draw` may generate when there is that much room. */
  predicate IsBatch(digits: seq<int>, draw: nat, room: int) {
    |digits| == Min(draw, room) && forall d | d in digits :: 0 <= d < 10
  }

  class Buffer {
    const capacity: nat
    var size: nat
    const data: array<int>

    ghost predicate Valid()
      reads this
    {
      capacity == data.Length && size <= capacity
    }

    ghost function Stack(): seq<int>
      requires Valid()
      reads this, data
    {
      data[..size]
    }

    constructor (capacity: nat)
      ensures Valid() && fresh(data) && this.capacity == capacity && Stack() == []
    {
      this.capacity := capacity;
      data := new int[capacity];
      size := 0;
    }

    /** The producer's turn in the critical section: draw is its random number, digits are the
        random digits; returns how many it has generated. */
    method Generate(draw: nat, digits: seq<int>) returns (generated: nat)
      requires Valid() && IsBatch(digits, draw, capacity - size)
      modifies this, data
      ensures Valid() && Stack() == old(Stack()) + digits && generated == |digits|
    {
      generated := 0;
      if capacity - size > 0 {
        var batch := Min(draw, capacity - size);
        if batch == 0 {
          return;
        }
        ghost var was := Stack();
        for i := 0 to batch
          invariant Valid() && size == |was| + i
          invariant Stack() == was + digits[..i]
        {
          data[size] := digits[i];
          size := size + 1;
        }
        assert digits[..batch] == digits;
        generated := batch;
      } else {
        assert digits == [];
      }
    }

    /** The consumer's turn; taken is the number it reports, if there is one. */
    method TakeOne() returns (taken: seq<int>)
      requires Valid()
      modifies this
      ensures Valid() && Stack() + taken == old(Stack())
      ensures |taken| == (if old(size) > 0 then 1 else 0)
    {
      taken := [];
      if size > 0 {
        taken := [data[size - 1]];
        size := size - 1;
      }
    }
  }

  // ---------------------------------------------------------------- the two loops

  /** batch is num_gen_per_loop: a draw is below it. */
  datatype Config = Config(capacity: nat, numGen: int, batch: nat)

  datatype Pc = Test | Lock | Turn | Unlock | Done

  datatype State = State(mutex: nat, stack: seq<int>, hasGen: int, hasRead: int,
                         remaining: int,  // the producer's total_gen_num
                         producer: Pc, consumer: Pc)

  function Init(c: Config): State {
    State(1, [], 0, 0, c.numGen, Test, Test)
  }

  datatype Action = Produce(draw: nat, digits: seq<int>) | Consume

  predicate Enabled(c: Config, s: State, a: Action) {
    var pc := if a.Produce? then s.producer else s.consumer;
    match pc
    case Done => false
    case Lock => s.mutex > 0
    case Turn => a.Produce? ==>
      && |s.stack| <= c.capacity && (|s.stack| < c.capacity ==> a.draw < c.batch)
      && IsBatch(a.digits, a.draw, c.capacity - |s.stack|)
    case _ => true
  }

  function DoProduce(c: Config, s: State, digits: seq<int>): State {
    match s.producer
    case Test => s.(producer := if s.remaining > 0 then Lock else Done)
    case Lock => s.(mutex := if s.mutex > 0 then s.mutex - 1 else 0, producer := Turn)
    case Turn =>
      s.(stack := s.stack + digits, remaining := s.remaining - |digits|, hasGen := s.hasGen + |digits|,
         producer := Unlock)
    case Unlock => s.(mutex := s.mutex + 1, producer := Test)
    case Done => s
  }

  function DoConsume(c: Config, s: State): State {
    match s.consumer
    case Test => s.(consumer := if s.hasRead != c.numGen then Lock else Done)
    case Lock => s.(mutex := if s.mutex > 0 then s.mutex - 1 else 0, consumer := Turn)
    case Turn =>
      if |s.stack| > 0 then
        s.(stack := s.stack[..|s.stack| - 1], hasRead := s.hasRead + 1, consumer := Unlock)
      else
        s.(consumer := Unlock)
    case Unlock => s.(mutex := s.mutex + 1, consumer := Test)
    case Done => s
  }

  function Do(c: Config, s: State, a: Action): State {
    match a
    case Produce(_, digits) => DoProduce(c, s, digits)
    case Consume => DoConsume(c, s)
  }

  predicate CanRun(c: Config, s: State, run: seq<Action>)
    decreases run
  {
    run == [] || (Enabled(c, s, run[0]) && CanRun(c, Do(c, s, run[0]), run[1..]))
  }

  function After(c: Config, s: State, run: seq<Action>): State
    decreases run
  {
    if run == [] then s else After(c, Do(c, s, run[0]), run[1..])
  }

  // ---------------------------------------------------------------- the invariant

  predicate Holds(pc: Pc) { pc.Turn? || pc.Unlock? }

  predicate Inv(c: Config, s: State) {
    && s.mutex + (if Holds(s.producer) then 1 else 0) + (if Holds(s.consumer) then 1 else 0) == 1
    && s.hasGen + s.remaining == c.numGen
    && |s.stack| == s.hasGen - s.hasRead <= c.capacity
    && 0 <= s.hasRead
    && (c.numGen >= 0 ==> s.hasRead <= c.numGen)
    && (s.producer.Lock? || s.producer.Turn? ==> s.remaining > 0)
    && (s.producer.Done? ==> s.remaining <= 0)
    && (s.consumer.Lock? || s.consumer.Turn? ==> s.hasRead != c.numGen)
    && (s.consumer.Done? ==> s.hasRead == c.numGen)
    && (s.remaining <= 0 ==> s.remaining == c.numGen || -s.remaining <= Min(c.batch - 2, c.capacity - 1))
  }

  lemma StepKeepsInv(c: Config, s: State, a: Action)
    requires Inv(c, s) && Enabled(c, s, a)
    ensures Inv(c, Do(c, s, a))
  {
  }

  lemma {:induction false} RunKeepsInv(c: Config, s: State, run: seq<Action>)
    requires Inv(c, s) && CanRun(c, s, run)
    ensures Inv(c, After(c, s, run))
    decreases run
  {
    if run != [] {
      StepKeepsInv(c, s, run[0]);
      RunKeepsInv(c, Do(c, s, run[0]), run[1..]);
    }
  }

  // ---------------------------------------------------------------- results

  /** The counters always agree with the stack, which never exceeds its capacity, and when the
      consumer has taken num_gen numbers the producer has nothing left to do. */
  lemma CountersAgree(c: Config, run: seq<Action>)
    requires CanRun(c, Init(c), run)
    ensures var s := After(c, Init(c), run);
      && s.hasGen + s.remaining == c.numGen
      && |s.stack| == s.hasGen - s.hasRead <= c.capacity
      && (s.hasRead == c.numGen ==> s.remaining <= 0)
  {
    RunKeepsInv(c, Init(c), run);
  }

  /** The digits that a step puts on the stack. */
  function Draw(s: State, a: Action): seq<int> {
    if a.Produce? && s.producer.Turn? then a.digits else []
  }

  /** What a consumer's turn finds on top of the stack. */
  function Take(s: State, a: Action): seq<int> {
    if a.Consume? && s.consumer.Turn? && s.stack != [] then [s.stack[|s.stack| - 1]] else []
  }

  function Drawn(c: Config, s: State, run: seq<Action>): seq<int>
    decreases run
  {
    if run == [] then [] else Draw(s, run[0]) + Drawn(c, Do(c, s, run[0]), run[1..])
  }

  function Taken(c: Config, s: State, run: seq<Action>): seq<int>
    decreases run
  {
    if run == [] then [] else Take(s, run[0]) + Taken(c, Do(c, s, run[0]), run[1..])
  }

  /** A turn of the protocol does to the stack what Generate and TakeOne do in place. */
  lemma TurnsStack(c: Config, s: State, a: Action)
    requires Enabled(c, s, a)
    ensures var t := Do(c, s, a);
      && t.stack + Take(s, a) == s.stack + Draw(s, a)
      && t.hasGen == s.hasGen + |Draw(s, a)| && t.hasRead == s.hasRead + |Take(s, a)|
  {
  }

  lemma Exchanged(now: multiset<int>, take: multiset<int>, was: multiset<int>, draw: multiset<int>,
                  drawn: multiset<int>, taken: multiset<int>, end: multiset<int>)
    requires now + take == was + draw && now + drawn == end + taken
    ensures was + (draw + drawn) == end + (take + taken)
  {
    forall x: int
      ensures (was + (draw + drawn))[x] == (end + (take + taken))[x]
    {
      assert (now + take)[x] == (was + draw)[x] && (now + drawn)[x] == (end + taken)[x];
    }
  }

  lemma {:induction false} RunExchanges(c: Config, s: State, run: seq<Action>)
    requires CanRun(c, s, run)
    ensures var t := After(c, s, run);
      && multiset(s.stack) + multiset(Drawn(c, s, run)) == multiset(t.stack) + multiset(Taken(c, s, run))
      && t.hasGen == s.hasGen + |Drawn(c, s, run)| && t.hasRead == s.hasRead + |Taken(c, s, run)|
    decreases run
  {
    if run != [] {
      var a, t := run[0], Do(c, s, run[0]);
      TurnsStack(c, s, a);
      RunExchanges(c, t, run[1..]);
      assert multiset(t.stack + Take(s, a)) == multiset(s.stack + Draw(s, a));
      Exchanged(multiset(t.stack), multiset(Take(s, a)), multiset(s.stack), multiset(Draw(s, a)),
                multiset(Drawn(c, t, run[1..])), multiset(Taken(c, t, run[1..])),
                multiset(After(c, s, run).stack));
    }
  }

  lemma {:induction false} DigitsDrawn(c: Config, s: State, run: seq<Action>)
    requires CanRun(c, s, run)
    ensures forall d | d in Drawn(c, s, run) :: 0 <= d < 10
    decreases run
  {
    if run != [] {
      DigitsDrawn(c, Do(c, s, run[0]), run[1..]);
    }
  }

  /** The digits drawn are, each once, those the consumer found on top in its turns and those left
      on the stack; the counters count them. */
  lemma DigitsPassUnchanged(c: Config, run: seq<Action>)
    requires CanRun(c, Init(c), run)
    ensures var s := After(c, Init(c), run);
      && multiset(Drawn(c, Init(c), run)) == multiset(Taken(c, Init(c), run)) + multiset(s.stack)
      && s.hasGen == |Drawn(c, Init(c), run)| && s.hasRead == |Taken(c, Init(c), run)|
      && forall d | d in s.stack :: 0 <= d < 10
  {
    RunExchanges(c, Init(c), run);
    DigitsDrawn(c, Init(c), run);
    var s := After(c, Init(c), run);
    var none := multiset(Init(c).stack);
    assert none + multiset(Drawn(c, Init(c), run)) == multiset(Drawn(c, Init(c), run));
    forall d | d in s.stack
      ensures 0 <= d < 10
    {
      assert multiset(Drawn(c, Init(c), run))[d] == multiset(Taken(c, Init(c), run))[d] + multiset(s.stack)[d] > 0;
      assert d in Drawn(c, Init(c), run);
    }
  }

  /** Neither thread polls in vain for ever because of the other's end: a consumer that still has
      to read finds the stack nonempty once the producer is done, and a producer that still has
      to generate has a consumer that has not finished. */
  lemma NobodyWaitsInVain(c: Config, run: seq<Action>)
    requires CanRun(c, Init(c), run) && c.numGen >= 0
    ensures var s := After(c, Init(c), run);
      && (s.producer.Done? && s.hasRead != c.numGen ==> s.stack != [])
      && (s.remaining > 0 ==> !s.consumer.Done?)
  {
    RunKeepsInv(c, Init(c), run);
  }

  predicate Finished(s: State) { s.producer.Done? && s.consumer.Done? }

  lemma {:induction false} RunExtends(c: Config, s: State, run: seq<Action>, a: Action)
    requires CanRun(c, s, run) && Enabled(c, After(c, s, run), a)
    ensures CanRun(c, s, run + [a]) && After(c, s, run + [a]) == Do(c, After(c, s, run), a)
    decreases run
  {
    if run == [] {
      assert run + [a] == [a] && [a][1..] == [];
    } else {
      RunExtends(c, Do(c, s, run[0]), run[1..], a);
      assert (run + [a])[1..] == run[1..] + [a] && (run + [a])[0] == run[0];
    }
  }

  /** The producer generates n numbers in one turn. */
  lemma OneBatch(c: Config, run: seq<Action>, n: nat) returns (longer: seq<Action>)
    requires CanRun(c, Init(c), run)
    requires var s := After(c, Init(c), run);
      s.mutex == 1 && s.producer.Test? && s.remaining > 0 && n < c.batch && |s.stack| + n <= c.capacity
    ensures run <= longer && CanRun(c, Init(c), longer)
    ensures var s := After(c, Init(c), run); var t := After(c, Init(c), longer);
      |t.stack| == |s.stack| + n &&
      t == s.(stack := t.stack, hasGen := s.hasGen + n, remaining := s.remaining - n)
  {
    var s := After(c, Init(c), run);
    var a := Produce(n, seq(n, _ => 0));
    RunExtends(c, Init(c), run, a);
    RunExtends(c, Init(c), run + [a], a);
    RunExtends(c, Init(c), run + [a] + [a], a);
    RunExtends(c, Init(c), run + [a] + [a] + [a], a);
    longer := run + [a] + [a] + [a] + [a];
  }

  /** The consumer takes one number. */
  lemma OneRead(c: Config, run: seq<Action>) returns (longer: seq<Action>)
    requires CanRun(c, Init(c), run)
    requires var s := After(c, Init(c), run);
      s.mutex == 1 && s.consumer.Test? && s.hasRead != c.numGen && |s.stack| > 0
    ensures run <= longer && CanRun(c, Init(c), longer)
    ensures var s := After(c, Init(c), run); var t := After(c, Init(c), longer);
      |t.stack| == |s.stack| - 1 && t == s.(stack := t.stack, hasRead := s.hasRead + 1)
  {
    RunExtends(c, Init(c), run, Consume);
    RunExtends(c, Init(c), run + [Consume], Consume);
    RunExtends(c, Init(c), run + [Consume] + [Consume], Consume);
    RunExtends(c, Init(c), run + [Consume] + [Consume] + [Consume], Consume);
    longer := run + [Consume] + [Consume] + [Consume] + [Consume];
  }

  /** This run puts x on the stack. */
  ghost predicate Stacks(c: Config, run: seq<Action>, x: int) {
    CanRun(c, Init(c), run) && x in After(c, Init(c), run).stack
  }

  /** The numbers that get on the stack are the digits, every one of them. */
  lemma ItemsAreTheDigits(c: Config, x: int)
    requires c.numGen > 0 && c.batch >= 2 && c.capacity >= 1
    ensures 0 <= x < 10 <==> exists run: seq<Action> :: Stacks(c, run, x)
  {
    if 0 <= x < 10 {
      var a := Produce(1, [x]);
      assert CanRun(c, Init(c), []);
      RunExtends(c, Init(c), [], a);
      RunExtends(c, Init(c), [] + [a], a);
      RunExtends(c, Init(c), [] + [a] + [a], a);
      assert Stacks(c, [] + [a] + [a] + [a], x);
    }
    forall run: seq<Action> | Stacks(c, run, x)
      ensures 0 <= x < 10
    {
      DigitsPassUnchanged(c, run);
      assert x in After(c, Init(c), run).stack;
    }
  }

  /** A run that leaves exactly `left` numbers: all but the last number one at a time, then a
      batch of left + 1. */
  lemma LeavesExactly(c: Config, left: nat) returns (run: seq<Action>)
    requires c.numGen > 0 && left <= Min(c.batch - 2, c.capacity - 1)
    ensures CanRun(c, Init(c), run)
    ensures var s := After(c, Init(c), run); Finished(s) && |s.stack| == left
  {
    run := [];
    for k := 0 to c.numGen - 1
      invariant CanRun(c, Init(c), run)
      invariant After(c, Init(c), run) == State(1, [], k, k, c.numGen - k, Test, Test)
    {
      run := OneBatch(c, run, 1);
      run := OneRead(c, run);
    }
    run := OneBatch(c, run, left + 1);
    run := OneRead(c, run);
    var stop := Produce(0, []);
    RunExtends(c, Init(c), run, stop);
    run := run + [stop];
    RunExtends(c, Init(c), run, Consume);
    run := run + [Consume];
  }

  /** This run ends both threads and leaves that many numbers in the buffer. */
  ghost predicate Leaves(c: Config, run: seq<Action>, left: int) {
    CanRun(c, Init(c), run) && Finished(After(c, Init(c), run)) && |After(c, Init(c), run).stack| == left
  }

  /** The numbers left in the buffer when both threads have ended: every value from 0 to the
      smaller of num_gen_per_loop - 2 and capacity - 1 occurs in some run, and no other. */
  lemma LeftoverExactly(c: Config, left: int)
    requires c.numGen > 0
    ensures 0 <= left <= Min(c.batch - 2, c.capacity - 1) <==> exists run: seq<Action> :: Leaves(c, run, left)
  {
    if 0 <= left <= Min(c.batch - 2, c.capacity - 1) {
      var run := LeavesExactly(c, left);
      assert Leaves(c, run, left);
    }
    forall run: seq<Action> | Leaves(c, run, left)
      ensures 0 <= left <= Min(c.batch - 2, c.capacity - 1)
    {
      RunKeepsInv(c, Init(c), run);
    }
  }

  // ---------------------------------------------------------------- progress

  /** The step counts as moving when it puts numbers on the stack or takes one off. */
  predicate Moves(s: State, a: Action) {
    match a
    case Produce(_, digits) => s.producer.Turn? && digits != []
    case Consume => s.consumer.Turn? && s.stack != []
  }

  function MovingSteps(c: Config, s: State, run: seq<Action>): nat
    decreases run
  {
    if run == [] then 0
    else (if Moves(s, run[0]) then 1 else 0) + MovingSteps(c, Do(c, s, run[0]), run[1..])
  }

  /** What is still to be generated and still to be read. */
  function Outstanding(c: Config, s: State): int { Max(s.remaining, 0) + c.numGen - s.hasRead }

  lemma {:induction false} MovingStepsSpend(c: Config, s: State, run: seq<Action>)
    requires c.numGen >= 0 && Inv(c, s) && CanRun(c, s, run)
    ensures MovingSteps(c, s, run) + Outstanding(c, After(c, s, run)) <= Outstanding(c, s)
    decreases run
  {
    if run != [] {
      StepKeepsInv(c, s, run[0]);
      MovingStepsSpend(c, Do(c, s, run[0]), run[1..]);
    }
  }

  /** Whatever is drawn and however the threads take turns, at most 2 * num_gen turns move
      anything; all others are polling. */
  lemma MovesAreBounded(c: Config, run: seq<Action>)
    requires c.numGen >= 0 && CanRun(c, Init(c), run)
    ensures MovingSteps(c, Init(c), run) <= 2 * c.numGen
  {
    MovingStepsSpend(c, Init(c), run);
    RunKeepsInv(c, Init(c), run);
  }

  function StepsToPark(pc: Pc): nat {
    match pc
    case Test | Done => 0
    case Unlock => 1
    case Turn => 2
    case Lock => 3
  }

  predicate Parked(s: State) { StepsToPark(s.producer) == 0 && StepsToPark(s.consumer) == 0 }

  /** Both threads can be brought out of the critical section and back to their loop tests. */
  lemma Park(c: Config, run: seq<Action>) returns (longer: seq<Action>)
    requires c.numGen > 0 ==> c.batch > 0
    requires CanRun(c, Init(c), run)
    ensures run <= longer && CanRun(c, Init(c), longer) && Parked(After(c, Init(c), longer))
  {
    longer := run;
    RunKeepsInv(c, Init(c), longer);
    while !Parked(After(c, Init(c), longer))
      invariant run <= longer && CanRun(c, Init(c), longer) && Inv(c, After(c, Init(c), longer))
      decreases var s := After(c, Init(c), longer); StepsToPark(s.producer) + StepsToPark(s.consumer)
    {
      var s := After(c, Init(c), longer);
      var producerMoves := Holds(s.producer) || (!Holds(s.consumer) && s.producer.Lock?);
      var a := if producerMoves then Produce(0, []) else Consume;
      if a.Produce? && s.producer.Turn? {
        NothingDrawn(c, s);
      }
      RunExtends(c, Init(c), longer, a);
      StepKeepsInv(c, s, a);
      longer := longer + [a];
    }
  }

  lemma NothingDrawn(c: Config, s: State)
    requires Inv(c, s) && s.producer.Turn? && c.batch > 0
    ensures Enabled(c, s, Produce(0, []))
  {
  }

  /** From parked threads everything can be generated and read. */
  lemma ServeAll(c: Config, run: seq<Action>) returns (longer: seq<Action>)
    requires c.numGen >= 0 && (c.numGen > 0 ==> c.batch >= 2 && c.capacity >= 1)
    requires CanRun(c, Init(c), run) && Parked(After(c, Init(c), run))
    ensures run <= longer && CanRun(c, Init(c), longer)
    ensures var s := After(c, Init(c), longer); Parked(s) && s.remaining <= 0 && s.hasRead == c.numGen
  {
    longer := run;
    RunKeepsInv(c, Init(c), longer);
    while After(c, Init(c), longer).hasRead != c.numGen
      invariant run <= longer && CanRun(c, Init(c), longer)
      invariant Parked(After(c, Init(c), longer)) && Inv(c, After(c, Init(c), longer))
      decreases Outstanding(c, After(c, Init(c), longer))
    {
      if After(c, Init(c), longer).stack == [] {
        longer := OneBatch(c, longer, 1);
      } else {
        longer := OneRead(c, longer);
      }
      RunKeepsInv(c, Init(c), longer);
    }
  }

  /** This continuation of the run ends both threads. */
  ghost predicate Ends(c: Config, run: seq<Action>, longer: seq<Action>) {
    run <= longer && CanRun(c, Init(c), longer) && Finished(After(c, Init(c), longer))
  }

  lemma CanFinish(c: Config, run: seq<Action>) returns (longer: seq<Action>)
    requires c.numGen >= 0 && (c.numGen > 0 ==> c.batch >= 2 && c.capacity >= 1)
    requires CanRun(c, Init(c), run)
    ensures Ends(c, run, longer)
  {
    longer := Park(c, run);
    longer := ServeAll(c, longer);
    var stop := Produce(0, []);
    if After(c, Init(c), longer).producer.Test? {
      RunExtends(c, Init(c), longer, stop);
      longer := longer + [stop];
    }
    if After(c, Init(c), longer).consumer.Test? {
      RunExtends(c, Init(c), longer, Consume);
      longer := longer + [Consume];
    }
  }

  /** However a run has gone so far, both threads can still come to their ends. */
  ghost predicate NeverTrapped(c: Config) {
    forall run: seq<Action> :: CanRun(c, Init(c), run) ==> exists longer: seq<Action> :: Ends(c, run, longer)
  }

  /** The threads can always still finish exactly when there is nothing to generate, or a batch
      can be drawn that is not empty and has room. */
  lemma NeverTrappedIff(c: Config)
    ensures NeverTrapped(c) <==> c.numGen == 0 || (c.numGen > 0 && c.batch >= 2 && c.capacity >= 1)
  {
    if c.numGen == 0 || (c.numGen > 0 && c.batch >= 2 && c.capacity >= 1) {
      forall run: seq<Action> | CanRun(c, Init(c), run)
        ensures exists longer: seq<Action> :: Ends(c, run, longer)
      {
        var longer := CanFinish(c, run);
      }
    } else if NeverTrapped(c) {
      var none: seq<Action> := [];
      assert CanRun(c, Init(c), none);
      var longer: seq<Action> :| Ends(c, none, longer);
      RunKeepsInv(c, Init(c), longer);
      assert false;
    }
  }
}
