/** Pthread/multiple_producer_consumer.c as a step system: any number of producers and
    consumers, three counting semaphores, and main's polling loop, interleaved one shared
    access at a time.

    A thread that finds its limit reached leaves its loop but still posts the other side's
    semaphore, so that semaphore then counts a token that stands for no item. */
module MultiProducerConsumer {
  import opened Basics
  import opened BoundedBuffer
  import opened Counting

  const NUMBER_RANGE: int := 100

  /** Both loops have the same shape.  A producer's own semaphore is `empty` and the one it
      posts is `full`; a consumer's are the other way round. */
  datatype Pc =
    | WaitToken                  // before sem_wait on the own semaphore
    | WaitMutex                  // holds a token, before sem_wait(mutex)
    | Deciding                   // inside the critical section, nothing done yet
    | PostMutex(exiting: bool)   // critical section done, before sem_post(mutex)
    | PostToken(exiting: bool)   // before sem_post on the other semaphore
    | Done

  datatype MainPc = Polling | Holding | Finished

  datatype Config = Config(producers: nat, consumers: nat, capacity: nat, limit: nat)

  /** produced and consumed are histories; the program does not have them. */
  datatype State = State(mutex: nat, empty: nat, full: nat, buffer: Contents,
                         producers: seq<Pc>, consumers: seq<Pc>, main: MainPc,
                         produced: seq<int>, consumed: seq<int>)

  function Init(c: Config): State {
    State(1, c.capacity, 0, Contents([], 0, 0),
          seq(c.producers, _ => WaitToken), seq(c.consumers, _ => WaitToken), Polling, [], [])
  }

  /** number is the random item, read only by a producer that is Deciding. */
  datatype Action = Producer(i: nat, number: int) | Consumer(j: nat) | Main

  predicate CanStep(pc: Pc, token: nat, mutex: nat) {
    match pc
    case WaitToken => token > 0
    case WaitMutex => mutex > 0
    case Deciding | PostMutex(_) | PostToken(_) => true
    case Done => false
  }

  predicate Enabled(s: State, a: Action) {
    match a
    case Producer(i, number) =>
      i < |s.producers| && CanStep(s.producers[i], s.empty, s.mutex) && 0 <= number < NUMBER_RANGE
    case Consumer(j) =>
      j < |s.consumers| && CanStep(s.consumers[j], s.full, s.mutex)
    case Main =>
      s.main.Holding? || (s.main.Polling? && s.mutex > 0)
  }

  function Do(c: Config, s: State, a: Action): State
    requires Enabled(s, a)
  {
    match a
    case Producer(i, number) => DoProducer(c, s, i, number)
    case Consumer(j) => DoConsumer(c, s, j)
    case Main =>
      if s.main.Polling? then
        s.(mutex := s.mutex - 1, main := Holding)
      else
        var finished := s.buffer.numCon == c.limit && s.buffer.numGen == c.limit;
        s.(mutex := s.mutex + 1, main := if finished then Finished else Polling)
  }

  function DoProducer(c: Config, s: State, i: nat, number: int): State
    requires Enabled(s, Producer(i, number))
  {
    match s.producers[i]
    case WaitToken => s.(empty := s.empty - 1, producers := s.producers[i := WaitMutex])
    case WaitMutex => s.(mutex := s.mutex - 1, producers := s.producers[i := Deciding])
    case Deciding =>
      var turn := ProducerTurn(s.buffer, c.capacity, c.limit, number);
      s.(buffer := turn.after, produced := s.produced + turn.moved,
         producers := s.producers[i := PostMutex(turn.exiting)])
    case PostMutex(exiting) => s.(mutex := s.mutex + 1, producers := s.producers[i := PostToken(exiting)])
    case PostToken(exiting) =>
      s.(full := s.full + 1, producers := s.producers[i := if exiting then Done else WaitToken])
  }

  function DoConsumer(c: Config, s: State, j: nat): State
    requires Enabled(s, Consumer(j))
  {
    match s.consumers[j]
    case WaitToken => s.(full := s.full - 1, consumers := s.consumers[j := WaitMutex])
    case WaitMutex => s.(mutex := s.mutex - 1, consumers := s.consumers[j := Deciding])
    case Deciding =>
      var turn := ConsumerTurn(s.buffer, c.limit);
      s.(buffer := turn.after, consumed := s.consumed + turn.moved,
         consumers := s.consumers[j := PostMutex(turn.exiting)])
    case PostMutex(exiting) => s.(mutex := s.mutex + 1, consumers := s.consumers[j := PostToken(exiting)])
    case PostToken(exiting) =>
      s.(empty := s.empty + 1, consumers := s.consumers[j := if exiting then Done else WaitToken])
  }

  // ---------------------------------------------------------------- runs

  predicate CanRun(c: Config, s: State, run: seq<Action>)
    decreases run
  {
    run == [] || (Enabled(s, run[0]) && CanRun(c, Do(c, s, run[0]), run[1..]))
  }

  function After(c: Config, s: State, run: seq<Action>): State
    requires CanRun(c, s, run)
    decreases run
  {
    if run == [] then s else After(c, Do(c, s, run[0]), run[1..])
  }

  /** The steps of producers and consumers; main may poll as often as it likes. */
  function ThreadSteps(run: seq<Action>): nat {
    if run == [] then 0 else (if run[0].Main? then 0 else 1) + ThreadSteps(run[1..])
  }

  /** No producer or consumer can move, and main is not keeping the mutex from them. */
  ghost predicate Quiescent(s: State) {
    !s.main.Holding? && forall a: Action :: Enabled(s, a) ==> a.Main?
  }

  // ---------------------------------------------------------------- populations

  function Holds(pc: Pc): int { if pc.Deciding? || pc.PostMutex? then 1 else 0 }
  function Undecided(pc: Pc): int { if pc.WaitMutex? || pc.Deciding? then 1 else 0 }
  function Decided(pc: Pc): int { if pc.PostMutex? || pc.PostToken? then 1 else 0 }
  function Exiting(pc: Pc): int {
    if pc.Done? || ((pc.PostMutex? || pc.PostToken?) && pc.exiting) then 1 else 0
  }

  /** How many own steps a thread has left before it ends or starts an item. */
  function Weight(pc: Pc): int {
    match pc
    case Done => 0
    case PostToken(exiting) => if exiting then 1 else 6
    case PostMutex(exiting) => if exiting then 2 else 7
    case Deciding => 3
    case WaitMutex => 4
    case WaitToken => 5
  }

  /** How one thread's move changes every population at once. */
  lemma Moves(pcs: seq<Pc>, i: nat, pc: Pc)
    requires i < |pcs|
    ensures var now := pcs[i := pc];
      && Sum(now, Holds) == Sum(pcs, Holds) - Holds(pcs[i]) + Holds(pc)
      && Sum(now, Undecided) == Sum(pcs, Undecided) - Undecided(pcs[i]) + Undecided(pc)
      && Sum(now, Decided) == Sum(pcs, Decided) - Decided(pcs[i]) + Decided(pc)
      && Sum(now, Exiting) == Sum(pcs, Exiting) - Exiting(pcs[i]) + Exiting(pc)
      && Sum(now, Weight) == Sum(pcs, Weight) - Weight(pcs[i]) + Weight(pc)
  {
    SumUpdate(pcs, i, pc, Holds);
    SumUpdate(pcs, i, pc, Undecided);
    SumUpdate(pcs, i, pc, Decided);
    SumUpdate(pcs, i, pc, Exiting);
    SumUpdate(pcs, i, pc, Weight);
  }

  lemma Populations(pcs: seq<Pc>)
    ensures Sum(pcs, Holds) >= 0 && Sum(pcs, Undecided) >= 0 && Sum(pcs, Decided) >= 0
    ensures Sum(pcs, Exiting) >= 0 && Sum(pcs, Weight) >= 0
  {
    SumNonNegative(pcs, Holds);
    SumNonNegative(pcs, Undecided);
    SumNonNegative(pcs, Decided);
    SumNonNegative(pcs, Exiting);
    SumNonNegative(pcs, Weight);
  }

  lemma Member(pcs: seq<Pc>, i: nat)
    requires i < |pcs|
    ensures Sum(pcs, Holds) >= Holds(pcs[i]) && Sum(pcs, Undecided) >= Undecided(pcs[i])
    ensures Sum(pcs, Decided) >= Decided(pcs[i]) && Sum(pcs, Exiting) >= Exiting(pcs[i])
  {
    SumAtLeast(pcs, i, Holds);
    SumAtLeast(pcs, i, Undecided);
    SumAtLeast(pcs, i, Decided);
    SumAtLeast(pcs, i, Exiting);
  }

  // ---------------------------------------------------------------- the invariant

  ghost predicate MutualExclusion(s: State) {
    s.mutex + Sum(s.producers, Holds) + Sum(s.consumers, Holds)
      + (if s.main.Holding? then 1 else 0) == 1
  }

  ghost predicate TokensConserved(c: Config, s: State) {
    s.empty + s.full
      + Sum(s.producers, Undecided) + Sum(s.producers, Decided)
      + Sum(s.consumers, Undecided) + Sum(s.consumers, Decided) == c.capacity
  }

  /** Tokens that a consumer can still act on: posted, taken but not yet acted on, or
      about to be posted by a producer. */
  ghost function ItemTokens(s: State): int {
    s.full + Sum(s.consumers, Undecided) + Sum(s.producers, Decided)
  }

  /** The tokens that stand for no item are exactly those posted by leaving producers and not
      yet used up by leaving consumers. */
  ghost predicate SurplusExact(s: State) {
    && ItemTokens(s) - |s.buffer.stack| == Sum(s.producers, Exiting) - Sum(s.consumers, Exiting)
    && ItemTokens(s) >= |s.buffer.stack|
  }

  ghost predicate ExitsAtLimit(c: Config, s: State) {
    && (Sum(s.producers, Exiting) > 0 ==> s.buffer.numGen == c.limit)
    && (Sum(s.consumers, Exiting) > 0 ==> s.buffer.numCon == c.limit)
    && (s.main.Finished? ==> s.buffer.numGen == c.limit && s.buffer.numCon == c.limit)
  }

  ghost predicate ItemsConserved(c: Config, s: State) {
    && s.buffer.numCon + |s.buffer.stack| == s.buffer.numGen <= c.limit
    && |s.produced| == s.buffer.numGen && |s.consumed| == s.buffer.numCon
    && multiset(s.produced) == multiset(s.consumed) + multiset(s.buffer.stack)
  }

  ghost predicate Inv(c: Config, s: State) {
    && |s.producers| == c.producers && |s.consumers| == c.consumers
    && MutualExclusion(s)
    && TokensConserved(c, s)
    && SurplusExact(s)
    && ExitsAtLimit(c, s)
    && ItemsConserved(c, s)
  }

  ghost function Rank(c: Config, s: State): int {
    5 * (2 * c.limit - s.buffer.numGen - s.buffer.numCon)
      + Sum(s.producers, Weight) + Sum(s.consumers, Weight)
  }

  lemma InitInv(c: Config)
    ensures Inv(c, Init(c))
    ensures Rank(c, Init(c)) == 10 * c.limit + 5 * (c.producers + c.consumers)
  {
    InitPopulation(c.producers);
    InitPopulation(c.consumers);
  }

  lemma InitPopulation(n: nat)
    ensures var pcs := seq(n, _ => WaitToken);
      && Sum(pcs, Holds) == 0 && Sum(pcs, Undecided) == 0 && Sum(pcs, Decided) == 0
      && Sum(pcs, Exiting) == 0 && Sum(pcs, Weight) == 5 * n
  {
    var pcs := seq(n, _ => WaitToken);
    SumConstant(pcs, Holds, 0);
    SumConstant(pcs, Undecided, 0);
    SumConstant(pcs, Decided, 0);
    SumConstant(pcs, Exiting, 0);
    SumConstant(pcs, Weight, 5);
  }

  /** A producer below the limit that holds a token has room: every other item token, and so
      every stacked item, belongs to another of the `capacity` tokens. */
  lemma ProducerHasRoom(c: Config, s: State, i: nat)
    requires Inv(c, s) && i < |s.producers| && s.producers[i].Deciding?
    requires s.buffer.numGen != c.limit
    ensures |s.buffer.stack| < c.capacity
  {
    Member(s.producers, i);
    Populations(s.producers);
    Populations(s.consumers);
  }

  /** A consumer below the limit that holds a token finds an item. */
  lemma ConsumerHasItem(c: Config, s: State, j: nat)
    requires Inv(c, s) && j < |s.consumers| && s.consumers[j].Deciding?
    requires s.buffer.numCon != c.limit
    ensures |s.buffer.stack| > 0
  {
    Member(s.consumers, j);
    Populations(s.producers);
    Populations(s.consumers);
  }

  lemma ProducerKeepsTokens(c: Config, s: State, i: nat, number: int)
    requires Inv(c, s) && Enabled(s, Producer(i, number))
    ensures var t := DoProducer(c, s, i, number); MutualExclusion(t) && TokensConserved(c, t)
  {
    Moves(s.producers, i, DoProducer(c, s, i, number).producers[i]);
    Member(s.producers, i);
  }

  lemma ProducerKeepsSurplus(c: Config, s: State, i: nat, number: int)
    requires Inv(c, s) && Enabled(s, Producer(i, number))
    ensures var t := DoProducer(c, s, i, number); SurplusExact(t) && ExitsAtLimit(c, t)
  {
    Moves(s.producers, i, DoProducer(c, s, i, number).producers[i]);
    Member(s.producers, i);
    Populations(s.consumers);
    if s.producers[i].Deciding? && s.buffer.numGen != c.limit {
      ProducerHasRoom(c, s, i);
    }
  }

  lemma ProducerKeepsItems(c: Config, s: State, i: nat, number: int)
    requires Inv(c, s) && Enabled(s, Producer(i, number))
    ensures ItemsConserved(c, DoProducer(c, s, i, number))
  {
    if s.producers[i].Deciding? && s.buffer.numGen != c.limit {
      ProducerHasRoom(c, s, i);
    }
  }

  lemma ProducerLowersRank(c: Config, s: State, i: nat, number: int)
    requires Inv(c, s) && Enabled(s, Producer(i, number))
    ensures Rank(c, DoProducer(c, s, i, number)) == Rank(c, s) - 1
  {
    Moves(s.producers, i, DoProducer(c, s, i, number).producers[i]);
    if s.producers[i].Deciding? && s.buffer.numGen != c.limit {
      ProducerHasRoom(c, s, i);
    }
  }

  lemma ConsumerTurnMovesTop(b: Contents, limit: nat)
    requires b.numCon != limit && |b.stack| > 0
    ensures var turn := ConsumerTurn(b, limit);
      && !turn.exiting && |turn.moved| == 1
      && |turn.after.stack| == |b.stack| - 1
      && turn.after.numGen == b.numGen && turn.after.numCon == b.numCon + 1
      && multiset(b.stack) == multiset(turn.moved) + multiset(turn.after.stack)
  {
    var turn := ConsumerTurn(b, limit);
    assert b.stack == turn.after.stack + turn.moved;
  }

  lemma ConsumerKeepsItems(c: Config, s: State, j: nat)
    requires Inv(c, s) && Enabled(s, Consumer(j))
    ensures ItemsConserved(c, DoConsumer(c, s, j))
  {
    if s.consumers[j].Deciding? && s.buffer.numCon != c.limit {
      ConsumerHasItem(c, s, j);
      ConsumerTurnMovesTop(s.buffer, c.limit);
    }
  }

  lemma ConsumerKeepsTokens(c: Config, s: State, j: nat)
    requires Inv(c, s) && Enabled(s, Consumer(j))
    ensures var t := DoConsumer(c, s, j); MutualExclusion(t) && TokensConserved(c, t)
  {
    Moves(s.consumers, j, DoConsumer(c, s, j).consumers[j]);
    Member(s.consumers, j);
  }

  lemma ConsumerKeepsSurplus(c: Config, s: State, j: nat)
    requires Inv(c, s) && Enabled(s, Consumer(j))
    ensures var t := DoConsumer(c, s, j); SurplusExact(t) && ExitsAtLimit(c, t)
  {
    Moves(s.consumers, j, DoConsumer(c, s, j).consumers[j]);
    Member(s.consumers, j);
    Populations(s.producers);
    if s.consumers[j].Deciding? && s.buffer.numCon != c.limit {
      ConsumerHasItem(c, s, j);
    }
  }

  lemma ConsumerLowersRank(c: Config, s: State, j: nat)
    requires Inv(c, s) && Enabled(s, Consumer(j))
    ensures Rank(c, DoConsumer(c, s, j)) == Rank(c, s) - 1
  {
    Moves(s.consumers, j, DoConsumer(c, s, j).consumers[j]);
    if s.consumers[j].Deciding? && s.buffer.numCon != c.limit {
      ConsumerHasItem(c, s, j);
    }
  }

  /** Every step keeps the invariant, and every producer or consumer step lowers the rank by
      exactly one. */
  lemma StepKeepsInv(c: Config, s: State, a: Action)
    requires Inv(c, s) && Enabled(s, a)
    ensures Inv(c, Do(c, s, a))
    ensures Rank(c, Do(c, s, a)) == Rank(c, s) - (if a.Main? then 0 else 1)
  {
    match a
    case Producer(i, number) =>
      ProducerKeepsTokens(c, s, i, number);
      ProducerKeepsSurplus(c, s, i, number);
      ProducerKeepsItems(c, s, i, number);
      ProducerLowersRank(c, s, i, number);
    case Consumer(j) =>
      ConsumerKeepsTokens(c, s, j);
      ConsumerKeepsSurplus(c, s, j);
      ConsumerKeepsItems(c, s, j);
      ConsumerLowersRank(c, s, j);
    case Main =>
  }

  lemma {:induction false} RunKeepsInv(c: Config, s: State, run: seq<Action>)
    requires Inv(c, s) && CanRun(c, s, run)
    ensures Inv(c, After(c, s, run))
    ensures ThreadSteps(run) == Rank(c, s) - Rank(c, After(c, s, run))
    decreases run
  {
    if run != [] {
      StepKeepsInv(c, s, run[0]);
      RunKeepsInv(c, Do(c, s, run[0]), run[1..]);
    }
  }

  // ---------------------------------------------------------------- where runs end

  lemma QuiescentFreesMutex(c: Config, s: State)
    requires Inv(c, s) && Quiescent(s)
    ensures s.mutex == 1
  {
    Populations(s.producers);
    Populations(s.consumers);
    if Sum(s.producers, Holds) > 0 {
      var i := SumWitness(s.producers, Holds);
      assert Enabled(s, Producer(i, 0));
    }
    if Sum(s.consumers, Holds) > 0 {
      var j := SumWitness(s.consumers, Holds);
      assert Enabled(s, Consumer(j));
    }
  }

  /** At rest every thread has left or waits for a token that is not there. */
  lemma QuiescentThreads(c: Config, s: State)
    requires Inv(c, s) && Quiescent(s)
    ensures forall i | 0 <= i < |s.producers| ::
      s.producers[i].Done? || (s.producers[i].WaitToken? && s.empty == 0)
    ensures forall j | 0 <= j < |s.consumers| ::
      s.consumers[j].Done? || (s.consumers[j].WaitToken? && s.full == 0)
    ensures s.empty + s.full == c.capacity
    ensures s.full == Sum(s.producers, Exiting) - Sum(s.consumers, Exiting) + |s.buffer.stack|
  {
    QuiescentFreesMutex(c, s);
    forall i | 0 <= i < |s.producers|
      ensures s.producers[i].Done? || (s.producers[i].WaitToken? && s.empty == 0)
    {
      assert !Enabled(s, Producer(i, 0));
    }
    forall j | 0 <= j < |s.consumers|
      ensures s.consumers[j].Done? || (s.consumers[j].WaitToken? && s.full == 0)
    {
      assert !Enabled(s, Consumer(j));
    }
    SumConstant(s.producers, Undecided, 0);
    SumConstant(s.producers, Decided, 0);
    SumConstant(s.consumers, Undecided, 0);
    SumConstant(s.consumers, Decided, 0);
  }

  /** How many of n threads, each done or waiting, are done. */
  lemma DoneOrWaiting(pcs: seq<Pc>, token: nat)
    requires forall i | 0 <= i < |pcs| :: pcs[i].Done? || (pcs[i].WaitToken? && token == 0)
    ensures 0 <= Sum(pcs, Exiting) <= |pcs|
    ensures Sum(pcs, Exiting) < |pcs| ==> token == 0
    ensures Sum(pcs, Weight) == 5 * (|pcs| - Sum(pcs, Exiting))
  {
    if pcs != [] {
      DoneOrWaiting(pcs[1..], token);
    }
  }

  /** At rest, everything has been generated and consumed, and it is known exactly how many
      threads got out. */
  lemma QuiescentOutcome(c: Config, s: State)
    requires Inv(c, s) && Quiescent(s)
    requires c.producers >= 1 && c.consumers >= 1 && c.capacity >= 1
    ensures s.buffer == Contents([], c.limit, c.limit)
    ensures Sum(s.producers, Exiting) == Min(c.producers, c.consumers + c.capacity)
    ensures Sum(s.consumers, Exiting) == Min(c.producers, c.consumers)
    ensures Rank(c, s) == 5 * (c.producers - Sum(s.producers, Exiting))
                        + 5 * (c.consumers - Sum(s.consumers, Exiting))
  {
    QuiescentThreads(c, s);
    DoneOrWaiting(s.producers, s.empty);
    DoneOrWaiting(s.consumers, s.full);
  }

  // ---------------------------------------------------------------- what is produced and consumed

  /** The number drawn by a producer that gets below the limit. */
  function Draw(c: Config, s: State, a: Action): seq<int>
    requires Enabled(s, a)
  {
    if a.Producer? && s.producers[a.i].Deciding? && s.buffer.numGen != c.limit then [a.number] else []
  }

  /** What a consumer that gets below the limit finds on top of the stack. */
  function Take(c: Config, s: State, a: Action): seq<int>
    requires Enabled(s, a)
  {
    if a.Consumer? && s.consumers[a.j].Deciding? && s.buffer.numCon != c.limit && s.buffer.stack != []
    then [s.buffer.stack[|s.buffer.stack| - 1]] else []
  }

  function Drawn(c: Config, s: State, run: seq<Action>): seq<int>
    requires CanRun(c, s, run)
    decreases run
  {
    if run == [] then [] else Draw(c, s, run[0]) + Drawn(c, Do(c, s, run[0]), run[1..])
  }

  function Taken(c: Config, s: State, run: seq<Action>): seq<int>
    requires CanRun(c, s, run)
    decreases run
  {
    if run == [] then [] else Take(c, s, run[0]) + Taken(c, Do(c, s, run[0]), run[1..])
  }

  lemma StepDraws(c: Config, s: State, a: Action)
    requires Inv(c, s) && Enabled(s, a)
    ensures Do(c, s, a).produced == s.produced + Draw(c, s, a)
  {
    match a
    case Producer(i, _) =>
      if s.producers[i].Deciding? && s.buffer.numGen != c.limit {
        ProducerHasRoom(c, s, i);
      }
    case _ =>
  }

  lemma StepTakes(c: Config, s: State, a: Action)
    requires Enabled(s, a)
    ensures Do(c, s, a).consumed == s.consumed + Take(c, s, a)
  {
    match a
    case Consumer(_) =>
    case _ =>
  }

  lemma Associative(a: seq<int>, b: seq<int>, c: seq<int>)
    ensures (a + b) + c == a + (b + c)
  {
  }

  lemma InvAndDraw(c: Config, s: State, a: Action) returns (t: State)
    requires Inv(c, s) && Enabled(s, a)
    ensures t == Do(c, s, a) && Inv(c, t) && t.produced == s.produced + Draw(c, s, a)
  {
    t := Do(c, s, a);
    StepKeepsInv(c, s, a);
    StepDraws(c, s, a);
  }

  lemma {:induction false} RunDraws(c: Config, s: State, run: seq<Action>)
    requires Inv(c, s) && CanRun(c, s, run)
    ensures After(c, s, run).produced == s.produced + Drawn(c, s, run)
    decreases run
  {
    if run != [] {
      var t := InvAndDraw(c, s, run[0]);
      RunDraws(c, t, run[1..]);
      Associative(s.produced, Draw(c, s, run[0]), Drawn(c, t, run[1..]));
    }
  }

  lemma {:induction false} RunTakes(c: Config, s: State, run: seq<Action>)
    requires CanRun(c, s, run)
    ensures After(c, s, run).consumed == s.consumed + Taken(c, s, run)
    decreases run
  {
    if run != [] {
      var t := Do(c, s, run[0]);
      StepTakes(c, s, run[0]);
      RunTakes(c, t, run[1..]);
      Associative(s.consumed, Take(c, s, run[0]), Taken(c, t, run[1..]));
    }
  }

  lemma {:induction false} DrawnInRange(c: Config, s: State, run: seq<Action>)
    requires CanRun(c, s, run)
    ensures forall x | x in Drawn(c, s, run) :: 0 <= x < NUMBER_RANGE
    decreases run
  {
    if run != [] {
      DrawnInRange(c, Do(c, s, run[0]), run[1..]);
    }
  }

  /** The numbers drawn are the numbers that pass through the buffer: what has been produced is
      the sequence of draws, what has been consumed is what the consumers found on top, and the
      draws are, each once, those consumed and those still stacked. */
  lemma NumbersPassUnchanged(c: Config, run: seq<Action>)
    requires CanRun(c, Init(c), run)
    ensures var s := After(c, Init(c), run);
      && s.produced == Drawn(c, Init(c), run) && s.consumed == Taken(c, Init(c), run)
      && multiset(s.produced) == multiset(s.consumed) + multiset(s.buffer.stack)
      && |s.produced| == s.buffer.numGen && |s.consumed| == s.buffer.numCon
  {
    InitInv(c);
    RunKeepsInv(c, Init(c), run);
    RunDraws(c, Init(c), run);
    RunTakes(c, Init(c), run);
  }

  /** So every item, consumed or still stacked, is a number that can be drawn. */
  lemma ItemsInRange(c: Config, run: seq<Action>)
    requires CanRun(c, Init(c), run)
    ensures var s := After(c, Init(c), run);
      && (forall x | x in s.consumed :: 0 <= x < NUMBER_RANGE)
      && (forall x | x in s.buffer.stack :: 0 <= x < NUMBER_RANGE)
  {
    NumbersPassUnchanged(c, run);
    DrawnInRange(c, Init(c), run);
    PartsOf(Drawn(c, Init(c), run), After(c, Init(c), run).consumed, After(c, Init(c), run).buffer.stack);
  }

  /** This run puts x on the stack. */
  ghost predicate Stacks(c: Config, run: seq<Action>, x: int) {
    CanRun(c, Init(c), run) && x in After(c, Init(c), run).buffer.stack
  }

  /** And every number that can be drawn does occur. */
  lemma ItemsAreTheRange(c: Config, x: int)
    requires c.producers >= 1 && c.capacity >= 1 && c.limit >= 1
    ensures 0 <= x < NUMBER_RANGE <==> exists run: seq<Action> :: Stacks(c, run, x)
  {
    if 0 <= x < NUMBER_RANGE {
      var a := Producer(0, x);
      var s := Init(c);
      var s1 := Do(c, s, a);
      var s2 := Do(c, s1, a);
      var s3 := Do(c, s2, a);
      assert s3.buffer.stack == [x];
      var run := [a, a, a];
      assert run[1..] == [a, a] && run[1..][1..] == [a] && run[1..][1..][1..] == [];
      assert CanRun(c, s2, [a]) && After(c, s2, [a]) == s3;
      assert CanRun(c, s1, [a, a]) && After(c, s1, [a, a]) == s3;
      assert Stacks(c, run, x);
    }
    forall run: seq<Action> | Stacks(c, run, x)
      ensures 0 <= x < NUMBER_RANGE
    {
      ItemsInRange(c, run);
      assert x in After(c, Init(c), run).buffer.stack;
    }
  }

  lemma PartsOf(whole: seq<int>, part: seq<int>, rest: seq<int>)
    requires multiset(whole) == multiset(part) + multiset(rest)
    requires forall x | x in whole :: 0 <= x < NUMBER_RANGE
    ensures forall x | x in part :: 0 <= x < NUMBER_RANGE
    ensures forall x | x in rest :: 0 <= x < NUMBER_RANGE
  {
    forall x | x in part || x in rest
      ensures 0 <= x < NUMBER_RANGE
    {
      assert multiset(whole)[x] == multiset(part)[x] + multiset(rest)[x] > 0;
      assert x in whole;
    }
  }

  // ---------------------------------------------------------------- total correctness

  /** Total correctness under every scheduler, for all numbers of threads, capacities and
      limits: no run can be longer than a fixed number of thread steps, and a run that has come
      to rest has generated and consumed exactly `limit` items, each one once, after exactly
      the same number of thread steps whatever the schedule was. */
  lemma TotalCorrectness(c: Config, run: seq<Action>)
    requires c.producers >= 1 && c.consumers >= 1 && c.capacity >= 1
    requires CanRun(c, Init(c), run)
    ensures ThreadSteps(run) <= 10 * c.limit + 5 * (c.producers + c.consumers)
    ensures var s := After(c, Init(c), run);
      Quiescent(s) ==>
        && s.buffer == Contents([], c.limit, c.limit)
        && |s.produced| == c.limit && multiset(s.consumed) == multiset(s.produced)
        && Sum(s.producers, Exiting) == Min(c.producers, c.consumers + c.capacity)
        && Sum(s.consumers, Exiting) == Min(c.producers, c.consumers)
        && ThreadSteps(run) == 10 * c.limit + 5 * Min(c.producers, c.consumers + c.capacity)
                                            + 5 * Min(c.producers, c.consumers)
  {
    InitInv(c);
    RunKeepsInv(c, Init(c), run);
    var s := After(c, Init(c), run);
    Populations(s.producers);
    Populations(s.consumers);
    if Quiescent(s) {
      QuiescentOutcome(c, s);
    }
  }

  /** Threads may be left blocked at rest, but never a producer and a consumer together. */
  lemma NeverBothBlocked(c: Config, run: seq<Action>, i: nat, j: nat)
    requires c.capacity >= 1 && CanRun(c, Init(c), run)
    requires var s := After(c, Init(c), run);
      Quiescent(s) && i < |s.producers| && j < |s.consumers|
    ensures var s := After(c, Init(c), run); s.producers[i].Done? || s.consumers[j].Done?
  {
    InitInv(c);
    RunKeepsInv(c, Init(c), run);
    QuiescentThreads(c, After(c, Init(c), run));
  }

  /** In every reachable state neither `else` branch can be taken, and the semaphores and the
      stack stay within the capacity. */
  lemma FallbackBranchesAreDead(c: Config, run: seq<Action>)
    requires CanRun(c, Init(c), run)
    ensures var s := After(c, Init(c), run);
      && (forall i | 0 <= i < |s.producers| :: s.producers[i].Deciding? && s.buffer.numGen != c.limit
            ==> |s.buffer.stack| < c.capacity)
      && (forall j | 0 <= j < |s.consumers| :: s.consumers[j].Deciding? && s.buffer.numCon != c.limit
            ==> |s.buffer.stack| > 0)
      && |s.buffer.stack| <= c.capacity && s.empty + s.full <= c.capacity
  {
    InitInv(c);
    RunKeepsInv(c, Init(c), run);
    var s := After(c, Init(c), run);
    Populations(s.producers);
    Populations(s.consumers);
    forall i | 0 <= i < |s.producers| && s.producers[i].Deciding? && s.buffer.numGen != c.limit
      ensures |s.buffer.stack| < c.capacity
    {
      ProducerHasRoom(c, s, i);
    }
    forall j | 0 <= j < |s.consumers| && s.consumers[j].Deciding? && s.buffer.numCon != c.limit
      ensures |s.buffer.stack| > 0
    {
      ConsumerHasItem(c, s, j);
    }
  }

  /** The semaphores are conserved: every token is in a semaphore or in the hands of one thread,
      the mutex is held at most once, and the item tokens exceed the items by exactly the
      producers that have left and whose tokens no leaving consumer has used up. */
  lemma TokensAccounted(c: Config, run: seq<Action>)
    requires CanRun(c, Init(c), run)
    ensures var s := After(c, Init(c), run);
      MutualExclusion(s) && TokensConserved(c, s) && SurplusExact(s)
  {
    InitInv(c);
    RunKeepsInv(c, Init(c), run);
  }

  /** A consumer only ever leaves on a token left behind by a producer. */
  lemma ConsumersLeaveAfterProducers(c: Config, run: seq<Action>)
    requires CanRun(c, Init(c), run)
    ensures var s := After(c, Init(c), run);
      && Sum(s.consumers, Exiting) <= Sum(s.producers, Exiting)
      && (Sum(s.producers, Exiting) > 0 ==> s.buffer.numGen == c.limit)
      && (Sum(s.consumers, Exiting) > 0 ==> s.buffer.numCon == c.limit)
  {
    InitInv(c);
    RunKeepsInv(c, Init(c), run);
  }

  /** When main has left its polling loop, all items have been generated and consumed; and once
      the threads are at rest its next look at the counters ends the loop. */
  lemma MainLeavesAtCompletion(c: Config, run: seq<Action>)
    requires CanRun(c, Init(c), run)
    ensures var s := After(c, Init(c), run);
      s.main.Finished? ==>
        s.buffer == Contents([], c.limit, c.limit) && multiset(s.consumed) == multiset(s.produced)
    ensures var s := After(c, Init(c), run);
      c.producers >= 1 && c.consumers >= 1 && c.capacity >= 1 && Quiescent(s) && s.main.Polling? ==>
        Enabled(s, Main) && Enabled(Do(c, s, Main), Main) && Do(c, Do(c, s, Main), Main).main.Finished?
  {
    InitInv(c);
    RunKeepsInv(c, Init(c), run);
    var s := After(c, Init(c), run);
    if c.producers >= 1 && c.consumers >= 1 && c.capacity >= 1 && Quiescent(s) {
      QuiescentOutcome(c, s);
      QuiescentFreesMutex(c, s);
    }
  }

  /** If this is a run that comes to rest, everything has been generated and consumed by then. */
  ghost predicate RestsComplete(c: Config, run: seq<Action>) {
    CanRun(c, Init(c), run) && Quiescent(After(c, Init(c), run)) ==>
      After(c, Init(c), run).buffer == Contents([], c.limit, c.limit)
  }

  /** main does not check the capacity it is given.  Capacity 0 is the one family for which
      completion fails: with something to generate, the initial state is already at rest. */
  lemma CompletesIffCapacity(c: Config)
    requires c.producers >= 1 && c.consumers >= 1
    ensures (c.capacity >= 1 || c.limit == 0) <==> forall run: seq<Action> :: RestsComplete(c, run)
  {
    if c.capacity >= 1 || c.limit == 0 {
      forall run: seq<Action>
        ensures RestsComplete(c, run)
      {
        if CanRun(c, Init(c), run) && Quiescent(After(c, Init(c), run)) {
          InitInv(c);
          RunKeepsInv(c, Init(c), run);
          if c.capacity >= 1 {
            QuiescentOutcome(c, After(c, Init(c), run));
          }
        }
      }
    } else {
      assert Quiescent(Init(c));
      assert !RestsComplete(c, []);
    }
  }
}
