# Verified models of the threading and serialization code of C_Playground

Five programs of the repository have behaviour that is hard to see from reading one function.
This project models them in Dafny and proves what they promise, for all inputs, all numbers of
threads and all schedules.

- **The thread pool** (`common/thpool.c`). `JobQueue.dfy` has the linked job queue as classes that
  are changed in place, proved against functions on the sequence of queued jobs.
  `ThreadPool.dfy` has the pool as a step system of workers, submitters, one `thpool_wait` caller
  and one `thpool_destroy` caller, using the same function `PullOf` for the pull.
  `ThreadPoolInvariant.dfy` and `ThreadPoolSignals.dfy` prove what every step keeps;
  `ThreadPoolSafety.dfy`, `ThreadPoolProgress.dfy` and `ThreadPoolShutdown.dfy` draw the
  conclusions, `ThreadPoolJobs.dfy` compares the jobs run with the jobs submitted, and
  `ThreadPoolLimits.dfy` has the runs that show the conditions to be needed.
- **The multi-producer/multi-consumer program** (`Pthread/multiple_producer_consumer.c`).
  `BoundedBuffer.dfy` has the buffer and the two critical sections in place;
  `MultiProducerConsumer.dfy` has the semaphore protocol around them and its total correctness.
- **The serializer** (`common/serialize.c`, `common/deserialize.c`, `common/serialized_buffer.c`,
  `common/serialization_test.c`). `SerializedBuffer.dfy` has the growing buffer with its cursor
  as a class; `PersonCodec.dfy` has the record codecs on top of it and the round trip.
- **The two-condition counter** (`Miscs/condition_variables.c`) in `ConditionVariables.dfy`.
- **The single producer and consumer** (`Pthread/producer_consumer.c`) in `ProducerConsumer.dfy`.

`dafny verify dfyconfig.toml` checks everything. `Counting.dfy` has sums over the program counters
of a population of threads, and `Basics.dfy` the few definitions that several models share.

## How the concurrent programs are modelled

A state is the shared data, one program counter per thread, and, where a promise speaks about the
past, a history the program does not have. `Enabled` says which step a thread can make, `Do` makes
it, and a run is a sequence of actions; a lemma about `After(..., run)` or about `Reachable` states
is about every interleaving. Random numbers and the choice of the thread that a signal wakes are
parameters of the action.

Assumptions: memory is sequentially consistent with atomic single reads and writes; allocation and
`realloc` succeed, the latter with arbitrary new bytes; `pthread_cond_wait` releases its mutex and
sleeps in one step, and sleepers may also wake spuriously; jobs terminate; there is one pool,
because its keepalive flag is a file-level variable (`common/thpool.c:13`); no submission is under
way when `thpool_destroy` is called and none starts later.

A critical section is a single step where nobody can look inside it. In the pool these are the
binary semaphore's own sections and the workers' sections on `thcount_lock`; `rw_mutex` and the
waiter's section are kept in separate steps, since the waiter reads the queue length without
`rw_mutex`. A job that itself submits work is covered by letting submitters run at any time.

## What the proofs brought out

- The soundness of `thpool_wait` rests on the order of its two reads and of the workers' two
  updates alone. The lock it holds is needed only so that no wakeup is lost.
- `thpool_wait` beside `thpool_destroy`: when the latter throws away jobs that the former still
  waits for, `thpool_wait` either returns although they have not been run, or is left asleep with
  nobody to signal it. Both happen with any number of workers, and only when the clear has begun.
- `thpool_init` accepts zero workers, and such a pool strands the first job submitted to it.
- `thpool_destroy` needs at most one round of broadcasts for each worker, wherever the workers are
  when it broadcasts, and then one step for each job left and four more.
- Deserializing past the end of a buffer makes up a record out of its last four bytes, because
  `deserialize_null` steps back even when it could not step forward.
- In the multi-producer program every maximal run makes exactly the same number of thread steps,
  and it is known exactly how many threads stay blocked: with P producers, C consumers and capacity
  K, min(P, C + K) producers and min(P, C) consumers get out. `main` does not check the capacity it
  is given; with capacity 0 and something to generate, nothing ever moves.
- The counter program returns for all schedules exactly under the thresholds described by
  `ConditionVariables.Proper`, which the program's 3, 6 and 10 meet; otherwise there is a run that
  leaves `func1` asleep for ever.
- The numbers left over in the single-producer program are bounded not only by the batch size but
  also by the capacity, and every value up to the smaller bound does occur.
- A record survives the serializer exactly when neither of its names begins with four 0xFF bytes.
  The buffer's doubling stays within an `int` exactly when at most 2^30 bytes have to fit.

## Model

| member | source | states |
|---|---|---|
| `JobQueue.FirstInFirstOut` | common/thpool.c:342-387 | over any sequence of pushes and pulls, what was handed out followed by what is queued is what was pushed, in order, and a pull comes away empty only from an empty queue |
| `JobQueue.JobQueue.Push` | common/thpool.c:342-363 | appends the node at the end of the prev chain, which keeps exactly len distinct nodes from front to rear, and posts the token |
| `JobQueue.JobQueue.Pull` | common/thpool.c:365-387 | takes the oldest node or null, leaves the rest of the chain intact, and sets the token exactly when more than one node was queued, leaving it as it was otherwise |
| `JobQueue.JobQueue.Clear` | common/thpool.c:330-340 | terminates with the queue empty and v zero, having freed each queued node once, oldest first |
| `JobQueue.AddWork` | common/thpool.c:117-131 | a fresh node with the given function and argument goes to the end of the queue |
| `ThreadPoolInvariant.StepKeepsLocks` | common/thpool.c:133-142 | every step of anybody keeps rw_mutex and thcount_lock held by at most one thread, and by whom the program counters say |
| `ThreadPoolInvariant.CountersUnderLock` | common/thpool.c:138-141 | while thpool_wait holds thcount_lock no step of anybody changes either counter |
| `ThreadPoolInvariant.QueueUnderLock` | common/thpool.c:344-386 | while rw_mutex is held only its holder changes the queue |
| `ThreadPoolInvariant.StepKeepsCounters` | common/thpool.c:269-303 | num_threads_alive and num_threads_working count the workers between the respective increments and decrements, and after start-up nobody is still unregistered |
| `ThreadPoolInvariant.NobodyAlive` | common/thpool.c:112-112 | since thpool_init waits for all workers to register, a zero alive count later means every worker has ended |
| `ThreadPoolInvariant.StepKeepsPhases` | common/thpool.c:144-179 | every step keeps the phases of shutdown: flag, polling, clear, in that order, the clear only with nobody alive |
| `ThreadPoolInvariant.StepKeepsLedger` | common/thpool.c:285-291 | every step keeps the account of all nodes: queued, in a worker's hands, run, freed |
| `ThreadPoolSafety.StepKeepsInv` | common/thpool.c:247-306 | every step of workers, submitters, waiter and destroyer keeps the whole invariant |
| `ThreadPoolSafety.BarrierIsSound` | common/thpool.c:138-141 | when thpool_wait returns, every job pushed before its last look at the queue length has been run, exactly if none of them is among the jobs that thpool_destroy has thrown away, hence always before thpool_destroy comes to its clear |
| `ThreadPoolJobs.WaitRunsEarlierJobs` | common/thpool.c:133-142 | for its caller: when a call of thpool_wait has returned, before thpool_destroy comes to its clear, every job pushed before the call has been run |
| `ThreadPoolSafety.NoLostWakeup` | common/thpool.c:139-140 | a waiter asleep or committed to sleeping has queued jobs or working threads to wait for, always before thpool_destroy comes to its clear, and after that exactly as long as the queue is not empty or nothing has been thrown away |
| `ThreadPoolSafety.LastWorkerSignals` | common/thpool.c:293-298 | the step that leaves a sleeping waiter nothing to wait for is a worker's decrement to zero, which wakes it, or, in the clear of thpool_destroy, the pull of the last job, which does not |
| `ThreadPoolSignals.OnlyLastWorkerWakesWaiter` | common/thpool.c:293-298 | a sleeping waiter is woken by a worker exactly when that leaves nobody working, and by nothing else that is not spurious |
| `ThreadPoolSafety.TokenBacksJobs` | common/thpool.c:273-285 | while the pool runs, a queued job is backed by the token, by a worker past bsem_wait and before its pull, or by a push or pull about to post; and a token with a sleeper has a woken worker |
| `ThreadPoolSafety.NoStrandedJob` | common/thpool.c:411-435 | in a running pool with at least one worker, jobs queued with every worker asleep happen only while a push is about to post |
| `ThreadPoolSignals.PullPostsIffJobsRemain` | common/thpool.c:365-387 | a worker that holds rw_mutex takes the oldest node and goes on to post exactly if nodes remain |
| `ThreadPoolSafety.NoNeedlessPost` | common/thpool.c:380-383 | in every interleaving a worker about to post after its pull finds the queue not empty |
| `ThreadPoolSignals.PostsWake` | common/thpool.c:411-425 | a post sets the token and wakes exactly one sleeper if anybody sleeps, the post to all wakes every one |
| `ThreadPoolSignals.OnlyTakersTake` | common/thpool.c:427-435 | but for posts, the token changes only when a worker comes out of bsem_wait or at the final reset, which take it |
| `ThreadPoolSignals.FlagDecides` | common/thpool.c:273-276 | a worker starts on a job only with the flag found set after bsem_wait, and leaves only when its loop test finds it cleared |
| `ThreadPoolSafety.ServedInOrder` | common/thpool.c:342-387 | in every interleaving the nodes taken out followed by the queue are all nodes pushed, in push order |
| `ThreadPoolSafety.AtMostOnce` | common/thpool.c:286-291 | no node is ever run or freed twice, and only nodes handed to workers are run |
| `ThreadPoolJobs.EachPushesWhatItSubmits` | common/thpool.c:117-131 | in every interleaving each submitter's jobs, function and argument, go on the queue unchanged and in the order of its calls, at most the last one still on the way |
| `ThreadPoolJobs.PushedAreSubmitted` | common/thpool.c:125-128 | the jobs pushed and those still in submitters' hands are, each once, the jobs passed to thpool_add_work |
| `ThreadPoolJobs.RunsWhatIsSubmitted` | common/thpool.c:285-291 | the jobs that workers call are among those submitted, never more often, and exactly those once no thread of a running pool with a worker can move |
| `ThreadPoolSafety.ClearRunsAlone` | common/thpool.c:157-171 | when jobqueue_clear runs every worker has ended, no push is under way and rw_mutex is free |
| `ThreadPoolSafety.ShutdownAccountsForAll` | common/thpool.c:330-340 | after thpool_destroy every node pushed has been freed exactly once, and run exactly once or not at all according to who took it |
| `ThreadPoolShutdown.FewJobsAfterStop` | common/thpool.c:273-300 | whatever happens after the flag is cleared, each worker returns from bsem_wait or pulls at most once more, not both, and then does neither again; all together pull at most as many nodes as workers were between line 276 and their pull |
| `ThreadPoolProgress.EveryRunIsBounded` | common/thpool.c:247-306 | the steps of workers, submitters and waiter in any run are bounded by the number of workers, calls, polling steps and spurious wakeups |
| `ThreadPoolProgress.SettledMeansDone` | common/thpool.c:133-142 | when no thread of a running pool with at least one worker can move, the queue is empty, every job pushed has been run and freed once, and thpool_wait is not blocked |
| `ThreadPoolLimits.RestsDoneIff` | common/thpool.c:75-76 | that everything is done whenever a running pool rests holds exactly if there is at least one worker or nobody submits |
| `ThreadPoolProgress.DestroyNeverStuck` | common/thpool.c:144-171 | thpool_destroy can always make its next step |
| `ThreadPoolProgress.EveryRoundRetiresAWorker` | common/thpool.c:159-169 | each broadcast, whatever the workers are doing at that moment, has retired at least one of them by the next time none of them can move |
| `ThreadPoolShutdown.RoundsRetireAll` | common/thpool.c:159-169 | after k rounds of a broadcast and a rest at most n - k workers are alive, and after n rounds all of them have ended |
| `ThreadPoolShutdown.DestroyReturns` | common/thpool.c:157-171 | once the flag is cleared and nobody is alive, thpool_destroy returns after an exactly known number of its own steps, at most the queue length and four, whatever else happens |
| `ThreadPoolLimits.BarrierBroken` | common/thpool.c:138-171 | for any number of workers a run in which thpool_wait returns with the only job thrown away instead of run |
| `ThreadPoolLimits.WaiterForgotten` | common/thpool.c:139-171 | for any number of workers a run in which thpool_destroy has returned and left thpool_wait asleep with nobody to wake it |
| `BoundedBuffer.Buffer.ProduceItem` | Pthread/multiple_producer_consumer.c:119-127 | pushes the number on the stack kept in the array and counts it |
| `BoundedBuffer.Buffer.ConsumeItem` | Pthread/multiple_producer_consumer.c:129-136 | pops the last number and counts it |
| `BoundedBuffer.Buffer.Produce` | Pthread/multiple_producer_consumer.c:150-163 | below the limit and with room the number drawn goes on top of the stack and is counted, otherwise nothing changes; the producer leaves exactly at the limit; and this is the producer's step of the protocol |
| `BoundedBuffer.Buffer.Consume` | Pthread/multiple_producer_consumer.c:185-200 | below the limit the last item, if there is one, comes off the stack and is counted, otherwise nothing changes; the consumer leaves exactly at the limit; and this is the consumer's step of the protocol |
| `MultiProducerConsumer.ProducerHasRoom` | Pthread/multiple_producer_consumer.c:157-163 | a producer below the limit that holds a token and the mutex finds the buffer not full |
| `MultiProducerConsumer.ConsumerHasItem` | Pthread/multiple_producer_consumer.c:194-200 | a consumer below the limit that holds a token and the mutex finds the buffer not empty |
| `MultiProducerConsumer.StepKeepsInv` | Pthread/multiple_producer_consumer.c:145-204 | every step keeps mutual exclusion, token and item accounts and exit conditions, and a thread step lowers the rank by exactly one |
| `MultiProducerConsumer.TotalCorrectness` | Pthread/multiple_producer_consumer.c:138-207 | every run is bounded, and at rest exactly limit items have been generated and consumed, each once, with an exact number of finished threads and of steps |
| `MultiProducerConsumer.NumbersPassUnchanged` | Pthread/multiple_producer_consumer.c:119-136 | in every run the numbers produced are the numbers drawn, in order, those consumed are what consumers found on top, and the former are, each once, the latter and what is stacked |
| `MultiProducerConsumer.ItemsAreTheRange` | Pthread/multiple_producer_consumer.c:121-121 | the numbers that get into the buffer are exactly those of the range |
| `MultiProducerConsumer.NeverBothBlocked` | Pthread/multiple_producer_consumer.c:147-204 | at rest a producer and a consumer are never blocked together |
| `MultiProducerConsumer.FallbackBranchesAreDead` | Pthread/multiple_producer_consumer.c:157-200 | neither else branch can be taken in a reachable state, and size stays within capacity |
| `MultiProducerConsumer.TokensAccounted` | Pthread/multiple_producer_consumer.c:63-65 | tokens are conserved, and those that stand for no item are exactly the ones left by finished producers and not used up by finished consumers |
| `MultiProducerConsumer.ConsumersLeaveAfterProducers` | Pthread/multiple_producer_consumer.c:150-190 | no more consumers than producers ever leave, producers only at the generation limit and consumers only at the consumption limit |
| `MultiProducerConsumer.MainLeavesAtCompletion` | Pthread/multiple_producer_consumer.c:255-264 | when main has left its polling loop everything has been generated and consumed; and with a producer, a consumer and positive capacity, once the threads are at rest main's next look at the counters ends the loop |
| `MultiProducerConsumer.CompletesIffCapacity` | Pthread/multiple_producer_consumer.c:216-236 | all runs that come to rest have completed, exactly if the capacity is positive or there is nothing to generate |
| `SerializedBuffer.GrowTwice` | common/serialize.c:19-24 | growth depends only on the largest need so far, not on the order or number of steps |
| `SerializedBuffer.GrowthFitsIff` | common/serialized_buffer.c:63-73 | the doubling stays within an int exactly when at most 2^30 bytes have to fit |
| `SerializedBuffer.PeekIsPure` | common/deserialize.c:28-36 | deserialize_null leaves the cursor on data that is not the sentinel, passes the sentinel, and with fewer than four bytes left moves back four but not below zero |
| `SerializedBuffer.IntRoundTrip` | common/serialize.c:58-62 | the four bytes of an int give back the int |
| `SerializedBuffer.IntBytesAddUp` | common/serialize.c:58-62 | the four bytes of an int add up to it modulo 2^32, and the sentinel is the int -1 |
| `SerializedBuffer.IntReadBack` | common/deserialize.c:38-49 | where the bytes of an int stand, the read answers it and passes them |
| `SerializedBuffer.ExchangeInts` | common/deserialize.c:38-49 | any list of ints that fits, written to a fresh buffer with serialize_int, comes back after a reset |
| `SerializedBuffer.SerBuffer.Resize` | common/serialized_buffer.c:63-73 | doubles the size within an int and keeps the bytes |
| `SerializedBuffer.SerBuffer.Reserve` | common/serialize.c:16-24 | the growth loop ends with the least doubling that fits and keeps all bytes |
| `SerializedBuffer.SerBuffer.SerializeData` | common/serialize.c:9-34 | appends the data at the cursor whatever growth occurs, and leaves the bytes behind it alone |
| `SerializedBuffer.SerBuffer.SerializeInt` | common/serialize.c:58-62 | appends the bytes of the int |
| `SerializedBuffer.SerBuffer.Skip` | common/serialized_buffer.c:75-91 | moves the cursor by the signed amount, growing when needed and keeping the bytes |
| `SerializedBuffer.SerBuffer.DeserializeData` | common/deserialize.c:8-18 | reads and advances, or leaves destination and cursor alone when too little is left |
| `SerializedBuffer.SerBuffer.DeserializeNull` | common/deserialize.c:28-36 | answers whether the sentinel stands at the cursor and then passes it, stays on other data, and moves back by four when too little is left |
| `SerializedBuffer.SerBuffer.DeserializeInt` | common/deserialize.c:38-49 | reads the int at the cursor and advances by four, or answers zero and stays when too little is left |
| `SerializedBuffer.WriteAll` | common/serialize.c:9-34 | any sequence of serialize_data calls appends the concatenation of their data, with the size grown to the least doubling that holds it |
| `SerializedBuffer.JoinedJoins` | common/serialize.c:9-34 | the concatenation that WriteAll appends takes lists of calls one after the other |
| `SerializedBuffer.AmortisedGrowth` | common/serialized_buffer.c:6-6 | after any mix of calls: cursor within the size, size the default or less than twice the largest cursor so far, and all bytes moved by realloc adding up to size less the default |
| `PersonCodec.RoundTrip` | common/serialization_test.c:30-69 | where an encoding stands, decoding gives back the record exactly when no name begins with the sentinel, and then advances by exactly its length |
| `PersonCodec.PersonParts` | common/serialization_test.c:30-44 | the layout of a record: the name, the age after 30 bytes, the occupation after 34, the weight right after the occupation |
| `PersonCodec.PastTheEnd` | common/serialization_test.c:46-69 | reading on at the end of a buffer gives a record with zeroed names and the last four bytes as age and employee code |
| `PersonCodec.OccupationBack` | common/serialization_test.c:17-57 | the same for the nested nullable occupation |
| `PersonCodec.RoundTripAll` | common/serialization_test.c:110-122 | a list of records comes back exactly when all of them are well formed, and then the cursor stands right behind it |
| `PersonCodec.SelfDelimiting` | common/serialization_test.c:17-69 | no encoding of a well-formed record is a prefix of another's |
| `PersonCodec.SerializeOccupation` | common/serialization_test.c:17-28 | appends exactly the encoding to the buffer |
| `PersonCodec.SerializePerson` | common/serialization_test.c:30-44 | appends exactly the encoding to the buffer |
| `PersonCodec.Serialize` | common/serialize.c:36-45 | appends the encoding, the sentinel for a null record |
| `PersonCodec.DeserializeOccupation` | common/serialization_test.c:46-57 | reads as the decoder on bytes says and leaves the bytes alone |
| `PersonCodec.DeserializePerson` | common/serialization_test.c:59-69 | reads as the decoder on bytes says and leaves the bytes alone |
| `PersonCodec.Deserialize` | common/deserialize.c:20-26 | reads as the decoder on bytes says and leaves the bytes alone |
| `PersonCodec.Exchange` | common/serialization_test.c:88-123 | any list that fits, written to a fresh buffer, comes back after a reset exactly when all its records are well formed |
| `ConditionVariables.Func1Keeps` | Miscs/condition_variables.c:38-55 | every step of func1 keeps the invariant and lowers the rank |
| `ConditionVariables.Func2Keeps` | Miscs/condition_variables.c:57-74 | every step of func2 keeps the invariant, in particular that func1 sleeps justifiedly, and lowers the rank |
| `ConditionVariables.DecidesByCount` | Miscs/condition_variables.c:43-62 | in every state and for all thresholds func1 gets past its loop test, and func2 decides to signal, only by a step that finds the count out of the range |
| `ConditionVariables.Func1Looks` | Miscs/condition_variables.c:42-45 | undisturbed, func1 about to look at the count falls asleep exactly if it is in the range, and gets past the test otherwise |
| `ConditionVariables.Func2Looks` | Miscs/condition_variables.c:61-64 | undisturbed, func2 about to look at the count signals exactly if it is out of the range |
| `ConditionVariables.OnlySignalWakes` | Miscs/condition_variables.c:44-63 | func1 asleep is woken by the signal of func2 and by nothing else that is not spurious |
| `ConditionVariables.FinishesRound` | Miscs/condition_variables.c:47-53 | undisturbed, a thread past its test of the range adds one and returns exactly if COUNT_DONE is then reached |
| `ConditionVariables.CountIsIncrements` | Miscs/condition_variables.c:47-69 | in every run the count is the number of increments made, none of them lost |
| `ConditionVariables.NoLostWakeup` | Miscs/condition_variables.c:42-64 | func1 asleep and unsignalled means the count is at most COUNT_HALT2, or one more with func2 still ahead of its signal |
| `ConditionVariables.BothReturn` | Miscs/condition_variables.c:38-74 | the threads make boundedly many steps, stop only by both returning, and then the count is COUNT_DONE or one more |
| `ConditionVariables.SourceReturns` | Miscs/condition_variables.c:5-7 | with the program's own thresholds the threads stop only by both returning, at 10 or 11 |
| `ConditionVariables.ImproperGetsStuck` | Miscs/condition_variables.c:52-72 | for other thresholds a run leaves func1 asleep with func2 gone |
| `ConditionVariables.ReturnIffProper` | Miscs/condition_variables.c:5-7 | both threads are sure to return exactly under the stated thresholds |
| `ProducerConsumer.Buffer.Generate` | Pthread/producer_consumer.c:102-117 | the batch loop pushes exactly the batch on the stack in the array, within the capacity |
| `ProducerConsumer.Buffer.TakeOne` | Pthread/producer_consumer.c:132-136 | pops one number if there is one |
| `ProducerConsumer.CountersAgree` | Pthread/producer_consumer.c:95-141 | the three counters and the stack always agree, the stack stays within capacity, and once num_gen numbers are read nothing is left to generate |
| `ProducerConsumer.TurnsStack` | Pthread/producer_consumer.c:102-136 | a turn of the producer puts its digits on top of the stack, a turn of the consumer takes the top number, no other step touches it, and the counters count them |
| `ProducerConsumer.DigitsPassUnchanged` | Pthread/producer_consumer.c:109-136 | in every run the digits drawn are, each once, those the consumer took off the top and those left |
| `ProducerConsumer.ItemsAreTheDigits` | Pthread/producer_consumer.c:113-114 | the numbers that get into the buffer are exactly the digits 0 to 9 |
| `ProducerConsumer.NobodyWaitsInVain` | Pthread/producer_consumer.c:100-138 | a consumer that still has to read finds numbers once the producer is done, and a producer that still has to generate has a consumer |
| `ProducerConsumer.LeavesExactly` | Pthread/producer_consumer.c:103-118 | any number up to the bound is left over by some run |
| `ProducerConsumer.MovesAreBounded` | Pthread/producer_consumer.c:100-138 | in any run at most 2 * num_gen turns put numbers into the buffer or take one out |
| `ProducerConsumer.NeverTrappedIff` | Pthread/producer_consumer.c:100-138 | every run can be continued until both threads end, exactly if num_gen is zero, or positive with a batch bound of at least 2 and a positive capacity |
| `ProducerConsumer.LeftoverExactly` | Pthread/producer_consumer.c:95-141 | the numbers left when both threads have ended are exactly those from 0 to the smaller of num_gen_per_loop - 2 and capacity - 1 |

## Left out

- Creating, detaching and naming threads, signals, and thpool_pause, thpool_resume and thread_hold.
- The wall clock in thpool_destroy: its two polling loops are one loop of any number of rounds, which ends in the same state.
- The release of the pool, of its threads' records and of the buffers while threads may still use them, such as the final unlock at common/thpool.c:303 or buffer_destroy while producers still post; nothing is claimed about the lifetime of that memory.
- Several concurrent callers of thpool_wait (one signal wakes one of them), several pools, and submissions during or after thpool_destroy.
- thpool_num_threads_working, which only reads a counter, and the null checks on pool and buffer pointers.
- Failing allocations, and the size that serialized_buffer_resize records even if realloc fails.
- SerBuffer.DeserializeData: speaks of calls whose cursor and length add up to an int, because common/deserialize.c:13 adds them as ints and C leaves an overflow undefined.
- Negative skips and cursor increments as public calls; only deserialize_null moves back.
- Buffers of other record types: serialize and deserialize dispatch to the person codec, the only one registered, and serialize_list only calls the function it is given.
- Byte order: ints are little-endian, which the round trip does not depend on.
- The fairness of schedulers: progress is stated as a bound on steps together with what holds when no step is left; the single producer's random draws may be zero for ever.
- Logging, option parsing, serialized_buffer_dump, file, socket, daemon, debugger and pointer examples, which have no property of this kind.
