# Sequential core of the MultithreadingConcept demos, in Dafny

The repository is a set of Java concurrency teaching demos. Under the threads
and locks there is a small amount of sequential, stateful logic, and this
project models it and proves what it promises:

- **The single-slot producer/consumer buffer, twice.** `SharedBuffer` uses a
  monitor with `wait`/`notify` (fields `data`, `hasData`).
  `LockWithConditionExample` uses a `ReentrantLock` with one `Condition`
  (fields `sharedData`, `readyToConsume`). Both are the same EMPTY/FULL
  machine. They differ in one place: what an `InterruptedException` does to
  a call that is waiting for its guard.
  - In `SharedBuffer` the catch is inside the wait loop and sets the
    thread's interrupted status again. The next `wait()` then throws at
    once, before it releases the monitor. So an interrupted call whose guard
    does not hold loops forever with the monitor held, and the other thread
    can never enter. The model calls this the *Retry* discipline.
  - In `LockWithConditionExample` the catch is outside the loop, so the call
    is given up with the state untouched. This is the *Abandon* discipline.
- **`ThreadJoinDemo.DataProcessor`.** Three stages, each guarded by the flag
  the previous one sets.
- **`DeadlockScenarios`.** The balance arithmetic of `BankAccount.transfer`
  (on Java's 32-bit `int`), the two transfers of `main`, and the table of
  forks and philosophers built by `DiningPhilosophers`.
- **`InterviewTopics`.**
  - The withdrawal loop of `StopMethodProblems`, including what a `stop()`
    between withdrawal and transfer does.
  - The cooperative loop of `SafeStopAlternative`, with its rollback, its
    `break` and `cleanup`.
  - The pause flag of `SafeSuspendResumeAlternative`.

## How the model is built

- **Waiting.** A call whose guard does not hold returns `Waits` and changes
  nothing. The waiting thread re-checks the guard on its next turn. The
  thread's interrupted status is an input of the call (`interrupted`). It
  matters only when the guard does not hold:
  - under Abandon the call then returns `Abandoned`;
  - under Retry it returns `Spins`, the call that never returns. In the
    interleaving model the world is then `Hung`: no call of either thread
    changes anything any more.
- **Module `Handoff`** (`handoff.dfy`) holds the pure machine: `Produce` and
  `Consume` on a `Slot`, parameterised by the discipline. It also holds an
  interleaving model:
  - `World` is the slot plus the progress of one producer loop (a list of
    values) and one consumer loop (a number of calls).
  - `Step` applies one scheduler `Event`: a turn of either thread, or an
    interrupt of either thread. An interrupt of a parked thread under
    Abandon ends its call only if the guard still blocks at that moment; a
    call that was signalled first finishes normally.
  - `Run` applies a whole schedule.

  The classes in `shared_buffer.dfy` and `lock_with_condition.dfy` are proved
  against `Handoff.Produce` and `Handoff.Consume`. `LockCondition.Drive` runs
  the two loops of `LockWithConditionExample.main` over a schedule. Its
  reported values, the number of finished produce calls, the consume calls
  left and the final slot are proved to be those of `Handoff.Run`.
- **Under Retry** nothing is ever lost or duplicated. What was consumed,
  then what the slot holds, then what is still to produce, is always exactly
  the producer's list. This is safety only: an interrupt that finds a thread
  blocked hangs both threads, as `InterruptHangsSharedBuffer` shows.
- **Under Abandon** an interrupted produce drops its value, so the consumer
  sees a subsequence of the list. The two disciplines agree whenever there
  is no interrupt. `InterruptLosesValueOnlyUnderAbandon` exhibits one
  schedule on which they differ.
- **The other classes** follow the same pattern. Each has a pure function
  for one call or one loop iteration (`ThreadJoin.Apply`,
  `InterviewTopics.SafeIteration`, `InterviewTopics.SafeLoop`,
  `DeadlockScenarios.Transferred`). Lemmas over sequences of calls or ticks
  prove the invariants, and the class methods are proved to match the
  functions.
- **Java `int` arithmetic** is written out where it can overflow
  (`DeadlockScenarios.Wrap`). The other integer values in the core are
  bounded (500-steps from 1000, seat indices), so they are plain `int`.

Two facts about the buffers' code that the model keeps:

- Neither buffer passes a cancelled wait to its caller. `SharedBuffer`'s
  catch sits inside the wait loop. `LockWithConditionExample` ends the call
  but swallows the exception, so the caller sees only the re-set interrupted
  status.
- Both classes keep a plain `int` next to a boolean flag, and `consume`
  leaves the stale value in place.

## Model

| member | source | states |
|---|---|---|
| Handoff.Produce | src/synchronization/waitnotify/SharedBuffer.java:9-26 | produce completes exactly when the slot is empty, and then stores the value and marks the slot full; a call that does not complete leaves the slot as it was; it waits exactly when the slot is full and the thread not interrupted; when full and interrupted it is abandoned under Abandon and spins (never returns) under Retry |
| Handoff.Consume | src/synchronization/waitnotify/SharedBuffer.java:29-46 | consume completes exactly when the slot is full, returns the stored value, marks the slot empty and keeps the value; otherwise the slot is untouched; it waits when empty and not interrupted; when empty and interrupted it is abandoned under Abandon and spins under Retry |
| Handoff.ProduceThenConsume | src/synchronization/waitnotify/SharedBuffer.java:20-45 | round trip: on an empty slot, a produce of v followed by a consume completes and returns v |
| Handoff.InterruptMattersOnlyWhenBlocked | src/synchronization/waitnotify/SharedBuffer.java:11-38 | a call whose guard already holds never reaches wait(), so its outcome does not depend on the interrupted status, under either discipline |
| Handoff.Start | src/synchronization/waitnotify/SharedBuffer.java:5-6 | a new buffer is empty and the driver loops have done nothing: the accounting invariant holds, nothing is abandoned and no thread spins |
| Handoff.Step | src/synchronization/waitnotify/SharedBuffer.java:9-46 | one event either hands out the value the slot held or leaves consumed unchanged; it finishes at most one produce call, which stores the next value into an empty slot or, only under Abandon, drops it; once a thread spins nothing but interrupt flags changes; Abandon never spins |
| Handoff.Run | src/synchronization/waitnotify/SharedBuffer.java:9-46 | over a schedule, consumed values and produce fates only grow; a hung world stays hung with nothing handed over; under Abandon the world never hangs |
| Handoff.StepAccounted | src/synchronization/waitnotify/SharedBuffer.java:9-46 | every scheduler step keeps all values accounted for: what is still to produce is the tail of the list, and consumed-then-held is the stored values in order |
| Handoff.RunAccounted | src/synchronization/waitnotify/SharedBuffer.java:9-46 | the same accounting holds after any schedule of turns and interrupts, under either discipline |
| Handoff.RetryRunAbandonsNothing | src/synchronization/waitnotify/SharedBuffer.java:12-17 | under Retry no produce or consume call is ever abandoned, whatever the interrupts |
| Handoff.RetryHandsOverInOrder | src/synchronization/waitnotify/SharedBuffer.java:9-46 | under Retry, for every schedule (safety only, the run may hang): consumed, then held, then still-to-produce equals the producer's list; consumed is a prefix of it; the slot is full exactly when one produced value is unconsumed |
| Handoff.RetryFinishedConsumerGotAll | src/synchronization/waitnotify/SharedBuffer.java:9-46 | once a consumer with one call per value has finished, it received exactly the producer's list and the slot is empty |
| Handoff.AbandonKeepsOrder | src/LocksAndSemaphoresConcepts/LockWithConditionExample.java:20-57 | even when interrupted calls are abandoned, the consumed values are a subsequence of the produced list: in order, never repeated or invented |
| Handoff.CalmRunsAgree | src/LocksAndSemaphoresConcepts/LockWithConditionExample.java:23-54 | without interrupts the two disciplines give identical runs |
| Handoff.DemoHandsOverOneToFive | src/LocksAndSemaphoresConcepts/LockWithConditionExample.java:60-75 | with 1..5 produced, five consumes and no interrupts, the consumer sees a prefix of 1,2,3,4,5, and exactly 1,2,3,4,5 once its loop is done |
| Handoff.AlternatingScheduleDeliversAll | src/LocksAndSemaphoresConcepts/LockWithConditionExample.java:64-75 | the schedule in which producer and consumer take turns completes both loops and delivers the whole list |
| Handoff.InterruptLosesValueOnlyUnderAbandon | src/LocksAndSemaphoresConcepts/LockWithConditionExample.java:23-33 | on one schedule where the waiting producer is interrupted and the consumer takes the lock first, the Retry buffer delivers 1,2 while the Abandon buffer loses 2 and leaves its consumer waiting |
| Handoff.InterruptHangsSharedBuffer | src/synchronization/waitnotify/SharedBuffer.java:11-18 | a producer interrupted before produce(2) finds the slot full and spins with the monitor held: nothing is ever consumed and the world is hung; on the same schedule the Abandon buffer drops 2 and still delivers 1 |
| Handoff.Alternate | src/LocksAndSemaphoresConcepts/LockWithConditionExample.java:64-75 | the turn-taking schedule has two events per value and no interrupt |
| WaitNotify.SharedBuffer.constructor | src/synchronization/waitnotify/SharedBuffer.java:5-6 | a new buffer is empty (`hasData` false, `data` 0) with empty traces |
| WaitNotify.SharedBuffer.Produce | src/synchronization/waitnotify/SharedBuffer.java:9-26 | matches Handoff.Produce under Retry; completes exactly when `hasData` was false, appending the value to the produced trace; spins when `hasData` and interrupted; never overwrites an unconsumed value; keeps the invariant consumed ++ held == produced |
| WaitNotify.SharedBuffer.Consume | src/synchronization/waitnotify/SharedBuffer.java:29-46 | matches Handoff.Consume under Retry; completes exactly when `hasData` was true, returns `data` (left unchanged), which is the next produced value in order; spins when empty and interrupted; keeps the invariant |
| LockCondition.LockWithConditionExample.constructor | src/LocksAndSemaphoresConcepts/LockWithConditionExample.java:12-15 | initially `sharedData` is 0, `readyToConsume` false and the lock free |
| LockCondition.LockWithConditionExample.Produce | src/LocksAndSemaphoresConcepts/LockWithConditionExample.java:20-37 | matches Handoff.Produce under Abandon; completes only after `readyToConsume` was false, setting `sharedData` and `readyToConsume`; an interrupted wait abandons with both fields unchanged; the lock is free on every exit |
| LockCondition.LockWithConditionExample.Consume | src/LocksAndSemaphoresConcepts/LockWithConditionExample.java:42-58 | matches Handoff.Consume under Abandon; completes only when `readyToConsume` was true, reports `sharedData`, clears `readyToConsume` and never changes `sharedData`; interrupted waits abandon; the lock is free on every exit |
| LockCondition.ProducerTurn | src/LocksAndSemaphoresConcepts/LockWithConditionExample.java:64-68 | one turn of the producer task leaves the example and the loop index exactly where Handoff.Step puts the producer, with the lock free |
| LockCondition.ConsumerTurn | src/LocksAndSemaphoresConcepts/LockWithConditionExample.java:71-75 | one turn of the consumer task leaves the example, the call count and the reported values exactly where Handoff.Step puts the consumer, with the lock free |
| LockCondition.Drive | src/LocksAndSemaphoresConcepts/LockWithConditionExample.java:60-83 | running main's producer and consumer loops on one example object along any schedule reports exactly the values Handoff.Run predicts under Abandon, and ends with its finished produce calls, remaining consume calls and `sharedData`/`readyToConsume` as Handoff.Run predicts |
| LockCondition.DriveDemo | src/LocksAndSemaphoresConcepts/LockWithConditionExample.java:64-75 | main's driver (1..5, five consumes) without interrupts reports a prefix of 1,2,3,4,5, and all of it once the consumer loop has finished |
| ThreadJoin.Apply | src/ThreadJoin/ThreadJoinDemo.java:27-60 | `loadData` sets the loaded flag unless interrupted; `processData` sets the processed flag only when loaded and not interrupted; a report is generated exactly when processed; each call keeps processed ⇒ loaded |
| ThreadJoin.After | src/ThreadJoin/ThreadJoinDemo.java:23-61 | after any sequence of calls and interrupts on a new processor, `isDataProcessed` implies `isDataLoaded` |
| ThreadJoin.FlagsAreMonotone | src/ThreadJoin/ThreadJoinDemo.java:23-61 | neither flag is ever reset: more calls keep what earlier calls set |
| ThreadJoin.FlagsHaveHistory | src/ThreadJoin/ThreadJoinDemo.java:27-51 | the loaded flag is set only after an uninterrupted `loadData`; the processed flag only after an uninterrupted `processData` that follows one |
| ThreadJoin.ReportNeedsLoadThenProcess | src/ThreadJoin/ThreadJoinDemo.java:53-60 | a report is generated only after an uninterrupted load and then an uninterrupted process |
| ThreadJoin.DataProcessor.constructor | src/ThreadJoin/ThreadJoinDemo.java:24-25 | a new processor has both flags false |
| ThreadJoin.DataProcessor.LoadData | src/ThreadJoin/ThreadJoinDemo.java:27-36 | sets `isDataLoaded` unless the sleep is interrupted, in which case nothing changes; `isDataProcessed` untouched |
| ThreadJoin.DataProcessor.ProcessData | src/ThreadJoin/ThreadJoinDemo.java:38-51 | changes nothing when not loaded; otherwise sets `isDataProcessed` unless interrupted; never touches `isDataLoaded` |
| ThreadJoin.DataProcessor.GenerateReport | src/ThreadJoin/ThreadJoinDemo.java:53-60 | changes no field and reports exactly when `isDataProcessed`, which implies the data was loaded too |
| DeadlockScenarios.Wrap | src/DeprecatedMethod/DeadLock/DeadlockScenarios.java:28-29 | Java int arithmetic: the result is an int congruent to the exact value modulo 2^32, and equal to it when it fits |
| DeadlockScenarios.Transferred | src/DeprecatedMethod/DeadLock/DeadlockScenarios.java:28-29 | both new balances are Java ints, congruent modulo 2^32 to from - amount and to + amount |
| DeadlockScenarios.TransferConservesTotal | src/DeprecatedMethod/DeadLock/DeadlockScenarios.java:28-29 | a transfer between two accounts leaves their (int) total unchanged, overflow included |
| DeadlockScenarios.TransferIsExactWithoutOverflow | src/DeprecatedMethod/DeadLock/DeadlockScenarios.java:28-29 | without overflow the payer loses exactly `amount`, the payee gains exactly `amount`, and the exact sum is unchanged |
| DeadlockScenarios.TransferCanOverdraw | src/DeprecatedMethod/DeadLock/DeadlockScenarios.java:18-31 | there is no funds check: 300 minus 500 leaves -200 |
| DeadlockScenarios.SelfTransferCancels | src/DeprecatedMethod/DeadLock/DeadlockScenarios.java:19-29 | a transfer to the same account (the monitor is reentrant) leaves its balance unchanged |
| DeadlockScenarios.BankAccount.constructor | src/DeprecatedMethod/DeadLock/DeadlockScenarios.java:13-16 | sets `id` and `balance`; `id` is a constant afterwards |
| DeadlockScenarios.BankAccount.Transfer | src/DeprecatedMethod/DeadLock/DeadlockScenarios.java:18-32 | for distinct accounts the balances become Transferred(...); for the same account nothing changes; the int total is conserved; an interrupted sleep does not stop it |
| DeadlockScenarios.MainTransfers | src/DeprecatedMethod/DeadLock/DeadlockScenarios.java:142-146 | from 1000/1000, 500 from account 1 to 2 and 300 back give 800/1200 in either order |
| DeadlockScenarios.RightFork | src/DeprecatedMethod/DeadLock/DeadlockScenarios.java:56 | the right fork `(i + 1) % n` is a valid index: the next seat, wrapping to 0 after the last |
| DeadlockScenarios.LeftNeighbour | src/DeprecatedMethod/DeadLock/DeadlockScenarios.java:55-56 | the seat before `seat`, wrapping to n - 1, is a valid seat whose right fork is fork `seat` |
| DeadlockScenarios.ForkHasTwoUsers | src/DeprecatedMethod/DeadLock/DeadlockScenarios.java:55-56 | fork k is the right fork of exactly one philosopher, the one before k, and the left fork of k; with two or more philosophers those are distinct; alone, one philosopher uses fork 0 twice |
| DeadlockScenarios.Philosopher.constructor | src/DeprecatedMethod/DeadLock/DeadlockScenarios.java:49-50 | the thread remembers the seat it dines at |
| DeadlockScenarios.DiningPhilosophers.constructor | src/DeprecatedMethod/DeadLock/DeadlockScenarios.java:40-52 | exactly n forks and n philosophers; every fork a distinct object; philosopher i sits at seat i |
| DeadlockScenarios.DiningPhilosophers.ForksOf | src/DeprecatedMethod/DeadLock/DeadlockScenarios.java:54-56 | philosopher i takes fork i as left and fork (i+1) mod n as right; they are different forks when n ≥ 2 and the same when n = 1 |
| InterviewTopics.Withdraw | src/DeprecatedMethod/Stop/Suspend/Resume/InterviewTopics.java:115-117 | 500 is withdrawn exactly when the balance covers it, so a non-negative balance stays non-negative; otherwise nothing changes |
| InterviewTopics.StopMethodProblems.constructor | src/DeprecatedMethod/Stop/Suspend/Resume/InterviewTopics.java:32-33 | starts at balance 1000 with `shouldRun` set |
| InterviewTopics.StopMethodProblems.TransferRound | src/DeprecatedMethod/Stop/Suspend/Resume/InterviewTopics.java:38-47 | same guard, so the balance stays non-negative; a complete pass keeps balance + transferred; a stop() between withdrawal and makeTransfer loses 500 from that sum |
| InterviewTopics.SafeIteration | src/DeprecatedMethod/Stop/Suspend/Resume/InterviewTopics.java:114-125 | one iteration withdraws and transfers 500 only when the balance covers it; a failing transfer restores the balance, transfers nothing and breaks |
| InterviewTopics.SafeLoop | src/DeprecatedMethod/Stop/Suspend/Resume/InterviewTopics.java:113-126 | the while loop over a run of ticks: the balance never rises and stays non-negative, balance + transferred is kept, and a loop already left is not changed |
| InterviewTopics.SafeLoopIsSound | src/DeprecatedMethod/Stop/Suspend/Resume/InterviewTopics.java:109-128 | for any shutdown timing and transfer failures: the balance never rises or goes negative, takes only 1000, 500 or 0, and balance + transferred stays 1000; a loop still going has seen no interrupt and kept `running`; a stopped loop saw `running` cleared or an interrupt |
| InterviewTopics.SafeStopAlternative.constructor | src/DeprecatedMethod/Stop/Suspend/Resume/InterviewTopics.java:108-109 | starts running at balance 1000 with nothing transferred |
| InterviewTopics.SafeStopAlternative.TransferLoop | src/DeprecatedMethod/Stop/Suspend/Resume/InterviewTopics.java:111-129 | the thread body matches SafeLoop; balance non-increasing and non-negative; invariant kept; `cleanup` has run exactly when the loop was left |
| InterviewTopics.WorkerRound | src/DeprecatedMethod/Stop/Suspend/Resume/InterviewTopics.java:159-174 | work is done exactly when not suspended and not interrupted; an interrupt, at the loop check or during the wait, ends the thread without work |
| InterviewTopics.SafeSuspendResumeAlternative.constructor | src/DeprecatedMethod/Stop/Suspend/Resume/InterviewTopics.java:154 | not suspended initially |
| InterviewTopics.SafeSuspendResumeAlternative.PauseThread | src/DeprecatedMethod/Stop/Suspend/Resume/InterviewTopics.java:183-185 | sets `suspended` |
| InterviewTopics.SafeSuspendResumeAlternative.ResumeThread | src/DeprecatedMethod/Stop/Suspend/Resume/InterviewTopics.java:188-193 | clears `suspended` |
| InterviewTopics.SafeSuspendResumeAlternative.WorkerPass | src/DeprecatedMethod/Stop/Suspend/Resume/InterviewTopics.java:159-174 | one pass of the worker matches WorkerRound: work (counted) happens only after `suspended` is seen false; the flag is not changed |

## Left out

- Blocking and waking themselves: `wait`/`notify`, `await`/`signal`, `notifyAll`, spurious wake-ups, monitor ownership, scheduling order. A waiting call is a `Waits` result, and the order of turns is the `schedule` parameter.
- Memory visibility (`volatile`) and atomicity: the model is sequentially consistent, one step at a time.
- All console output, and the `Thread.sleep` pacing. An interrupted sleep is a boolean input where the source reacts to it.
- The CPU the `SharedBuffer` spin burns, and fairness: a `Spins` call is a hung world in which nothing changes any more.
- The Producer and Consumer drivers of the wait/notify demo (`Producer.java`, `Consumer.java`, `ProducerConsumerDemo.java`). Their "1..5, five consumes" content is the `values`/`calls` parameter of `Handoff.Start`.
- `LockWithConditionExample.main` starting real threads. `LockCondition.Drive` interleaves the two task loops along a schedule instead.
- `FileProcessor`, `join`, `join(2000)` and the thread start order in `ThreadJoinDemo`, which are scheduler behaviour.
- Lock-ordering deadlock, `DeadlockDetection`, the philosophers' endless `while (true)` loop and `startDining`, which are liveness questions under real threads. Only the index and arithmetic facts are modelled.
- DeadlockScenarios.DiningPhilosophers.constructor: takes a `nat`, so the `NegativeArraySizeException` that Java throws for a negative count is not modelled.
- `SuspendResumeProblems` (deprecated `suspend`/`resume` misuse) and `ModernConcurrencyExample` (executor shutdown), which are pure JVM thread management.
- `makeTransfer` has an empty body in the source. The amount it receives is a ghost counter, `transferred`.
- LockCondition.LockWithConditionExample.Produce: an interrupt is one boolean per call, covering both an interrupt before `await()` and one during it. When it arrives relative to a signal is decided in `Handoff.Step`: an interrupt of a parked call ends it only while its guard still blocks.
- The other demos (atomics, concurrent collections, `ReentrantLock`/`ReadWriteLock`/`StampedLock`/`Semaphore` examples, priorities, daemon threads, thread life cycle, `SynchronizationDemo`), which only exercise library concurrency primitives.
- DeadlockScenarios.BankAccount.Transfer: takes a non-null `to`, so the `NullPointerException` that `synchronized (to)` throws for a null argument, after the sleep and before any balance changes, is not modelled.
- InterviewTopics.SafeLoopIsSound: `makeTransfer` is empty and `balance -= 500` cannot throw, so the `catch (Exception e)` rollback is unreachable as written. `transferThrows` and the transfer failures it covers are a hypothetical input.
