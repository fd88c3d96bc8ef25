/**
 * `LockWithConditionExample`: the same single-slot hand-off as SharedBuffer,
 * over the fields `sharedData` and `readyToConsume`, guarded by a
 * ReentrantLock and one Condition. Here the InterruptedException of await()
 * is caught outside the wait loop, so an interrupted call is abandoned with
 * the state untouched (the `Abandon` discipline of module Handoff), and the
 * `finally` block releases the lock on every path.
 */
module LockCondition {
  import opened Handoff

  class LockWithConditionExample {
    var sharedData: int
    var readyToConsume: bool
    /** Whether the calling thread holds `lock`. */
    ghost var lockHeld: bool

    function State(): Slot
      reads this
    {
      Slot(sharedData, readyToConsume)
    }

    constructor ()
      ensures sharedData == 0 && !readyToConsume && !lockHeld
    {
      sharedData := 0;
      readyToConsume := false;
      lockHeld := false;
    }

    /**
     * `produce(value)`: stores the value once the slot is empty. `interrupted`
     * says whether the thread is interrupted while it waits (or on entry to
     * await()); the call is then abandoned.
     */
    method Produce(value: int, interrupted: bool) returns (r: Call<()>)
      requires !lockHeld
      modifies this
      ensures !lockHeld
      ensures (r, State()) == Handoff.Produce(old(State()), value, interrupted, Abandon)
      ensures r.Done? <==> !old(readyToConsume)
      ensures r.Done? ==> sharedData == value && readyToConsume
      ensures r.Abandoned? <==> old(readyToConsume) && interrupted
      ensures !r.Done? ==> sharedData == old(sharedData) && readyToConsume == old(readyToConsume)
    {
      lockHeld := true;   // lock.lock()
      if readyToConsume {
        if interrupted {
          // await() throws; the catch restores the interrupted status and the call ends
          r := Abandoned;
        } else {
          // await() releases the lock while the thread is parked
          r := Waits;
        }
      } else {
        sharedData := value;
        readyToConsume := true;
        r := Done(());
      }
      lockHeld := false;  // finally: lock.unlock()
    }

    /**
     * `consume()`: once the slot is full, reports `sharedData` (the value the
     * source prints) and marks the slot empty; `sharedData` is left as it was.
     */
    method Consume(interrupted: bool) returns (r: Call<int>)
      requires !lockHeld
      modifies this
      ensures !lockHeld
      ensures (r, State()) == Handoff.Consume(old(State()), interrupted, Abandon)
      ensures r.Done? <==> old(readyToConsume)
      ensures r.Done? ==> r.result == old(sharedData) && !readyToConsume
      ensures r.Abandoned? <==> !old(readyToConsume) && interrupted
      ensures sharedData == old(sharedData)
      ensures !r.Done? ==> readyToConsume == old(readyToConsume)
    {
      lockHeld := true;   // lock.lock()
      if !readyToConsume {
        if interrupted {
          r := Abandoned;
        } else {
          r := Waits;
        }
      } else {
        r := Done(sharedData);
        readyToConsume := false;
      }
      lockHeld := false;  // finally: lock.unlock()
    }
  }

  /**
   * One turn of the producer task of `main` (its `for` loop calls
   * produce(values[i]) for each i in turn): the current produce call is
   * started or re-checked, and the loop moves on once it has returned.
   */
  method ProducerTurn(example: LockWithConditionExample, values: seq<int>, i: nat, waiting: bool, interrupted: bool, ghost w: World)
    returns (i': nat, waiting': bool)
    requires !example.lockHeld && !Hung(w) && i <= |values|
    requires w.slot == example.State() && w.pending == values[i..] && w.producer == Side(waiting, interrupted, false)
    modifies example
    ensures !example.lockHeld && i' <= |values|
    ensures var n := Step(w, ProducerRuns, Abandon);
            && n.slot == example.State() && n.pending == values[i'..] && n.producer == Side(waiting', interrupted, false)
            && n.consumer == w.consumer && n.consumed == w.consumed && n.callsLeft == w.callsLeft
  {
    i', waiting' := i, waiting;
    if i < |values| {
      assert values[i..][1..] == values[i + 1..];
      var r := example.Produce(values[i], interrupted);
      if r.Done? || r.Abandoned? {
        i', waiting' := i + 1, false;
      } else {
        waiting' := true;
      }
    }
  }

  /** One turn of the consumer task of `main`, which calls consume() `calls` times; `reported` collects what it hands out. */
  method ConsumerTurn(example: LockWithConditionExample, calls: nat, j: nat, waiting: bool, interrupted: bool,
                      reported: seq<int>, ghost w: World)
    returns (j': nat, waiting': bool, reported': seq<int>)
    requires !example.lockHeld && !Hung(w) && j <= calls
    requires w.slot == example.State() && w.callsLeft == calls - j && w.consumer == Side(waiting, interrupted, false)
    requires w.consumed == reported
    modifies example
    ensures !example.lockHeld && j' <= calls
    ensures var n := Step(w, ConsumerRuns, Abandon);
            && n.slot == example.State() && n.callsLeft == calls - j' && n.consumer == Side(waiting', interrupted, false)
            && n.producer == w.producer && n.pending == w.pending && n.consumed == reported'
  {
    j', waiting', reported' := j, waiting, reported;
    if j < calls {
      var r := example.Consume(interrupted);
      if r.Done? {
        reported' := reported + [r.result];
      }
      if r.Done? || r.Abandoned? {
        j', waiting' := j + 1, false;
      } else {
        waiting' := true;
      }
    }
  }

  /**
   * `main`: a new example, a producer task that calls produce(values[i]) for
   * each i in turn and a consumer task that calls consume() `calls` times,
   * run as two threads whose turns and interrupts follow `schedule`. A call
   * that waits is resumed on its thread's next turn. The result is the list
   * of values the consumer reported; `produced` counts the finished produce
   * calls, `remaining` the consume calls still to make, and `last` is the
   * example's final `sharedData` and `readyToConsume`. All four are the ones
   * `Handoff.Run` predicts under the `Abandon` discipline.
   */
  method Drive(values: seq<int>, calls: nat, schedule: seq<Event>)
    returns (reported: seq<int>, produced: nat, remaining: nat, last: Slot)
    ensures var r := Run(Start(values, calls), schedule, Abandon);
            && reported == r.consumed
            && produced <= |values| && values[produced..] == r.pending
            && remaining == r.callsLeft
            && last == r.slot
  {
    var example := new LockWithConditionExample();
    var i, producerWaiting, producerInterrupted := 0, false, false;
    var j, consumerWaiting, consumerInterrupted := 0, false, false;
    reported := [];
    ghost var w := Start(values, calls);
    var k := 0;
    while k < |schedule|
      invariant 0 <= k <= |schedule|
      invariant 0 <= i <= |values| && 0 <= j <= calls
      invariant !example.lockHeld
      invariant w.slot == example.State() && w.pending == values[i..] && w.callsLeft == calls - j
      invariant w.producer == Side(producerWaiting, producerInterrupted, false)
      invariant w.consumer == Side(consumerWaiting, consumerInterrupted, false)
      invariant w.consumed == reported
      invariant Run(Start(values, calls), schedule, Abandon) == Run(w, schedule[k..], Abandon)
    {
      assert schedule[k..][1..] == schedule[k + 1..];
      assert !Hung(w);
      ghost var next := Step(w, schedule[k], Abandon);
      match schedule[k] {
      case ProducerRuns =>
        i, producerWaiting := ProducerTurn(example, values, i, producerWaiting, producerInterrupted, w);
      case ConsumerRuns =>
        j, consumerWaiting, reported := ConsumerTurn(example, calls, j, consumerWaiting, consumerInterrupted, reported, w);
      case InterruptProducer =>
        producerInterrupted := true;
        // the parked produce call wakes with InterruptedException unless it was signalled first
        if producerWaiting && i < |values| && example.readyToConsume {
          assert values[i..][1..] == values[i + 1..];
          i, producerWaiting := i + 1, false;
        }
      case InterruptConsumer =>
        consumerInterrupted := true;
        if consumerWaiting && j < calls && !example.readyToConsume {
          j, consumerWaiting := j + 1, false;
        }
      }
      w := next;
      k := k + 1;
    }
    produced, remaining, last := i, calls - j, example.State();
  }

  /** With the source's driver (1..5 produced, five consumes) and no interrupts, the consumer reports 1,2,3,4,5 once it is done. */
  method DriveDemo(schedule: seq<Event>) returns (reported: seq<int>)
    requires Calm(schedule)
    ensures reported <= [1, 2, 3, 4, 5]
    ensures Run(Start([1, 2, 3, 4, 5], 5), schedule, Abandon).callsLeft == 0 ==> reported == [1, 2, 3, 4, 5]
  {
    var produced, remaining, last;
    reported, produced, remaining, last := Drive([1, 2, 3, 4, 5], 5, schedule);
    DemoHandsOverOneToFive(schedule, Abandon);
  }
}
