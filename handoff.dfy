/**
 * The single-slot hand-off shared by the two producer/consumer buffers of the
 * repository: `SharedBuffer` (monitor with wait/notify) and
 * `LockWithConditionExample` (ReentrantLock with one Condition).
 *
 * Both buffers are the same two-state machine, EMPTY and FULL. They differ
 * only in what an interrupt does to a call that has to wait for its guard.
 * SharedBuffer catches the InterruptedException inside its wait loop and sets
 * the interrupted status again (`Retry`): the next wait() then throws at once,
 * before it releases the monitor, so the call spins forever holding the
 * monitor and the other thread can never enter. LockWithConditionExample
 * catches it outside the loop and gives the call up (`Abandon`).
 *
 * Blocking is modelled as a "would wait" result: a call whose guard does not
 * hold returns `Waits` and leaves the state alone; the waiting thread's next
 * turn re-checks the guard. On top of the one-call steps, `Run` interleaves
 * one producer thread and one consumer thread along an arbitrary schedule.
 */
module Handoff {

  /** The shared slot: the last stored value and whether it is still unconsumed. */
  datatype Slot = Slot(value: int, full: bool)

  /** The slot of a freshly constructed buffer: the int field defaults to 0, the flag to false. */
  const Initial := Slot(0, false)

  /** What a caught InterruptedException does to a call that waits for its guard. */
  datatype Policy =
    | Retry    // the catch is inside the wait loop and re-sets the interrupted status
    | Abandon  // the catch is outside the wait loop: the call ends, state untouched

  /** The outcome of one call while its thread holds the lock. */
  datatype Call<T> =
    | Done(result: T)  // the guard held and the state change happened
    | Waits            // the guard did not hold: the thread waits, the lock is released
    | Abandoned        // an interrupt ended the wait: the call returns without effect
    | Spins            // interrupted and blocked under Retry: wait() throws at once, without
                       // releasing the lock, and the loop goes round again; the call never returns

  /** The values the slot still owes the consumer: none when empty, one when full. */
  function Held(s: Slot): (r: seq<int>)
    ensures |r| <= 1 && (r != [] <==> s.full)
    ensures s.full ==> r[0] == s.value
  {
    if s.full then [s.value] else []
  }

  /** `produce(v)`: store `v` and mark the slot full, but only once it is empty. */
  function Produce(s: Slot, v: int, interrupted: bool, policy: Policy): (r: (Call<()>, Slot))
    ensures r.0.Done? <==> !s.full
    ensures r.0.Done? ==> r.1 == Slot(v, true)
    ensures !r.0.Done? ==> r.1 == s
    ensures r.0.Waits? <==> s.full && !interrupted
    ensures r.0.Abandoned? <==> s.full && interrupted && policy == Abandon
    ensures r.0.Spins? <==> s.full && interrupted && policy == Retry
  {
    if !s.full then (Done(()), Slot(v, true))
    else if !interrupted then (Waits, s)
    else
      match policy
      case Abandon => (Abandoned, s)
      case Retry => (Spins, s)
  }

  /** `consume()`: hand out the stored value and mark the slot empty, but only once it is full. */
  function Consume(s: Slot, interrupted: bool, policy: Policy): (r: (Call<int>, Slot))
    ensures r.0.Done? <==> s.full
    ensures r.0.Done? ==> r.0.result == s.value && r.1 == Slot(s.value, false)
    ensures !r.0.Done? ==> r.1 == s
    ensures r.0.Waits? <==> !s.full && !interrupted
    ensures r.0.Abandoned? <==> !s.full && interrupted && policy == Abandon
    ensures r.0.Spins? <==> !s.full && interrupted && policy == Retry
  {
    if s.full then (Done(s.value), Slot(s.value, false))
    else if !interrupted then (Waits, s)
    else
      match policy
      case Abandon => (Abandoned, s)
      case Retry => (Spins, s)
  }

  /** Round trip: a consume right after a completed produce returns the produced value. */
  lemma ProduceThenConsume(s: Slot, v: int, i1: bool, i2: bool, policy: Policy)
    requires !s.full
    ensures var (c1, s1) := Produce(s, v, i1, policy);
            c1.Done? && Consume(s1, i2, policy) == (Done(v), Slot(v, false))
  {
  }

  /** An interrupt only matters to a call that has to wait: when the guard holds, both buffers ignore it. */
  lemma InterruptMattersOnlyWhenBlocked(s: Slot, v: int, policy: Policy)
    ensures !s.full ==> Produce(s, v, true, policy) == Produce(s, v, false, policy)
    ensures s.full ==> Consume(s, true, policy) == Consume(s, false, policy)
  {
  }

  // ---------------------------------------------------------------------------
  // One producer thread and one consumer thread, interleaved by a schedule.
  // ---------------------------------------------------------------------------

  /** Per-thread status: parked in its wait loop, its interrupted flag, and stuck in a `Spins` call. */
  datatype Side = Side(waiting: bool, interrupted: bool, spinning: bool)

  const Fresh := Side(false, false, false)

  /** What the scheduler lets happen next. */
  datatype Event =
    | ProducerRuns       // the producer thread starts or re-checks its current produce call
    | ConsumerRuns       // the consumer thread starts or re-checks its current consume call
    | InterruptProducer  // another thread calls interrupt() on the producer thread
    | InterruptConsumer  // another thread calls interrupt() on the consumer thread

  /** The whole system: the slot plus where each thread's driver loop stands. */
  datatype World = World(
    slot: Slot,
    pending: seq<int>,   // values whose produce call has not finished, in loop order
    fates: seq<bool>,    // one per finished produce call: stored (true) or abandoned (false)
    producer: Side,
    callsLeft: nat,      // consume calls the consumer loop still has to make
    consumed: seq<int>,  // results of the finished consume calls, in order
    consumer: Side)

  /** A new buffer, a producer that will produce `values` in order, a consumer that will call consume `calls` times. */
  function Start(values: seq<int>, calls: nat): (w: World)
    ensures w.slot == Initial && w.pending == values && w.callsLeft == calls
    ensures Accounted(w, values) && NothingAbandoned(w, calls) && !Hung(w)
  {
    var w := World(Initial, values, [], Fresh, calls, [], Fresh);
    assert values[..0] == [];
    w
  }

  /** One thread spins holding the lock: no call of either thread can get in any more. */
  predicate Hung(w: World)
  {
    w.producer.spinning || w.consumer.spinning
  }

  /** Nothing that the buffer or the driver loops hold has changed from `w` to `r`. */
  predicate Frozen(w: World, r: World)
  {
    r.slot == w.slot && r.pending == w.pending && r.fates == w.fates
    && r.callsLeft == w.callsLeft && r.consumed == w.consumed
  }

  /**
   * One event. A consume either changes nothing that was handed over or
   * hands out the value the slot held; a produce either changes nothing
   * that was handed over or finishes the next value of the loop, stored into
   * an empty slot or, only under Abandon, dropped. Once a thread spins,
   * nothing but the interrupted flags changes; Abandon never spins.
   */
  function Step(w: World, e: Event, policy: Policy): (r: World)
    ensures Hung(w) ==> Frozen(w, r) && Hung(r)
    ensures policy == Abandon && !Hung(w) ==> !Hung(r)
    ensures r.consumed == w.consumed
         || (w.slot.full && !r.slot.full && r.consumed == w.consumed + [w.slot.value] && r.callsLeft + 1 == w.callsLeft)
    ensures r.fates == w.fates || r.fates == w.fates + [true] || r.fates == w.fates + [false]
    ensures r.fates == w.fates ==> r.pending == w.pending
    ensures r.fates == w.fates && r.consumed == w.consumed ==> r.slot == w.slot
    ensures |r.fates| > |w.fates| ==> r.consumed == w.consumed
    ensures |r.fates| > |w.fates| && r.fates[|w.fates|] ==>
              w.pending != [] && !w.slot.full && r.slot == Slot(w.pending[0], true) && r.pending == w.pending[1..]
    ensures |r.fates| > |w.fates| && !r.fates[|w.fates|] ==>
              policy == Abandon && w.pending != [] && r.slot == w.slot && r.pending == w.pending[1..]
  {
    if Hung(w) then
      (match e
       case InterruptProducer => w.(producer := w.producer.(interrupted := true))
       case InterruptConsumer => w.(consumer := w.consumer.(interrupted := true))
       case _ => w)
    else
    match e
    case ProducerRuns =>
      if w.pending == [] then w
      else
        var (c, s) := Produce(w.slot, w.pending[0], w.producer.interrupted, policy);
        if c.Done? then
          w.(slot := s, pending := w.pending[1..], fates := w.fates + [true],
             producer := w.producer.(waiting := false))
        else if c.Abandoned? then
          w.(pending := w.pending[1..], fates := w.fates + [false],
             producer := w.producer.(waiting := false))
        else if c.Spins? then
          w.(producer := w.producer.(waiting := false, spinning := true))
        else
          w.(producer := w.producer.(waiting := true))
    case ConsumerRuns =>
      if w.callsLeft == 0 then w
      else
        var (c, s) := Consume(w.slot, w.consumer.interrupted, policy);
        if c.Done? then
          w.(slot := s, callsLeft := w.callsLeft - 1, consumed := w.consumed + [c.result],
             consumer := w.consumer.(waiting := false))
        else if c.Abandoned? then
          w.(callsLeft := w.callsLeft - 1, consumer := w.consumer.(waiting := false))
        else if c.Spins? then
          w.(consumer := w.consumer.(waiting := false, spinning := true))
        else
          w.(consumer := w.consumer.(waiting := true))
    case InterruptProducer =>
      // A waiting call that is still blocked when the interrupt arrives is ended by it
      // under Abandon; a call already signalled finishes normally on its next turn.
      var p := w.producer.(interrupted := true);
      if p.waiting && w.pending != [] && Produce(w.slot, w.pending[0], true, policy).0.Abandoned? then
        w.(pending := w.pending[1..], fates := w.fates + [false], producer := p.(waiting := false))
      else
        w.(producer := p)
    case InterruptConsumer =>
      var q := w.consumer.(interrupted := true);
      if q.waiting && w.callsLeft > 0 && Consume(w.slot, true, policy).0.Abandoned? then
        w.(callsLeft := w.callsLeft - 1, consumer := q.(waiting := false))
      else
        w.(consumer := q)
  }

  /**
   * The world after the events of `schedule`, in order. What was consumed and
   * the fates of finished produce calls only grow; a hung world stays hung
   * with nothing handed over any more; Abandon never hangs.
   */
  function Run(w: World, schedule: seq<Event>, policy: Policy): (r: World)
    ensures w.consumed <= r.consumed && w.fates <= r.fates
    ensures Hung(w) ==> Frozen(w, r) && Hung(r)
    ensures policy == Abandon && !Hung(w) ==> !Hung(r)
    decreases |schedule|
  {
    if schedule == [] then w else Run(Step(w, schedule[0], policy), schedule[1..], policy)
  }

  /** The values of `xs` whose flag in `keep` is true, in order. */
  function Kept(xs: seq<int>, keep: seq<bool>): (r: seq<int>)
    requires |xs| == |keep|
    ensures |r| <= |xs|
    decreases |xs|
  {
    if xs == [] then []
    else Kept(xs[..|xs| - 1], keep[..|keep| - 1]) + (if keep[|keep| - 1] then [xs[|xs| - 1]] else [])
  }

  /** `a` is `b` with some elements deleted: order kept, nothing repeated or invented. */
  ghost predicate Subsequence(a: seq<int>, b: seq<int>)
  {
    exists keep: seq<bool> :: |keep| == |b| && a == Kept(b, keep)
  }

  predicate AllTrue(keep: seq<bool>)
  {
    forall i :: 0 <= i < |keep| ==> keep[i]
  }

  /** No interrupt in the schedule. */
  predicate Calm(schedule: seq<Event>)
  {
    forall i :: 0 <= i < |schedule| ==> schedule[i].ProducerRuns? || schedule[i].ConsumerRuns?
  }

  lemma KeptSnoc(xs: seq<int>, keep: seq<bool>, x: int, b: bool)
    requires |xs| == |keep|
    ensures Kept(xs + [x], keep + [b]) == Kept(xs, keep) + (if b then [x] else [])
  {
    assert (xs + [x])[..|xs|] == xs;
    assert (keep + [b])[..|keep|] == keep;
  }

  lemma {:induction false} KeptAll(xs: seq<int>, keep: seq<bool>)
    requires |xs| == |keep| && AllTrue(keep)
    ensures Kept(xs, keep) == xs
    decreases |xs|
  {
    if xs != [] {
      KeptAll(xs[..|xs| - 1], keep[..|keep| - 1]);
      assert xs == xs[..|xs| - 1] + [xs[|xs| - 1]];
    }
  }

  /** A prefix of a selection of `b` is itself a selection of `b`. */
  lemma {:induction false} PrefixOfKept(a: seq<int>, b: seq<int>, keep: seq<bool>)
    requires |keep| == |b| && a <= Kept(b, keep)
    ensures Subsequence(a, b)
    decreases |b|
  {
    if a == Kept(b, keep) {
      return;
    }
    var n := |b|;
    var front, tail := b[..n - 1], keep[..n - 1];
    assert Kept(b, keep) == Kept(front, tail) + (if keep[n - 1] then [b[n - 1]] else []);
    assert a <= Kept(front, tail) by {
      if keep[n - 1] {
        assert |a| < |Kept(b, keep)|;
        assert a == Kept(b, keep)[..|a|];
        assert Kept(b, keep)[..|Kept(front, tail)|] == Kept(front, tail);
      }
    }
    PrefixOfKept(a, front, tail);
    var k: seq<bool> :| |k| == |front| && a == Kept(front, k);
    KeptSnoc(front, k, b[n - 1], false);
    assert front + [b[n - 1]] == b;
    assert a == Kept(b, k + [false]);
  }

  // ---------------------------------------------------------------------------
  // Invariants of the interleaving.
  // ---------------------------------------------------------------------------

  /**
   * Every value the producer was given is accounted for: the ones still to
   * produce are the tail of `values`; what was consumed, followed by what the
   * slot still holds, is exactly the stored (not abandoned) values, in order.
   */
  ghost predicate Accounted(w: World, values: seq<int>)
  {
    && |w.fates| <= |values|
    && w.pending == values[|w.fates|..]
    && w.consumed + Held(w.slot) == Kept(values[..|w.fates|], w.fates)
  }

  /** Nothing has been abandoned: every produce stored its value, every consume returned one. */
  ghost predicate NothingAbandoned(w: World, calls: nat)
  {
    AllTrue(w.fates) && |w.consumed| + w.callsLeft == calls
  }

  lemma StepAccounted(w: World, e: Event, policy: Policy, values: seq<int>)
    requires Accounted(w, values)
    ensures Accounted(Step(w, e, policy), values)
  {
    var r := Step(w, e, policy);
    var k := |w.fates|;
    if r.fates == w.fates {
      if r.consumed != w.consumed {
        assert w.consumed + Held(w.slot) == w.consumed + [w.slot.value];
      }
    } else {
      assert |r.fates| == k + 1 && r.fates[..k] == w.fates;
      assert k < |values| && w.pending[0] == values[k];
      assert values[..k + 1] == values[..k] + [values[k]];
      assert values[k + 1..] == w.pending[1..];
      KeptSnoc(values[..k], w.fates, values[k], r.fates[k]);
      assert r.fates == w.fates + [r.fates[k]];
    }
  }

  lemma {:induction false} RunAccounted(w: World, schedule: seq<Event>, policy: Policy, values: seq<int>)
    requires Accounted(w, values)
    ensures Accounted(Run(w, schedule, policy), values)
    decreases |schedule|
  {
    if schedule != [] {
      StepAccounted(w, schedule[0], policy, values);
      RunAccounted(Step(w, schedule[0], policy), schedule[1..], policy, values);
    }
  }

  lemma {:induction false} RetryRunAbandonsNothing(w: World, schedule: seq<Event>, calls: nat)
    requires NothingAbandoned(w, calls)
    ensures NothingAbandoned(Run(w, schedule, Retry), calls)
    decreases |schedule|
  {
    if schedule != [] {
      var w' := Step(w, schedule[0], Retry);
      assert NothingAbandoned(w', calls) by {
        assert forall i :: 0 <= i < |w'.fates| ==> i < |w.fates| || w'.fates[i];
      }
      RetryRunAbandonsNothing(w', schedule[1..], calls);
    }
  }

  /** Without interrupts the two buffers behave identically. */
  lemma {:induction false} CalmRunsAgree(w: World, schedule: seq<Event>)
    requires !w.producer.interrupted && !w.consumer.interrupted && Calm(schedule)
    ensures Run(w, schedule, Abandon) == Run(w, schedule, Retry)
    decreases |schedule|
  {
    if schedule != [] {
      assert Step(w, schedule[0], Abandon) == Step(w, schedule[0], Retry);
      assert Calm(schedule[1..]) by {
        forall i | 0 <= i < |schedule[1..]|
          ensures schedule[1..][i].ProducerRuns? || schedule[1..][i].ConsumerRuns?
        {
          assert schedule[1..][i] == schedule[i + 1];
        }
      }
      CalmRunsAgree(Step(w, schedule[0], Abandon), schedule[1..]);
    }
  }

  // ---------------------------------------------------------------------------
  // What the hand-off guarantees.
  // ---------------------------------------------------------------------------

  /**
   * SharedBuffer's discipline, whatever the schedule and the interrupts:
   * consumed ++ held ++ still-to-produce is exactly the producer's list, so
   * the consumer sees a prefix of the produced values in order, and the slot
   * is full exactly when one produced value is unconsumed. This is safety
   * only: an interrupt can hang both threads (InterruptHangsSharedBuffer).
   */
  lemma RetryHandsOverInOrder(values: seq<int>, calls: nat, schedule: seq<Event>)
    ensures var r := Run(Start(values, calls), schedule, Retry);
            && r.consumed + Held(r.slot) + r.pending == values
            && r.consumed <= values
            && |r.consumed| + r.callsLeft == calls
            && (r.slot.full <==> |values| - |r.pending| == |r.consumed| + 1)
            && (!r.slot.full <==> |values| - |r.pending| == |r.consumed|)
  {
    var w := Start(values, calls);
    RunAccounted(w, schedule, Retry, values);
    RetryRunAbandonsNothing(w, schedule, calls);
    var r := Run(w, schedule, Retry);
    var k := |r.fates|;
    KeptAll(values[..k], r.fates);
    assert values == values[..k] + values[k..];
    assert r.consumed + Held(r.slot) + r.pending == values;
    assert values[..|r.consumed|] == r.consumed;
  }

  /** A consumer that finished all its calls, one per produced value, received exactly the producer's list. */
  lemma RetryFinishedConsumerGotAll(values: seq<int>, schedule: seq<Event>)
    ensures var r := Run(Start(values, |values|), schedule, Retry);
            r.callsLeft == 0 ==> r.consumed == values && !r.slot.full && r.pending == []
  {
    RetryHandsOverInOrder(values, |values|, schedule);
  }

  /**
   * LockWithConditionExample's discipline: an interrupted call is dropped, so
   * values may be lost, but what the consumer sees is still a subsequence of
   * the producer's list: in order, never repeated, never invented.
   */
  lemma AbandonKeepsOrder(values: seq<int>, calls: nat, schedule: seq<Event>, policy: Policy)
    ensures Subsequence(Run(Start(values, calls), schedule, policy).consumed, values)
  {
    var w := Start(values, calls);
    RunAccounted(w, schedule, policy, values);
    var r := Run(w, schedule, policy);
    var k := |r.fates|;
    var keep := r.fates + seq(|values| - k, _ => false);
    assert Kept(values, keep) == Kept(values[..k], r.fates) by {
      KeptPadded(values, k, r.fates);
    }
    PrefixOfKept(r.consumed, values, keep);
  }

  lemma {:induction false} KeptPadded(values: seq<int>, k: nat, fates: seq<bool>)
    requires k == |fates| <= |values|
    ensures Kept(values, fates + seq(|values| - k, _ => false)) == Kept(values[..k], fates)
    decreases |values|
  {
    var pad := fates + seq(|values| - k, _ => false);
    if |values| == k {
      assert values[..k] == values;
      assert pad == fates;
    } else {
      var n := |values|;
      var front := values[..n - 1];
      assert pad[..n - 1] == fates + seq(|front| - k, _ => false);
      assert !pad[n - 1];
      KeptPadded(front, k, fates);
      assert front[..k] == values[..k];
    }
  }

  /**
   * The `main` of LockWithConditionExample: the producer hands in 1..5, the
   * consumer calls consume five times. Without interrupts the consumer sees a
   * prefix of 1,2,3,4,5, and once its loop has finished exactly 1,2,3,4,5.
   */
  lemma DemoHandsOverOneToFive(schedule: seq<Event>, policy: Policy)
    requires Calm(schedule)
    ensures var r := Run(Start([1, 2, 3, 4, 5], 5), schedule, policy);
            r.consumed <= [1, 2, 3, 4, 5] && (r.callsLeft == 0 ==> r.consumed == [1, 2, 3, 4, 5])
  {
    CalmRunsAgree(Start([1, 2, 3, 4, 5], 5), schedule);
    RetryHandsOverInOrder([1, 2, 3, 4, 5], 5, schedule);
  }

  /** Producer and consumer taking turns: the schedule under which every call completes at once. */
  function Alternate(n: nat): (s: seq<Event>)
    ensures |s| == 2 * n && Calm(s)
  {
    if n == 0 then [] else [ProducerRuns, ConsumerRuns] + Alternate(n - 1)
  }

  lemma {:induction false} AlternateFrom(w: World, policy: Policy)
    requires !w.slot.full && w.callsLeft == |w.pending|
    requires w.producer == Fresh && w.consumer == Fresh
    ensures var r := Run(w, Alternate(|w.pending|), policy);
            r.consumed == w.consumed + w.pending && r.callsLeft == 0 && r.pending == []
    decreases |w.pending|
  {
    if w.pending != [] {
      var rest := Alternate(|w.pending| - 1);
      var s := Alternate(|w.pending|);
      assert s[1..] == [ConsumerRuns] + rest;
      assert s[1..][1..] == rest;
      var w1 := w.(slot := Slot(w.pending[0], true), pending := w.pending[1..], fates := w.fates + [true]);
      var w2 := w1.(slot := Slot(w.pending[0], false), callsLeft := w.callsLeft - 1, consumed := w.consumed + [w.pending[0]]);
      assert Run(w, s, policy) == Run(w2, rest, policy) by {
        assert Step(w, ProducerRuns, policy) == w1;
        assert Step(w1, ConsumerRuns, policy) == w2;
        assert Run(w, s, policy) == Run(w1, s[1..], policy);
        assert Run(w1, s[1..], policy) == Run(w2, rest, policy);
      }
      AlternateFrom(w2, policy);
      assert w.pending == [w.pending[0]] + w2.pending;
    }
  }

  /** Some schedule lets both driver loops finish: taking turns delivers every value. */
  lemma AlternatingScheduleDeliversAll(values: seq<int>, policy: Policy)
    ensures var r := Run(Start(values, |values|), Alternate(|values|), policy);
            r.consumed == values && r.callsLeft == 0 && r.pending == []
  {
    AlternateFrom(Start(values, |values|), policy);
  }

  /**
   * The contrast between the two buffers on one schedule: the producer stores
   * 1, then waits to store 2 and is interrupted while parked; the consumer
   * takes the lock before the woken producer does, then the producer runs and
   * the consumer runs. SharedBuffer's producer finds the slot empty when it
   * re-checks and both values arrive; LockWithConditionExample's producer
   * gives up on 2, which is lost, and the consumer is left waiting.
   */
  lemma InterruptLosesValueOnlyUnderAbandon()
    ensures var s := [ProducerRuns, ProducerRuns, InterruptProducer, ConsumerRuns, ProducerRuns, ConsumerRuns];
            var h := Run(Start([1, 2], 2), s, Retry);
            var a := Run(Start([1, 2], 2), s, Abandon);
            && h.consumed == [1, 2]
            && a.consumed == [1] && a.pending == [] && !a.slot.full && a.callsLeft == 1 && a.consumer.waiting
  {
    var s := [ProducerRuns, ProducerRuns, InterruptProducer, ConsumerRuns, ProducerRuns, ConsumerRuns];
    var w0 := Start([1, 2], 2);
    var h1 := Step(w0, s[0], Retry);
    var h2 := Step(h1, s[1], Retry);
    var h3 := Step(h2, s[2], Retry);
    var h4 := Step(h3, s[3], Retry);
    var h5 := Step(h4, s[4], Retry);
    var h6 := Step(h5, s[5], Retry);
    assert h6.consumed == [1, 2];
    assert Run(w0, s, Retry) == h6 by {
      RunOfSix(w0, s, Retry);
    }
    var a1 := Step(w0, s[0], Abandon);
    var a2 := Step(a1, s[1], Abandon);
    var a3 := Step(a2, s[2], Abandon);
    var a4 := Step(a3, s[3], Abandon);
    var a5 := Step(a4, s[4], Abandon);
    var a6 := Step(a5, s[5], Abandon);
    assert a6.consumed == [1] && a6.pending == [] && a6.callsLeft == 1 && a6.consumer.waiting;
    assert Run(w0, s, Abandon) == a6 by {
      RunOfSix(w0, s, Abandon);
    }
  }

  /** A schedule of six events, unrolled. */
  lemma RunOfSix(w: World, s: seq<Event>, policy: Policy)
    requires |s| == 6
    ensures Run(w, s, policy)
         == Step(Step(Step(Step(Step(Step(w, s[0], policy), s[1], policy), s[2], policy), s[3], policy), s[4], policy), s[5], policy)
  {
    var w1 := Step(w, s[0], policy);
    var w2 := Step(w1, s[1], policy);
    var w3 := Step(w2, s[2], policy);
    var w4 := Step(w3, s[3], policy);
    var w5 := Step(w4, s[4], policy);
    assert Run(w5, s[5..], policy) == Step(w5, s[5], policy);
    assert Run(w4, s[4..], policy) == Run(w5, s[5..], policy);
    assert Run(w3, s[3..], policy) == Run(w4, s[4..], policy);
    assert Run(w2, s[2..], policy) == Run(w3, s[3..], policy);
    assert Run(w1, s[1..], policy) == Run(w2, s[2..], policy);
  }


  /**
   * SharedBuffer hangs where LockWithConditionExample loses a value: the
   * producer stores 1 and is interrupted before it calls produce(2). Under
   * Retry that call finds the slot full and spins holding the monitor, so
   * the consumer never gets in and nothing is ever consumed; under Abandon
   * the call gives 2 up and the consumer still receives 1.
   */
  lemma InterruptHangsSharedBuffer()
    ensures var s := [ProducerRuns, InterruptProducer, ProducerRuns, ConsumerRuns, ProducerRuns, ConsumerRuns];
            var h := Run(Start([1, 2], 2), s, Retry);
            var a := Run(Start([1, 2], 2), s, Abandon);
            && h.consumed == [] && h.callsLeft == 2 && h.slot == Slot(1, true) && h.pending == [2] && Hung(h)
            && a.consumed == [1] && a.pending == [] && a.fates == [true, false] && a.callsLeft == 1 && !Hung(a)
  {
    var s := [ProducerRuns, InterruptProducer, ProducerRuns, ConsumerRuns, ProducerRuns, ConsumerRuns];
    var w0 := Start([1, 2], 2);
    var h3 := Step(Step(Step(w0, s[0], Retry), s[1], Retry), s[2], Retry);
    assert Hung(h3) && h3.slot == Slot(1, true) && h3.pending == [2];
    assert Run(w0, s, Retry) == Run(h3, s[3..], Retry) by {
      assert Run(w0, s, Retry) == Run(Step(w0, s[0], Retry), s[1..], Retry);
      assert s[1..][1..] == s[2..] && s[2..][1..] == s[3..];
    }
    var a0 := Step(w0, s[0], Abandon);
    var a1 := Step(a0, s[1], Abandon);
    var a2 := Step(a1, s[2], Abandon);
    var a3 := Step(a2, s[3], Abandon);
    var a4 := Step(a3, s[4], Abandon);
    var a5 := Step(a4, s[5], Abandon);
    assert a5.consumed == [1] && a5.callsLeft == 1;
    assert Run(w0, s, Abandon) == a5 by {
      RunOfSix(w0, s, Abandon);
    }
  }
}
