/**
 * The stateful parts of the stop()/suspend()/resume() examples:
 *
 * - `StopMethodProblems`: a loop that withdraws 500 and hands it to
 *   `makeTransfer` whenever the balance covers it; a Thread.stop() landing
 *   between the two leaves the money withdrawn but not transferred.
 * - `SafeStopAlternative`: the same loop, cooperative: it runs while the
 *   volatile `running` flag is set and the thread is not interrupted, rolls
 *   the withdrawal back and leaves the loop when the transfer throws, and
 *   calls `cleanup` once it is out.
 * - `SafeSuspendResumeAlternative`: pause and resume as a flag, checked by the
 *   worker thread before each piece of work.
 *
 * `makeTransfer` has no body in the source; the amount it has received is
 * kept in a ghost field `transferred`, so the bookkeeping can be stated.
 */
module InterviewTopics {

  /** The amount every loop iteration tries to move. */
  const Amount := 500
  /** The balance both transfer examples start from. */
  const Opening := 1000

  /** The guarded withdrawal of both transfer loops: 500 leaves only when the balance covers it. */
  function Withdraw(balance: int): (r: int)
    ensures balance >= 0 ==> r >= 0
    ensures r < balance <==> balance >= Amount
    ensures r == balance || r == balance - Amount
  {
    if balance >= Amount then balance - Amount else balance
  }

  /** The balances a transfer loop can show from 1000 on: 1000, 500 or 0. */
  predicate Reachable(balance: int)
  {
    balance == Opening || balance == Opening - Amount || balance == 0
  }

  // ---------------------------------------------------------------------------
  // Example 1: stop() interrupting the loop body.
  // ---------------------------------------------------------------------------

  class StopMethodProblems {
    var balance: int
    var shouldRun: bool
    /** What `makeTransfer` has received so far. */
    ghost var transferred: int

    constructor ()
      ensures balance == Opening && shouldRun && transferred == 0
    {
      balance := Opening;
      shouldRun := true;
      transferred := 0;
    }

    /** The money is all accounted for: still in the account or transferred. */
    ghost predicate Consistent()
      reads this
    {
      balance + transferred == Opening
    }

    /**
     * One pass through the synchronized block of the transfer loop.
     * `stoppedMidway` says that Thread.stop() kills the thread between
     * `balance -= 500` and `makeTransfer(500)`.
     */
    method TransferRound(stoppedMidway: bool)
      requires balance >= 0
      modifies this
      ensures balance >= 0 && balance == Withdraw(old(balance))
      ensures shouldRun == old(shouldRun)
      ensures transferred == old(transferred) + (if old(balance) >= Amount && !stoppedMidway then Amount else 0)
      ensures old(Consistent()) && !(stoppedMidway && old(balance) >= Amount) ==> Consistent()
      ensures stoppedMidway && old(balance) >= Amount ==> balance + transferred == old(balance + transferred) - Amount
    {
      if balance >= Amount {
        balance := balance - Amount;
        if !stoppedMidway {
          transferred := transferred + Amount;   // makeTransfer(500)
        }
      }
    }
  }

  // ---------------------------------------------------------------------------
  // Example 3: the safe alternative to stop().
  // ---------------------------------------------------------------------------

  /** What the main thread has done before one check of the loop condition, and how the transfer then goes. */
  datatype Tick = Tick(stopRequested: bool, interruptRequested: bool, transferThrows: bool)

  /** Where the transfer thread's loop stands. */
  datatype Exit =
    | Looping     // still inside the while loop
    | Stopped     // left because `running` was cleared or the thread was interrupted
    | RolledBack  // left by the `break` after a failed transfer

  datatype LoopState = LoopState(balance: int, transferred: int, running: bool, interrupted: bool, exit: Exit)

  /** One iteration of the loop body under the monitor: the new balance, what was transferred, and whether it breaks. */
  function SafeIteration(balance: int, transferThrows: bool): (r: (int, int, bool))
    ensures r.2 <==> balance >= Amount && transferThrows
    ensures r.2 ==> r.0 == balance && r.1 == 0
    ensures !r.2 ==> r.0 == Withdraw(balance) && r.1 == balance - r.0
  {
    if balance >= Amount then
      if transferThrows then (balance - Amount + Amount, 0, true)  // withdrawn, then rolled back
      else (balance - Amount, Amount, false)
    else (balance, 0, false)
  }

  /**
   * The loop after the ticks of `ticks`; once it has been left, further ticks
   * change nothing. The balance never rises and every 500 that leaves it is
   * transferred: balance + transferred is kept.
   */
  function SafeLoop(s: LoopState, ticks: seq<Tick>): (r: LoopState)
    ensures r.balance <= s.balance && r.balance + r.transferred == s.balance + s.transferred
    ensures s.balance >= 0 ==> r.balance >= 0
    ensures s.exit != Looping ==> r == s
    decreases |ticks|
  {
    if ticks == [] || s.exit != Looping then s
    else
      var t := ticks[0];
      var running := s.running && !t.stopRequested;
      var interrupted := s.interrupted || t.interruptRequested;
      var next :=
        if running && !interrupted then
          var (b, sent, broke) := SafeIteration(s.balance, t.transferThrows);
          LoopState(b, s.transferred + sent, running, interrupted, if broke then RolledBack else Looping)
        else
          s.(running := running, interrupted := interrupted, exit := Stopped);
      SafeLoop(next, ticks[1..])
  }

  /** All money is accounted for and the balance is one the loop can reach from 1000. */
  ghost predicate Sound(s: LoopState)
  {
    Reachable(s.balance) && s.balance + s.transferred == Opening
  }

  /**
   * Whatever the main thread does and however the transfers go: the balance
   * never rises, never goes negative and only takes the values 1000, 500 or
   * 0; every withdrawal is either transferred or rolled back; a loop still
   * running has seen no interrupt and, if `running` was set, still has it;
   * a loop that was stopped saw `running` cleared or an interrupt.
   */
  lemma {:induction false} SafeLoopIsSound(s: LoopState, ticks: seq<Tick>)
    requires Sound(s)
    requires s.exit == Looping ==> !s.interrupted
    requires s.exit == Stopped ==> !s.running || s.interrupted
    ensures var r := SafeLoop(s, ticks);
            && Sound(r)
            && 0 <= r.balance <= s.balance
            && (r.exit == Looping ==> !r.interrupted && (s.running ==> r.running))
            && (r.exit == Stopped ==> !r.running || r.interrupted)
            && (s.exit != Looping ==> r == s)
    decreases |ticks|
  {
    if ticks != [] && s.exit == Looping {
      var t := ticks[0];
      var running := s.running && !t.stopRequested;
      var interrupted := s.interrupted || t.interruptRequested;
      var next :=
        if running && !interrupted then
          var (b, sent, broke) := SafeIteration(s.balance, t.transferThrows);
          LoopState(b, s.transferred + sent, running, interrupted, if broke then RolledBack else Looping)
        else
          s.(running := running, interrupted := interrupted, exit := Stopped);
      assert SafeLoop(s, ticks) == SafeLoop(next, ticks[1..]);
      SafeLoopIsSound(next, ticks[1..]);
    }
  }

  class SafeStopAlternative {
    var running: bool
    var balance: int
    /** What `makeTransfer` has received so far. */
    ghost var transferred: int
    /** Whether `cleanup()` has run. */
    var cleanedUp: bool

    constructor ()
      ensures Valid() && running && balance == Opening && transferred == 0 && !cleanedUp
    {
      running := true;
      balance := Opening;
      transferred := 0;
      cleanedUp := false;
    }

    /** The balance is one the loop can reach from 1000, and every withdrawn 500 was transferred. */
    ghost predicate Valid()
      reads this
    {
      Reachable(balance) && balance + transferred == Opening
    }

    /**
     * The body of the transfer thread in `safeTransferMoney`, as far as the
     * ticks go: before each check of `running && !isInterrupted()`, the main
     * thread may have cleared `running` or interrupted the thread. `exit` says
     * where the loop stands afterwards; `cleanup()` runs once it is left.
     */
    method TransferLoop(ticks: seq<Tick>) returns (exit: Exit)
      requires Valid()
      modifies this
      ensures Valid()
      ensures 0 <= balance <= old(balance)
      ensures var r := SafeLoop(LoopState(old(balance), old(transferred), old(running), false, Looping), ticks);
              balance == r.balance && transferred == r.transferred && running == r.running && exit == r.exit
      ensures exit == Looping ==> running == old(running)
      ensures cleanedUp <==> old(cleanedUp) || exit != Looping
    {
      var interrupted := false;
      exit := Looping;
      var k := 0;
      while k < |ticks| && exit == Looping
        invariant 0 <= k <= |ticks|
        invariant SafeLoop(LoopState(old(balance), old(transferred), old(running), false, Looping), ticks)
               == SafeLoop(LoopState(balance, transferred, running, interrupted, exit), ticks[k..])
        invariant exit == Looping ==> !interrupted
        invariant cleanedUp == old(cleanedUp)
      {
        var t := ticks[k];
        assert ticks[k..][1..] == ticks[k + 1..];
        if t.stopRequested {
          running := false;      // `running = false` in the main thread
        }
        if t.interruptRequested {
          interrupted := true;   // transferThread.interrupt()
        }
        if running && !interrupted {
          if balance >= Amount {
            balance := balance - Amount;
            if t.transferThrows {
              balance := balance + Amount;   // rollback
              exit := RolledBack;            // break
            } else {
              transferred := transferred + Amount;   // makeTransfer(500)
            }
          }
        } else {
          exit := Stopped;
        }
        k := k + 1;
      }
      if exit != Looping {
        cleanedUp := true;   // cleanup()
      }
      SafeLoopIsSound(LoopState(old(balance), old(transferred), old(running), false, Looping), ticks);
    }
  }

  // ---------------------------------------------------------------------------
  // Example 4: the safe alternative to suspend()/resume().
  // ---------------------------------------------------------------------------

  /** One pass of the worker thread's outer loop. */
  datatype Round =
    | Worked  // doWork() ran
    | Parked  // suspended: waiting on the lock until resumed
    | Exited  // interrupted, at the loop check or while waiting: run() ends

  /** What one pass does, given the pause flag and the thread's interrupt. */
  function WorkerRound(suspended: bool, interrupted: bool): (r: Round)
    ensures r == Worked <==> !suspended && !interrupted
    ensures r == Exited <==> interrupted
  {
    if interrupted then Exited
    else if suspended then Parked
    else Worked
  }

  class SafeSuspendResumeAlternative {
    var suspended: bool
    /** How many times `doWork()` has run. */
    ghost var work: nat

    constructor ()
      ensures !suspended && work == 0
    {
      suspended := false;
      work := 0;
    }

    /** `pauseThread()`. */
    method PauseThread()
      modifies this
      ensures suspended && work == old(work)
    {
      suspended := true;
    }

    /** `resumeThread()`: clears the flag under the lock (and wakes the worker). */
    method ResumeThread()
      modifies this
      ensures !suspended && work == old(work)
    {
      suspended := false;
    }

    /**
     * One pass of `SafeThread.run`: leave if interrupted, wait while
     * suspended (an interrupt during the wait returns), otherwise do work.
     */
    method WorkerPass(interrupted: bool) returns (r: Round)
      modifies this
      ensures r == WorkerRound(old(suspended), interrupted)
      ensures work == old(work) + (if r == Worked then 1 else 0)
      ensures suspended == old(suspended)
    {
      if interrupted {
        return Exited;
      }
      if suspended {
        return Parked;
      }
      work := work + 1;   // doWork()
      r := Worked;
    }
  }
}
