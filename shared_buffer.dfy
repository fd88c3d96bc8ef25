/**
 * `SharedBuffer` of the wait/notify demo: a monitor-protected slot with the
 * fields `data` and `hasData`. `produce` waits while the slot is full and
 * `consume` waits while it is empty; an InterruptedException thrown by
 * wait() is caught inside the loop, which sets the interrupted status again
 * and re-checks the guard (the `Retry` discipline of module Handoff). With
 * the status set, every further wait() throws before it releases the
 * monitor, so an interrupted call whose guard does not hold spins forever
 * with the monitor held (`Spins`).
 *
 * Each method is one turn of its caller while it holds the monitor: either the
 * guard holds and the state changes, or the call reports `Waits` or `Spins`
 * and changes nothing. Ghost traces record every value handed in and handed
 * out.
 */
module WaitNotify {
  import opened Handoff

  class SharedBuffer {
    var data: int
    var hasData: bool
    /** Every value a completed produce stored, in order. */
    ghost var produced: seq<int>
    /** Every value a completed consume returned, in order. */
    ghost var consumed: seq<int>

    function State(): Slot
      reads this
    {
      Slot(data, hasData)
    }

    /**
     * The hand-off invariant: the consumed values followed by the one the slot
     * still holds are exactly the produced values. So consumption replays
     * production in order, and `hasData` holds exactly when one produced value
     * is unconsumed, never more.
     */
    ghost predicate Valid()
      reads this
    {
      consumed + Held(State()) == produced
    }

    constructor ()
      ensures Valid()
      ensures !hasData && data == 0
      ensures produced == [] && consumed == []
    {
      data := 0;
      hasData := false;
      produced := [];
      consumed := [];
    }

    /**
     * `produce(value)`. `interrupted` says whether the calling thread's
     * interrupted status is set when it checks the guard; the catch block
     * only sets the status again and loops, so a blocked, interrupted call
     * never gets out of the loop.
     */
    method Produce(value: int, interrupted: bool) returns (r: Call<()>)
      requires Valid()
      modifies this
      ensures Valid()
      ensures (r, State()) == Handoff.Produce(old(State()), value, interrupted, Retry)
      ensures r.Done? <==> !old(hasData)
      ensures r.Done? ==> produced == old(produced) + [value]
      ensures !r.Done? ==> produced == old(produced) && data == old(data) && hasData == old(hasData)
      ensures consumed == old(consumed)
    {
      if hasData {
        if interrupted {
          // wait() throws before releasing the monitor, the catch sets the
          // status again and the loop re-checks `hasData`, which no other
          // thread can now clear
          r := Spins;
        } else {
          // wait(): the monitor is released until another thread notifies
          r := Waits;
        }
        return;
      }
      data := value;
      hasData := true;
      produced := produced + [value];
      r := Done(());
    }

    /** `consume()`: the stored value, once the slot is full; `data` itself is left as it was. */
    method Consume(interrupted: bool) returns (r: Call<int>)
      requires Valid()
      modifies this
      ensures Valid()
      ensures (r, State()) == Handoff.Consume(old(State()), interrupted, Retry)
      ensures r.Done? <==> old(hasData)
      ensures r.Done? ==> r.result == old(data) && consumed == old(consumed) + [r.result]
      ensures r.Done? ==> |consumed| <= |produced| && r.result == produced[|consumed| - 1]
      ensures !r.Done? ==> consumed == old(consumed)
      ensures produced == old(produced) && data == old(data)
    {
      if !hasData {
        r := if interrupted then Spins else Waits;
        return;
      }
      hasData := false;
      consumed := consumed + [data];
      r := Done(data);
    }
  }
}
