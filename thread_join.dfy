/**
 * `ThreadJoinDemo.DataProcessor`: three stages that must run in order, each
 * guarded by the flag the previous one sets. `loadData` sets `isDataLoaded`,
 * `processData` sets `isDataProcessed` only when the data is loaded, and
 * `generateReport` reports only when the data is processed. A sleep that is
 * interrupted skips the flag update (the thread's interrupted status is
 * restored and the method returns), so interruption is an input.
 */
module ThreadJoin {

  /** The two flags of a DataProcessor. */
  datatype Stages = Stages(loaded: bool, processed: bool)

  const NewProcessor := Stages(false, false)

  /** A call on a DataProcessor; `interrupted` says whether its sleep is interrupted. */
  datatype Request =
    | Load(interrupted: bool)
    | Process(interrupted: bool)
    | Report

  /** The stages order: nothing is processed before it is loaded. */
  predicate Ordered(s: Stages)
  {
    s.processed ==> s.loaded
  }

  /** The flags after one call, and whether that call generated a report. */
  function Apply(s: Stages, q: Request): (r: (Stages, bool))
    ensures r.1 <==> q.Report? && s.processed
    ensures r.0.loaded <==> s.loaded || q == Load(false)
    ensures r.0.processed <==> s.processed || (q == Process(false) && s.loaded)
    ensures Ordered(s) ==> Ordered(r.0)
  {
    match q
    case Load(interrupted) =>
      if interrupted then (s, false) else (s.(loaded := true), false)
    case Process(interrupted) =>
      if !s.loaded || interrupted then (s, false) else (s.(processed := true), false)
    case Report =>
      (s, s.processed)
  }

  /** The flags of a new DataProcessor after the calls of `calls`, in order: whatever the calls and interrupts, processed implies loaded. */
  function After(calls: seq<Request>): (r: Stages)
    ensures Ordered(r)
    decreases |calls|
  {
    if calls == [] then NewProcessor
    else Apply(After(calls[..|calls| - 1]), calls[|calls| - 1]).0
  }

  /** Neither flag is ever reset: further calls keep what earlier calls set. */
  lemma {:induction false} FlagsAreMonotone(calls: seq<Request>, more: seq<Request>)
    ensures After(calls).loaded ==> After(calls + more).loaded
    ensures After(calls).processed ==> After(calls + more).processed
    decreases |more|
  {
    if more != [] {
      var front := more[..|more| - 1];
      assert (calls + more)[..|calls + more| - 1] == calls + front;
      FlagsAreMonotone(calls, front);
    } else {
      assert calls + more == calls;
    }
  }

  /**
   * A flag is set only by a call that did its work: `isDataLoaded` by an
   * uninterrupted loadData, `isDataProcessed` by an uninterrupted processData
   * that came after one.
   */
  lemma {:induction false} FlagsHaveHistory(calls: seq<Request>)
    ensures After(calls).loaded ==>
              exists j :: 0 <= j < |calls| && calls[j] == Load(false)
    ensures After(calls).processed ==>
              exists j, k :: 0 <= j < k < |calls| && calls[j] == Load(false) && calls[k] == Process(false)
    decreases |calls|
  {
    if calls != [] {
      var n := |calls| - 1;
      var front := calls[..n];
      FlagsHaveHistory(front);
      var s := After(front);
      if After(calls).loaded && !s.loaded {
        assert calls[n] == Load(false);
      } else if s.loaded {
        var j :| 0 <= j < |front| && front[j] == Load(false);
        assert calls[j] == Load(false);
      }
      if After(calls).processed && !s.processed {
        assert calls[n] == Process(false) && s.loaded;
        var j :| 0 <= j < |front| && front[j] == Load(false);
        assert calls[j] == Load(false) && j < n;
      } else if s.processed {
        var j, k :| 0 <= j < k < |front| && front[j] == Load(false) && front[k] == Process(false);
        assert calls[j] == Load(false) && calls[k] == Process(false);
      }
    }
  }

  /** A report is generated only after an uninterrupted load followed by an uninterrupted process. */
  lemma ReportNeedsLoadThenProcess(calls: seq<Request>)
    requires Apply(After(calls), Report).1
    ensures exists j, k :: 0 <= j < k < |calls| && calls[j] == Load(false) && calls[k] == Process(false)
  {
    FlagsHaveHistory(calls);
  }

  class DataProcessor {
    var isDataLoaded: bool
    var isDataProcessed: bool

    function Flags(): Stages
      reads this
    {
      Stages(isDataLoaded, isDataProcessed)
    }

    ghost predicate Valid()
      reads this
    {
      Ordered(Flags())
    }

    constructor ()
      ensures Valid() && !isDataLoaded && !isDataProcessed
    {
      isDataLoaded := false;
      isDataProcessed := false;
    }

    /** `loadData()`; `interrupted` says whether its sleep is interrupted. */
    method LoadData(interrupted: bool)
      requires Valid()
      modifies this
      ensures Valid()
      ensures Flags() == Apply(old(Flags()), Load(interrupted)).0
      ensures isDataLoaded == (old(isDataLoaded) || !interrupted)
      ensures isDataProcessed == old(isDataProcessed)
    {
      if !interrupted {
        isDataLoaded := true;
      }
    }

    /** `processData()`: returns early, changing nothing, when the data is not loaded. */
    method ProcessData(interrupted: bool)
      requires Valid()
      modifies this
      ensures Valid()
      ensures Flags() == Apply(old(Flags()), Process(interrupted)).0
      ensures !old(isDataLoaded) ==> unchanged(this)
      ensures isDataProcessed == (old(isDataProcessed) || (old(isDataLoaded) && !interrupted))
      ensures isDataLoaded == old(isDataLoaded)
    {
      if !isDataLoaded {
        return;
      }
      if !interrupted {
        isDataProcessed := true;
      }
    }

    /** `generateReport()`: changes nothing; a report is produced exactly when the data is processed. */
    method GenerateReport() returns (reported: bool)
      requires Valid()
      ensures reported == Apply(Flags(), Report).1
      ensures reported ==> isDataLoaded && isDataProcessed
      ensures !isDataProcessed ==> !reported
    {
      if !isDataProcessed {
        return false;
      }
      reported := true;
    }
  }
}
