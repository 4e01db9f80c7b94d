/** Map calls on resume: what is on record is returned, and a finished call is replayed as it ended. */
module MapReplays {
  import opened Events
  import opened Scans
  import opened Queries
  import opened ChildIds
  import opened MapRuns

  // ----- Recorded calls -----

  /** The end of this map call. */
  predicate EndsCall(c: MapCall, p: Payload) {
    (p.MapCompleted? || p.MapFailed?) && p.mapIndex == c.mapIndex
  }

  lemma LastIs<T>(ps: seq<Payload>, i: nat, view: Payload -> Option<T>)
    requires i < |ps| && view(ps[i]).Some? && forall j :: i < j < |ps| ==> view(ps[j]).None?
    ensures Last(ps, view) == view(ps[i])
  {
    assert ps == ps[..i] + [ps[i]] + ps[i + 1..];
    LastPush(ps[..i], ps[i], view);
    LastAppend(ps[..i] + [ps[i]], ps[i + 1..], view);
    LastNone(ps[i + 1..], view);
  }

  /** Recorded results, the last ones, are returned slot by slot if each can be read back; nothing runs. */
  lemma RecordedResultsAreReturned(c: MapCall, ticks: seq<FanTick>, i: nat)
    requires c.items != [] && i < |c.past| && c.past[i].MapCompleted? && EndsCall(c, c.past[i])
    requires forall j :: i < j < |c.past| ==> !(c.past[j].MapCompleted? && EndsCall(c, c.past[j]))
    ensures var results := c.past[i].results; var (outcome, emitted) := RunMap(c, ticks);
            && emitted == []
            && if forall k :: 0 <= k < |results| && results[k].Some? ==> c.decodes(results[k].value)
               then outcome == Results(results) else outcome == BadResults
  {
    hide RunFan;
    LastIs(c.past, i, MapResultsView(c.mapIndex));
  }

  /** A recorded failure, the last one, is returned with its index and error if no results are on record. */
  lemma RecordedFailureIsReturned(c: MapCall, ticks: seq<FanTick>, i: nat)
    requires c.items != [] && i < |c.past| && c.past[i].MapFailed? && EndsCall(c, c.past[i])
    requires forall j :: i < j < |c.past| ==> !(c.past[j].MapFailed? && EndsCall(c, c.past[j]))
    requires forall p :: p in c.past ==> !(p.MapCompleted? && EndsCall(c, p))
    ensures RunMap(c, ticks) == (MapError(c.past[i].failedIndex, c.past[i].error), [])
  {
    hide RunFan;
    LastNone(c.past, MapResultsView(c.mapIndex));
    LastIs(c.past, i, MapErrorView(c.mapIndex));
  }

  /** A call runs its items exactly when it has some and no end of it is on record. */
  lemma RunsItemsIff(c: MapCall, ticks: seq<FanTick>)
    ensures FreshCall(c) <==> c.items != [] && forall p :: p in c.past ==> !EndsCall(c, p)
    ensures FreshCall(c) <==> MapStarted(c.mapIndex, |c.items|) in RunMap(c, ticks).1
  {
    LastNone(c.past, MapResultsView(c.mapIndex));
    LastNone(c.past, MapErrorView(c.mapIndex));
    if FreshCall(c) {
      hide RunFan;
      StartIsEmitted(c, ticks);
    }
  }

  lemma {:induction false} StartIsEmitted(c: MapCall, ticks: seq<FanTick>)
    ensures MapStarted(c.mapIndex, |c.items|) in RunFan(c, ticks).emitted
  {
    if ticks != [] {
      hide Print, Last, ChildOutputView, ChildErrorView;
      StartIsEmitted(c, ticks[..|ticks| - 1]);
    }
  }

  // ----- Where a failure comes from -----

  /** The failure of item `i`: recorded earlier, or that of its child now, which is among the events. */
  ghost predicate FailureOf(c: MapCall, f: Fan, compute: nat -> ChildEnding, i: nat, error: string) {
    && i < |c.items|
    && if c.Unrecorded(i) then compute(i) == Erred(error) && ChildFailed(c.Id(i), error) in f.emitted
       else c.FailedBefore(i) && error == "child workflow failed: " + c.RecordedError(i).value
  }

  ghost predicate Sourced(c: MapCall, f: Fan, compute: nat -> ChildEnding)
    requires |f.phases| == |c.items|
  {
    && (f.first.Some? ==> FailureOf(c, f, compute, f.first.value.0, f.first.value.1))
    && forall i :: 0 <= i < |c.items| && f.phases[i].Reported? ==> ReportRecorded(c, f, i)
  }

  ghost predicate ReportRecorded(c: MapCall, f: Fan, i: nat)
    requires i < |f.phases| && f.phases[i].Reported?
  {
    Report(c, i, f.phases[i].ending) in f.emitted
  }

  lemma LaunchSourced(c: MapCall, f: Fan, compute: nat -> ChildEnding)
    requires FanInv(c, f, compute) && Sourced(c, f, compute) && f.next < |f.phases|
    ensures Sourced(c, LaunchNext(c, f), compute)
  {
    hide Count, ItemInv, Last, Print, ChildOutputView, ChildErrorView;
  }

  lemma MoveSourced(c: MapCall, f: Fan, compute: nat -> ChildEnding, k: nat)
    requires FanInv(c, f, compute) && Sourced(c, f, compute) && k < |f.phases|
    ensures Sourced(c, MoveItem(c, f, k, compute(k)), compute)
  {
    hide Count, Last, Print, ChildOutputView, ChildErrorView;
    assert ItemInv(c, f, compute, k);
    assert f.phases[k].Reported? ==> ReportRecorded(c, f, k);
    var g := MoveItem(c, f, k, compute(k));
    forall i | 0 <= i < |c.items| && g.phases[i].Reported? ensures ReportRecorded(c, g, i) {
      if i != k {
        assert ReportRecorded(c, f, i);
      }
    }
  }

  lemma {:induction false} RunSourced(c: MapCall, ticks: seq<FanTick>, compute: nat -> ChildEnding)
    requires Supplies(ticks, compute)
    ensures Sourced(c, RunFan(c, ticks), compute)
  {
    if ticks != [] {
      hide LaunchNext, MoveItem, FanInv, Sourced;
      var init, tick := ticks[..|ticks| - 1], ticks[|ticks| - 1];
      RunSourced(c, init, compute);
      RunKeeps(c, init, compute);
      var f := RunFan(c, init);
      match tick
      case Launch => if f.broken.None? && f.next < |f.phases| { LaunchSourced(c, f, compute); }
      case Item(i, _) => if f.broken.None? && i < |f.phases| { MoveSourced(c, f, compute, i); }
      case CancelOuter => CancelSourced(c, f, compute);
    }
  }

  lemma CancelSourced(c: MapCall, f: Fan, compute: nat -> ChildEnding)
    requires |f.phases| == |c.items| && Sourced(c, f, compute)
    ensures Sourced(c, f.(outerDone := true), compute)
  {
    hide Last, Print, ChildOutputView, ChildErrorView;
    forall i | 0 <= i < |c.items| && f.phases[i].Reported? ensures ReportRecorded(c, f.(outerDone := true), i) {
      assert ReportRecorded(c, f, i);
    }
  }

  /**
    A call that fails says why. It ends with one map.failed that carries the index and the error it
    returns; and that error is what was on record for the item's child, or else the error with which
    its child ended now, which child.failed records as well.
  */
  lemma FailureHasSource(c: MapCall, ticks: seq<FanTick>, compute: nat -> ChildEnding)
    requires FreshCall(c) && Supplies(ticks, compute) && RunMap(c, ticks).0.MapError?
    ensures var (outcome, emitted) := RunMap(c, ticks); var i, error := outcome.failedIndex, outcome.error;
            && emitted != [] && emitted[|emitted| - 1] == MapFailed(c.mapIndex, i, error)
            && Count(IsMapEnd(), emitted) == 1 && 0 <= i < |c.items|
            && if c.Unrecorded(i) then compute(i) == Erred(error) && ChildFailed(c.Id(i), error) in emitted
               else c.FailedBefore(i) && error == "child workflow failed: " + c.RecordedError(i).value
  {
    hide Count, RunFan, Print, ChildOutputView, ChildErrorView, ItemInv;
    RunSourced(c, ticks, compute);
    RunKeeps(c, ticks, compute);
    var f := RunFan(c, ticks);
    SpawnPush(c, f.emitted, MapFailed(c.mapIndex, f.first.value.0, f.first.value.1), 0);
  }

  /** The first failure counts: later ones, whatever the schedule, do not replace it. */
  lemma {:induction false} FirstFailureStays(c: MapCall, a: seq<FanTick>, b: seq<FanTick>)
    requires RunFan(c, a).first.Some?
    ensures RunFan(c, a + b).first == RunFan(c, a).first
  {
    hide Step, RunFan;
    if b == [] {
      assert a + b == a;
    } else {
      var init, tick := b[..|b| - 1], b[|b| - 1];
      FirstFailureStays(c, a, init);
      RunPush(c, a + init, tick);
      assert a + b == a + init + [tick];
      StepKeepsFirst(c, RunFan(c, a + init), tick);
    }
  }

  lemma StepKeepsFirst(c: MapCall, f: Fan, tick: FanTick)
    requires |f.phases| == |f.results| == |c.items| && f.first.Some?
    ensures Step(c, f, tick).first == f.first
  {
    hide Last, Print, ChildOutputView, ChildErrorView;
  }

  // ----- Calling again -----

  /** Every result of a call can be read back. */
  lemma ResultsDecode(c: MapCall, ticks: seq<FanTick>, compute: nat -> ChildEnding)
    requires FreshCall(c) && Supplies(ticks, compute) && RunMap(c, ticks).0.Results?
    ensures AllDecode(c, RunMap(c, ticks).0.results)
  {
    hide Count, RunFan, Print, Last, ChildOutputView, ChildErrorView;
    FreshConcludes(c, ticks);
    RunKeeps(c, ticks, compute);
    var f := RunFan(c, ticks);
    forall i | 0 <= i < |f.results| && f.results[i].Some? ensures c.decodes(f.results[i].value) {
      assert ItemInv(c, f, compute, i);
      assert HasEnded(f.phases[i]);
    }
  }

  /** Of a finished call's events only the last ends the call. */
  lemma EndIsLast(c: MapCall, ticks: seq<FanTick>, compute: nat -> ChildEnding)
    requires FreshCall(c) && Supplies(ticks, compute)
    requires RunMap(c, ticks).0.Results? || RunMap(c, ticks).0.MapError?
    ensures var (outcome, emitted) := RunMap(c, ticks); var n := |emitted| - 1;
            && n >= 0 && (forall i :: 0 <= i < n ==> !EndsCall(c, emitted[i]))
            && emitted[n] == if outcome.Results? then MapCompleted(c.mapIndex, outcome.results)
                             else MapFailed(c.mapIndex, outcome.failedIndex, outcome.error)
  {
    hide Count, RunFan, Print, ItemInv;
    FreshConcludes(c, ticks);
    RunKeeps(c, ticks, compute);
    var f, emitted := RunFan(c, ticks), RunMap(c, ticks).1;
    NoEnds(f.emitted);
    assert |emitted| == |f.emitted| + 1;
    forall i | 0 <= i < |emitted| - 1 ensures !EndsCall(c, emitted[i]) {
      assert emitted[i] == f.emitted[i];
    }
  }

  lemma NoEnds(ps: seq<Payload>)
    requires Count(IsMapEnd(), ps) == 0
    ensures forall i :: 0 <= i < |ps| ==> !ps[i].MapCompleted? && !ps[i].MapFailed?
  {
    FilterNone(IsMapEnd(), ps);
    assert Filter(IsMapEnd(), ps) == [];
    forall i | 0 <= i < |ps| ensures !ps[i].MapCompleted? && !ps[i].MapFailed? {
      assert !IsMapEnd()(ps[i]);
    }
  }

  /**
    Replaying a finished call. When a call has returned results or an error, calling again with its
    events on record, followed by anything that does not end this call, gives the same outcome under
    every schedule and whatever the children would do now, and emits nothing.
  */
  lemma CalledAgain(c: MapCall, ticks: seq<FanTick>, compute: nat -> ChildEnding, later: seq<Payload>,
      again: seq<FanTick>)
    requires FreshCall(c) && Supplies(ticks, compute)
    requires RunMap(c, ticks).0.Results? || RunMap(c, ticks).0.MapError?
    requires forall p :: p in later ==> !EndsCall(c, p)
    ensures var (outcome, emitted) := RunMap(c, ticks);
            RunMap(c.(past := c.past + emitted + later), again) == (outcome, [])
  {
    hide RunMap, RunFan, Last;
    EndIsLast(c, ticks, compute);
    RunsItemsIff(c, ticks);
    var (outcome, emitted) := RunMap(c, ticks);
    var d, n := c.(past := c.past + emitted + later), |c.past| + |emitted| - 1;
    assert d.past[n] == emitted[|emitted| - 1];
    forall j | 0 <= j < |d.past| && j != n ensures !EndsCall(d, d.past[j]) {
      if j < |c.past| {
        assert d.past[j] == c.past[j] && c.past[j] in c.past;
      } else if j < n {
        assert d.past[j] == emitted[j - |c.past|];
      } else {
        assert d.past[j] == later[j - n - 1] && later[j - n - 1] in later;
      }
    }
    if outcome.Results? {
      ResultsDecode(c, ticks, compute);
      RecordedResultsAreReturned(d, again, n);
    } else {
      RecordedFailureIsReturned(d, again, n);
    }
  }

  /** A call that returns results has recorded each child's output, so a child is not run again either. */
  lemma ChildrenAreRecorded(c: MapCall, ticks: seq<FanTick>, compute: nat -> ChildEnding, i: nat)
    requires FreshCall(c) && Supplies(ticks, compute) && RunMap(c, ticks).0.Results?
    requires i < |c.items| && c.RecordedOutput(i).None?
    ensures ChildCompleted(c.Id(i), RunMap(c, ticks).0.results[i]) in RunMap(c, ticks).1
  {
    hide Count, ChildOutputView, ChildErrorView, Print, MoveItem, LaunchNext;
    MapKeepsOrder(c, ticks, compute);
    RunKeeps(c, ticks, compute);
    var f := RunFan(c, ticks);
    assert ItemInv(c, f, compute, i);
    assert HasEnded(f.phases[i]);
    EndedWellReported(c, ticks, i);
  }
}
