/** The events of a map call: determined item by item, whatever the interleaving. */
module MapTraces {
  import opened Events
  import opened Scans
  import opened Queries
  import opened ChildIds
  import opened MapRuns

  function OfChild(id: string): Payload -> bool {
    (p: Payload) => (p.ChildSpawned? || p.ChildCompleted? || p.ChildFailed?) && p.child == id
  }

  function OfMap(): Payload -> bool {
    (p: Payload) => p.MapStarted? || p.MapCompleted? || p.MapFailed?
  }

  /** The events of item `i` so far: its spawn with the workflow and the item, then its child's report. */
  function TraceOf(c: MapCall, compute: nat -> ChildEnding, i: nat, phase: ItemPhase): seq<Payload>
    requires i < |c.items|
  {
    if c.items[i].None? then []
    else
      var spawn := ChildSpawned(c.Id(i), c.workflow, c.items[i].value);
      match phase
      case Spawned => [spawn]
      case Reported(_) => [spawn, Report(c, i, compute(i))]
      case EndedWell => [spawn, Report(c, i, compute(i))]
      case EndedFailed => [spawn, Report(c, i, compute(i))]
      case EndedSilent => if compute(i).Unprintable? then [spawn] else [spawn, Report(c, i, compute(i))]
      case _ => []
  }

  ghost predicate Traced(c: MapCall, f: Fan, compute: nat -> ChildEnding, i: nat)
    requires i < |f.phases| == |c.items|
  {
    Filter(OfChild(c.Id(i)), f.emitted) == TraceOf(c, compute, i, f.phases[i])
  }

  /** Of the call itself there is only its start, and every other event is of one of its items. */
  ghost predicate Traces(c: MapCall, f: Fan, compute: nat -> ChildEnding) {
    && |f.phases| == |c.items|
    && Filter(OfMap(), f.emitted) == [MapStarted(c.mapIndex, |c.items|)]
    && (forall p :: p in f.emitted ==> OfCall(c, p))
    && forall i :: 0 <= i < |c.items| ==> Traced(c, f, compute, i)
  }

  ghost predicate OfCall(c: MapCall, p: Payload) {
    OfMap()(p) || exists i :: 0 <= i < |c.items| && OfChild(c.Id(i))(p)
  }

  /** A move of an item's goroutine adds to that item's events what its phase says, and nothing else. */
  lemma MoveTraced(c: MapCall, f: Fan, compute: nat -> ChildEnding, k: nat)
    requires k < |f.phases| == |f.results| == |c.items| && ItemInv(c, f, compute, k) && Traced(c, f, compute, k)
    ensures Traced(c, MoveItem(c, f, k, compute(k)), compute, k)
  {
    hide Count, Filter, Last, Print, ChildOutputView, ChildErrorView;
    var g := MoveItem(c, f, k, compute(k));
    if g.emitted != f.emitted {
      var p := g.emitted[|f.emitted|];
      assert g.emitted == f.emitted + [p];
      FilterPush(OfChild(c.Id(k)), f.emitted, p);
    }
  }

  /** The event that a move adds, if any, is of the item that moves. */
  lemma MoveAdds(c: MapCall, f: Fan, compute: nat -> ChildEnding, k: nat)
    requires k < |f.phases| == |f.results| == |c.items|
    ensures var g := MoveItem(c, f, k, compute(k));
            && |g.phases| == |f.phases| && (forall i :: 0 <= i < |f.phases| && i != k ==> g.phases[i] == f.phases[i])
            && (g.emitted == f.emitted
                || exists p :: g.emitted == f.emitted + [p] && OfChild(c.Id(k))(p) && !OfMap()(p))
  {
    hide Last, Print, ChildOutputView, ChildErrorView;
    var g := MoveItem(c, f, k, compute(k));
    if g.emitted != f.emitted {
      var p := g.emitted[|f.emitted|];
      assert g.emitted == f.emitted + [p];
    }
  }

  lemma OthersTraced(c: MapCall, f: Fan, compute: nat -> ChildEnding, k: nat, i: nat)
    requires k < |f.phases| == |f.results| == |c.items| && i < |c.items| && i != k && Traced(c, f, compute, i)
    ensures Traced(c, MoveItem(c, f, k, compute(k)), compute, i)
  {
    hide Filter, Print, MoveItem, TraceOf;
    MoveAdds(c, f, compute, k);
    var g := MoveItem(c, f, k, compute(k));
    if g.emitted != f.emitted {
      var p :| g.emitted == f.emitted + [p] && OfChild(c.Id(k))(p) && !OfMap()(p);
      ItemIdsDistinct(c.run, c.mapIndex, i, c.mapIndex, k);
      FilterPush(OfChild(c.Id(i)), f.emitted, p);
    }
  }

  lemma MoveTraces(c: MapCall, f: Fan, compute: nat -> ChildEnding, k: nat)
    requires FanInv(c, f, compute) && Traces(c, f, compute) && k < |f.phases|
    ensures Traces(c, MoveItem(c, f, k, compute(k)), compute)
  {
    hide Filter, Print, MoveItem, Traced, ItemInv;
    var g := MoveItem(c, f, k, compute(k));
    MoveAdds(c, f, compute, k);
    if g.emitted != f.emitted {
      var p :| g.emitted == f.emitted + [p] && OfChild(c.Id(k))(p) && !OfMap()(p);
      FilterPush(OfMap(), f.emitted, p);
      assert OfCall(c, p);
    }
    forall i | 0 <= i < |c.items| ensures Traced(c, g, compute, i) {
      assert Traced(c, f, compute, i);
      if i == k {
        assert ItemInv(c, f, compute, k);
        MoveTraced(c, f, compute, k);
      } else {
        OthersTraced(c, f, compute, k, i);
      }
    }
  }

  lemma LaunchTraces(c: MapCall, f: Fan, compute: nat -> ChildEnding)
    requires FanInv(c, f, compute) && Traces(c, f, compute) && f.next < |f.phases|
    ensures Traces(c, LaunchNext(c, f), compute)
  {
    hide Filter, Count, Print, Last, ChildOutputView, ChildErrorView;
    var g := LaunchNext(c, f);
    assert ItemInv(c, f, compute, f.next);
    forall i | 0 <= i < |c.items| ensures Traced(c, g, compute, i) {
      assert Traced(c, f, compute, i);
    }
  }

  lemma CancelTraces(c: MapCall, f: Fan, compute: nat -> ChildEnding)
    requires Traces(c, f, compute)
    ensures Traces(c, f.(outerDone := true), compute)
  {
    hide Filter, Print, TraceOf, OfCall;
    forall i | 0 <= i < |c.items| ensures Traced(c, f.(outerDone := true), compute, i) {
      assert Traced(c, f, compute, i);
    }
  }

  lemma StartTraces(c: MapCall, compute: nat -> ChildEnding)
    ensures Traces(c, StartFan(c), compute)
  {
    hide Print;
    var f := StartFan(c);
    FilterAll(OfMap(), f.emitted);
    forall i | 0 <= i < |c.items| ensures Traced(c, f, compute, i) {
      FilterNone(OfChild(c.Id(i)), f.emitted);
    }
  }

  lemma {:induction false} RunTraces(c: MapCall, ticks: seq<FanTick>, compute: nat -> ChildEnding)
    requires Supplies(ticks, compute)
    ensures Traces(c, RunFan(c, ticks), compute)
  {
    hide LaunchNext, MoveItem, FanInv, Traces;
    if ticks == [] {
      StartTraces(c, compute);
    } else {
      var init, tick := ticks[..|ticks| - 1], ticks[|ticks| - 1];
      RunTraces(c, init, compute);
      RunKeeps(c, init, compute);
      var f := RunFan(c, init);
      match tick
      case Launch => if f.broken.None? && f.next < |f.phases| { LaunchTraces(c, f, compute); }
      case Item(i, _) => if f.broken.None? && i < |f.phases| { MoveTraces(c, f, compute, i); }
      case CancelOuter => CancelTraces(c, f, compute);
    }
  }

  /**
    The events of a call that returns results, up to the interleaving of its items: of the call
    itself map.started with the number of items and map.completed with the results; of each item
    without a recorded output child.spawned with the workflow and the item, then child.completed
    with the result; of the other items nothing; and no other events.
  */
  lemma MapTrace(c: MapCall, ticks: seq<FanTick>, compute: nat -> ChildEnding)
    requires FreshCall(c) && Supplies(ticks, compute) && RunMap(c, ticks).0.Results?
    ensures var (outcome, emitted) := RunMap(c, ticks);
            && |outcome.results| == |c.items|
            && Filter(OfMap(), emitted) ==
                 [MapStarted(c.mapIndex, |c.items|), MapCompleted(c.mapIndex, outcome.results)]
            && (forall p :: p in emitted ==> OfCall(c, p))
            && forall i :: 0 <= i < |c.items| ==>
                 Filter(OfChild(c.Id(i)), emitted) ==
                 if c.RecordedOutput(i).Some? || c.items[i].None? then []
                 else [ChildSpawned(c.Id(i), c.workflow, c.items[i].value),
                       ChildCompleted(c.Id(i), outcome.results[i])]
  {
    hide Count, Filter, ChildOutputView, ChildErrorView, Print, RunFan, Last;
    FreshConcludes(c, ticks);
    RunKeeps(c, ticks, compute);
    RunTraces(c, ticks, compute);
    var f := RunFan(c, ticks);
    var last := MapCompleted(c.mapIndex, f.results);
    FilterPush(OfMap(), f.emitted, last);
    forall i | 0 <= i < |c.items|
      ensures Filter(OfChild(c.Id(i)), f.emitted + [last]) ==
              if c.RecordedOutput(i).Some? || c.items[i].None? then []
              else [ChildSpawned(c.Id(i), c.workflow, c.items[i].value), ChildCompleted(c.Id(i), f.results[i])]
    {
      FilterPush(OfChild(c.Id(i)), f.emitted, last);
      assert Traced(c, f, compute, i) && ItemInv(c, f, compute, i);
      assert HasEnded(f.phases[i]);
    }
  }

  /**
    And of any other call that runs its items: each item's events are none, or its spawn, or its
    spawn and the report of how its child ended; nothing for items on record; and only a failing
    call ends with an event of its own.
  */
  lemma AnyTrace(c: MapCall, ticks: seq<FanTick>, compute: nat -> ChildEnding)
    requires FreshCall(c) && Supplies(ticks, compute) && !RunMap(c, ticks).0.Results?
    ensures var (outcome, emitted) := RunMap(c, ticks);
            && Filter(OfMap(), emitted) ==
                 [MapStarted(c.mapIndex, |c.items|)]
                 + (if outcome.MapError? then [MapFailed(c.mapIndex, outcome.failedIndex, outcome.error)] else [])
            && (forall p :: p in emitted ==> OfCall(c, p))
            && forall i :: 0 <= i < |c.items| ==>
                 var trace := Filter(OfChild(c.Id(i)), emitted);
                 || trace == []
                 || (c.Unrecorded(i) && c.items[i].Some?
                     && trace <= [ChildSpawned(c.Id(i), c.workflow, c.items[i].value), Report(c, i, compute(i))])
  {
    hide Count, Filter, ChildOutputView, ChildErrorView, Print, RunFan, Last;
    FreshConcludes(c, ticks);
    RunKeeps(c, ticks, compute);
    RunTraces(c, ticks, compute);
    var (outcome, emitted) := RunMap(c, ticks);
    var f := RunFan(c, ticks);
    if outcome.MapError? {
      FilterPush(OfMap(), f.emitted, emitted[|f.emitted|]);
    }
    forall i | 0 <= i < |c.items|
      ensures Filter(OfChild(c.Id(i)), emitted) == TraceOf(c, compute, i, f.phases[i])
      ensures TraceOf(c, compute, i, f.phases[i]) != [] ==> c.Unrecorded(i)
    {
      if outcome.MapError? {
        FilterPush(OfChild(c.Id(i)), f.emitted, emitted[|f.emitted|]);
      }
      assert Traced(c, f, compute, i) && ItemInv(c, f, compute, i);
    }
  }
}
