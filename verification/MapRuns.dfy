/** Map: one child workflow per item, run concurrently, with results in item order. */
module MapRuns {
  import opened Events
  import opened Scans
  import opened Queries
  import opened ChildIds

  /**
    How a child's replay ends; `Unfinished` stands for one that ends waiting or suspended, and
    `Unprintable` for one whose final output has no JSON form.
  */
  datatype ChildEnding = Finished(output: Option<Json>) | Erred(error: string) | Unfinished | Unprintable

  /** What the parent takes from a child: an unfinished child has no output. */
  function ResultOf(e: ChildEnding): Option<Json> {
    if e.Finished? then e.output else None
  }

  /**
    A call of Map. An item without a JSON form is None; `decodes` tells which outputs can be read
    back as the call's result type.
  */
  datatype MapCall = MapCall(run: string, mapIndex: nat, items: seq<Option<Json>>, past: seq<Payload>, workflow: string,
                             decodes: Json -> bool) {
    function Id(i: nat): string {
      run + Print(MapChild(mapIndex, i))
    }

    function RecordedOutput(i: nat): Option<Option<Json>> {
      Last(past, ChildOutputView(Id(i)))
    }

    function RecordedError(i: nat): Option<string> {
      Last(past, ChildErrorView(Id(i)))
    }

    /** A recorded output that cannot be read back; a missing one cannot. */
    predicate BadRecord(i: nat) {
      RecordedOutput(i).Some? && (RecordedOutput(i).value.None? || !decodes(RecordedOutput(i).value.value))
    }

    predicate FailedBefore(i: nat) {
      RecordedOutput(i).None? && RecordedError(i).Some?
    }

    predicate Unrecorded(i: nat) {
      RecordedOutput(i).None? && RecordedError(i).None?
    }

    predicate BadOutput(ending: ChildEnding) {
      ending.Finished? && ending.output.Some? && !decodes(ending.output.value)
    }

    /** A child's ending that its goroutine reports to the group but not as a failure of the call. */
    predicate Hushed(ending: ChildEnding) {
      ending.Unprintable? || BadOutput(ending)
    }
  }

  /** Where the goroutine of an item stands. */
  datatype ItemPhase =
    | Ahead                              // not reached by the launching loop
    | Taken                              // settled from history
    | Launched
    | Spawned
    | Reported(ending: ChildEnding)      // its child event is recorded
    | EndedWell
    | EndedFailed
    | EndedCancelled
    | EndedSilent                        // returned an error without recording it as the call's failure

  datatype Fan = Fan(next: nat, phases: seq<ItemPhase>, results: seq<Option<Json>>, first: Option<(nat, string)>,
                     broken: Option<nat>, outerDone: bool, groupDone: bool, emitted: seq<Payload>)

  /** The launching loop looks at the next item, a goroutine moves, or the caller's context is cancelled. */
  datatype FanTick = Launch | Item(i: nat, ending: ChildEnding) | CancelOuter

  function StartFan(c: MapCall): Fan {
    var n := |c.items|;
    Fan(0, seq(n, i => Ahead), seq(n, i => None), None, None, false, false, [MapStarted(c.mapIndex, n)])
  }

  function FirstOf(f: Fan, i: nat, error: string): Option<(nat, string)> {
    if f.first.Some? then f.first else Some((i, error))
  }

  /** A recorded output fills its slot, a recorded error counts as a failure, other items get a goroutine. */
  function LaunchNext(c: MapCall, f: Fan): Fan
    requires f.next < |f.phases| == |f.results|
  {
    var i := f.next;
    if c.BadRecord(i) then f.(broken := Some(i))
    else match c.RecordedOutput(i)
    case Some(output) => f.(next := i + 1, phases := f.phases[i := Taken], results := f.results[i := output])
    case None =>
      match c.RecordedError(i)
      case Some(error) => f.(next := i + 1, phases := f.phases[i := Taken],
          first := FirstOf(f, i, "child workflow failed: " + error))
      case None => f.(next := i + 1, phases := f.phases[i := Launched])
  }

  function Report(c: MapCall, i: nat, ending: ChildEnding): Payload {
    if ending.Erred? then ChildFailed(c.Id(i), ending.error) else ChildCompleted(c.Id(i), ResultOf(ending))
  }

  function MoveItem(c: MapCall, f: Fan, i: nat, ending: ChildEnding): Fan
    requires i < |f.phases| == |f.results| == |c.items|
  {
    match f.phases[i]
    case Launched =>
      if f.outerDone || f.groupDone then f.(phases := f.phases[i := EndedCancelled], groupDone := true)
      else if c.items[i].None? then f.(phases := f.phases[i := EndedSilent], groupDone := true)
      else f.(phases := f.phases[i := Spawned],
              emitted := f.emitted + [ChildSpawned(c.Id(i), c.workflow, c.items[i].value)])
    case Spawned =>
      if ending.Unprintable? then f.(phases := f.phases[i := EndedSilent], groupDone := true)
      else f.(phases := f.phases[i := Reported(ending)], emitted := f.emitted + [Report(c, i, ending)])
    case Reported(e) =>
      if e.Erred? then f.(phases := f.phases[i := EndedFailed], first := FirstOf(f, i, e.error), groupDone := true)
      else if c.BadOutput(e) then f.(phases := f.phases[i := EndedSilent], groupDone := true)
      else f.(phases := f.phases[i := EndedWell], results := f.results[i := ResultOf(e)])
    case _ => f
  }

  function Step(c: MapCall, f: Fan, tick: FanTick): Fan
    requires |f.phases| == |f.results| == |c.items|
  {
    match tick
    case Launch => if f.broken.None? && f.next < |f.phases| then LaunchNext(c, f) else f
    case Item(i, ending) => if f.broken.None? && i < |f.phases| then MoveItem(c, f, i, ending) else f
    case CancelOuter => f.(outerDone := true)
  }

  function RunFan(c: MapCall, ticks: seq<FanTick>): (f: Fan)
    ensures |f.phases| == |f.results| == |c.items|
  {
    if ticks == [] then StartFan(c) else Step(c, RunFan(c, ticks[..|ticks| - 1]), ticks[|ticks| - 1])
  }

  /** The outcome of the call; `Panicked` is a failure to report an error that nobody recorded. */
  datatype MapOutcome =
    | Results(results: seq<Option<Json>>)
    | MapError(failedIndex: int, error: string)
    | Panicked
    | Undecodable(i: nat)
    | BadResults
    | Incomplete

  predicate AllEnded(f: Fan) {
    forall i :: 0 <= i < |f.phases| ==> HasEnded(f.phases[i])
  }

  predicate HasEnded(p: ItemPhase) {
    p in {Taken, EndedWell, EndedFailed, EndedCancelled, EndedSilent}
  }

  predicate AnyError(f: Fan) {
    exists i :: 0 <= i < |f.phases| && f.phases[i] in {EndedFailed, EndedCancelled, EndedSilent}
  }

  function Conclude(c: MapCall, f: Fan): (MapOutcome, seq<Payload>) {
    if f.broken.Some? then (Undecodable(f.broken.value), f.emitted)
    else if !AllEnded(f) then (Incomplete, f.emitted)
    else if f.first.Some? then
      (MapError(f.first.value.0, f.first.value.1),
          f.emitted + [MapFailed(c.mapIndex, f.first.value.0, f.first.value.1)])
    else if AnyError(f) then (Panicked, f.emitted)
    else (Results(f.results), f.emitted + [MapCompleted(c.mapIndex, f.results)])
  }

  predicate AllDecode(c: MapCall, results: seq<Option<Json>>) {
    forall i :: 0 <= i < |results| && results[i].Some? ==> c.decodes(results[i].value)
  }

  /** MapWithOptions: outcome and events emitted, for every schedule. */
  function RunMap(c: MapCall, ticks: seq<FanTick>): (MapOutcome, seq<Payload>) {
    if c.items == [] then (Results([]), [])
    else match Last(c.past, MapResultsView(c.mapIndex))
      case Some(results) => (if AllDecode(c, results) then Results(results) else BadResults, [])
      case None =>
        match Last(c.past, MapErrorView(c.mapIndex))
        case Some(error) => (MapError(error.0, error.1), [])
        case None => Conclude(c, RunFan(c, ticks))
  }

  // ---------------------------------------------------------------------------------------------
  // Invariants

  /** An item that fails the call: recorded as failed, or failing now. */
  predicate Fails(c: MapCall, compute: nat -> ChildEnding, i: nat)
    requires i < |c.items|
  {
    c.FailedBefore(i) || (c.Unrecorded(i) && c.items[i].Some? && compute(i).Erred?)
  }

  predicate FreshCall(c: MapCall) {
    c.items != [] && Last(c.past, MapResultsView(c.mapIndex)).None? && Last(c.past, MapErrorView(c.mapIndex)).None?
  }

  /** The child of item `i`, whenever it ends, ends as `compute(i)` says. */
  ghost predicate Supplies(ticks: seq<FanTick>, compute: nat -> ChildEnding) {
    forall k :: 0 <= k < |ticks| && ticks[k].Item? ==> ticks[k].ending == compute(ticks[k].i)
  }

  function SpawnOf(id: string): Payload -> bool {
    (p: Payload) => p.ChildSpawned? && p.child == id
  }

  function IsMapEnd(): Payload -> bool {
    (p: Payload) => p.MapCompleted? || p.MapFailed?
  }

  predicate HasSpawned(c: MapCall, i: nat, p: ItemPhase)
    requires i < |c.items|
  {
    p.Spawned? || p.Reported? || p.EndedWell? || p.EndedFailed? || (p.EndedSilent? && c.items[i].Some?)
  }

  /** An unrecorded item whose goroutine, left alone, ends without a word to the call. */
  predicate Silences(c: MapCall, compute: nat -> ChildEnding, i: nat)
    requires i < |c.items|
  {
    c.Unrecorded(i) && (c.items[i].None? || c.Hushed(compute(i)))
  }

  /** An unrecorded item whose goroutine, left alone, fills its slot. */
  predicate Fine(c: MapCall, compute: nat -> ChildEnding, i: nat)
    requires i < |c.items|
  {
    c.items[i].Some? && !compute(i).Erred? && !c.Hushed(compute(i))
  }

  /** What is known of one item at any time. */
  ghost predicate ItemInv(c: MapCall, f: Fan, compute: nat -> ChildEnding, i: nat)
    requires i < |f.phases| == |f.results| == |c.items|
  {
    && (f.phases[i].Ahead? <==> i >= f.next)
    && Count(SpawnOf(c.Id(i)), f.emitted) == (if HasSpawned(c, i, f.phases[i]) then 1 else 0)
    && match f.phases[i]
       case Ahead => true
       case Taken =>
         if c.RecordedOutput(i).Some? then !c.BadRecord(i) && c.RecordedOutput(i) == Some(f.results[i])
         else c.FailedBefore(i) && f.first.Some?
       case Spawned => c.Unrecorded(i) && c.items[i].Some?
       case Reported(e) => c.Unrecorded(i) && c.items[i].Some? && e == compute(i) && !e.Unprintable?
       case EndedWell => c.Unrecorded(i) && f.results[i] == ResultOf(compute(i)) && Fine(c, compute, i)
       case EndedFailed => c.Unrecorded(i) && c.items[i].Some? && compute(i).Erred? && f.first.Some?
       case EndedSilent => Silences(c, compute, i) && f.groupDone
       case EndedCancelled => c.Unrecorded(i) && f.groupDone
       case Launched => c.Unrecorded(i)
  }

  ghost predicate FanInv(c: MapCall, f: Fan, compute: nat -> ChildEnding) {
    && |f.phases| == |f.results| == |c.items| && f.next <= |c.items|
    && Count(IsMapEnd(), f.emitted) == 0
    && forall i :: 0 <= i < |f.phases| ==> ItemInv(c, f, compute, i)
  }

  /**
    The group is cancelled only after a recorded failure, by a silent end or by the caller; a failure
    has a culprit.
  */
  ghost predicate Blame(c: MapCall, f: Fan, compute: nat -> ChildEnding)
    requires |f.phases| == |c.items|
  {
    && (f.groupDone ==> f.first.Some? || f.outerDone || exists i :: 0 <= i < |f.phases| && f.phases[i].EndedSilent?)
    && (f.first.Some? ==> f.first.value.0 < |c.items| && Fails(c, compute, f.first.value.0))
    && (f.first.Some? ==> exists i :: 0 <= i < |f.phases| && (f.phases[i].EndedFailed? || c.FailedBefore(i)))
    && (f.broken.Some? ==> f.broken.value < |c.items| && c.BadRecord(f.broken.value) && f.broken == Some(f.next))
  }

  lemma SpawnPush(c: MapCall, emitted: seq<Payload>, p: Payload, i: nat)
    ensures Count(SpawnOf(c.Id(i)), emitted + [p]) == Count(SpawnOf(c.Id(i)), emitted) + if p.ChildSpawned? &&
            p.child == c.Id(i) then 1 else 0
    ensures Count(IsMapEnd(), emitted + [p]) == Count(IsMapEnd(), emitted) + if p.MapCompleted? ||
            p.MapFailed? then 1 else 0
  {
    FilterPush(SpawnOf(c.Id(i)), emitted, p);
    FilterPush(IsMapEnd(), emitted, p);
  }

  /** What is known of an item stays known while others move. */
  lemma OtherItem(c: MapCall, f: Fan, g: Fan, compute: nat -> ChildEnding, i: nat)
    requires i < |f.phases| == |f.results| == |g.phases| == |g.results| == |c.items|
    requires ItemInv(c, f, compute, i) && g.phases[i] == f.phases[i] && g.results[i] == f.results[i]
    requires (i >= g.next <==> i >= f.next) && Count(SpawnOf(c.Id(i)), g.emitted) == Count(SpawnOf(c.Id(i)), f.emitted)
    requires (f.first.Some? ==> g.first.Some?) && (f.groupDone ==> g.groupDone)
    ensures ItemInv(c, g, compute, i)
  {
    hide Count, Last, Print, ChildOutputView, ChildErrorView;
  }

  lemma LaunchKeeps(c: MapCall, f: Fan, compute: nat -> ChildEnding)
    requires FanInv(c, f, compute) && f.next < |f.phases|
    ensures FanInv(c, LaunchNext(c, f), compute)
  {
    hide Count, ItemInv, Last, Print;
    var g := LaunchNext(c, f);
    forall i | 0 <= i < |g.phases| ensures ItemInv(c, g, compute, i) {
      assert ItemInv(c, f, compute, i);
      if i == f.next {
        LaunchedItem(c, f, compute);
      } else {
        OtherItem(c, f, g, compute, i);
      }
    }
  }

  lemma LaunchedItem(c: MapCall, f: Fan, compute: nat -> ChildEnding)
    requires f.next < |f.phases| == |f.results| == |c.items| && ItemInv(c, f, compute, f.next)
    ensures ItemInv(c, LaunchNext(c, f), compute, f.next)
  {
    hide Count, Last, Print, ChildOutputView, ChildErrorView;
  }

  lemma MovedItem(c: MapCall, f: Fan, compute: nat -> ChildEnding, k: nat)
    requires k < |f.phases| == |f.results| == |c.items| && ItemInv(c, f, compute, k)
    ensures ItemInv(c, MoveItem(c, f, k, compute(k)), compute, k)
  {
    hide Count, Last, Print, ChildOutputView, ChildErrorView;
    var g := MoveItem(c, f, k, compute(k));
    if g.emitted != f.emitted {
      SpawnPush(c, f.emitted, g.emitted[|f.emitted|], k);
      assert g.emitted == f.emitted + [g.emitted[|f.emitted|]];
    }
  }

  /** A move adds no end of the map call, and no spawn of another item. */
  lemma MoveEmits(c: MapCall, f: Fan, compute: nat -> ChildEnding, k: nat, i: nat)
    requires k < |f.phases| == |f.results| == |c.items| && i < |c.items|
    ensures var g := MoveItem(c, f, k, compute(k));
            && Count(IsMapEnd(), g.emitted) == Count(IsMapEnd(), f.emitted)
            && (i != k ==> Count(SpawnOf(c.Id(i)), g.emitted) == Count(SpawnOf(c.Id(i)), f.emitted))
            && (i != k ==> g.phases[i] == f.phases[i] && g.results[i] == f.results[i]) && g.next == f.next
            && (f.first.Some? ==> g.first.Some?) && (f.groupDone ==> g.groupDone)
  {
    hide Count, Last, Print, ChildOutputView, ChildErrorView;
    var g := MoveItem(c, f, k, compute(k));
    if g.emitted != f.emitted {
      SpawnPush(c, f.emitted, g.emitted[|f.emitted|], i);
      assert g.emitted == f.emitted + [g.emitted[|f.emitted|]];
      if i != k {
        ItemIdsDistinct(c.run, c.mapIndex, i, c.mapIndex, k);
      }
    }
  }

  lemma MoveKeeps(c: MapCall, f: Fan, compute: nat -> ChildEnding, k: nat)
    requires FanInv(c, f, compute) && k < |f.phases|
    ensures FanInv(c, MoveItem(c, f, k, compute(k)), compute)
  {
    var g := MoveItem(c, f, k, compute(k));
    MoveEmits(c, f, compute, k, k);
    hide Count, ItemInv, MoveItem;
    forall i | 0 <= i < |g.phases| ensures ItemInv(c, g, compute, i) {
      assert ItemInv(c, f, compute, i);
      MoveEmits(c, f, compute, k, i);
      if i == k {
        MovedItem(c, f, compute, k);
      } else {
        OtherItem(c, f, g, compute, i);
      }
    }
  }

  lemma {:induction false} RunKeeps(c: MapCall, ticks: seq<FanTick>, compute: nat -> ChildEnding)
    requires Supplies(ticks, compute)
    ensures FanInv(c, RunFan(c, ticks), compute)
  {
    hide ItemInv, LaunchNext, MoveItem;
    if ticks == [] {
      StartHolds(c, compute);
    } else {
      var init, tick := ticks[..|ticks| - 1], ticks[|ticks| - 1];
      RunKeeps(c, init, compute);
      var f := RunFan(c, init);
      match tick
      case Launch => if f.broken.None? && f.next < |f.phases| { LaunchKeeps(c, f, compute); }
      case Item(i, _) => if f.broken.None? && i < |f.phases| { MoveKeeps(c, f, compute, i); }
      case CancelOuter => CancelKeeps(c, f, compute);
    }
  }

  lemma CancelKeeps(c: MapCall, f: Fan, compute: nat -> ChildEnding)
    requires FanInv(c, f, compute)
    ensures FanInv(c, f.(outerDone := true), compute)
  {
    forall i | 0 <= i < |f.phases| ensures ItemInv(c, f.(outerDone := true), compute, i) {
      assert ItemInv(c, f, compute, i);
    }
  }

  lemma StartHolds(c: MapCall, compute: nat -> ChildEnding)
    ensures FanInv(c, StartFan(c), compute)
  {
    var f := StartFan(c);
    FilterNone(IsMapEnd(), f.emitted);
    forall i | 0 <= i < |f.phases| ensures ItemInv(c, f, compute, i) {
      FilterNone(SpawnOf(c.Id(i)), f.emitted);
    }
  }

  lemma LaunchBlames(c: MapCall, f: Fan, compute: nat -> ChildEnding)
    requires FanInv(c, f, compute) && Blame(c, f, compute) && f.broken.None? && f.next < |f.phases|
    ensures Blame(c, LaunchNext(c, f), compute)
  {
    hide Count, ChildOutputView, ChildErrorView, Print, Last;
    var g := LaunchNext(c, f);
    assert ItemInv(c, f, compute, f.next);
    if i :| 0 <= i < |f.phases| && f.phases[i].EndedSilent? {
      assert g.phases[i].EndedSilent?;
    }
    if f.first.Some? {
      var i :| 0 <= i < |f.phases| && (f.phases[i].EndedFailed? || c.FailedBefore(i));
      assert g.phases[i].EndedFailed? || c.FailedBefore(i);
    } else {
      assert g.first.Some? ==> c.FailedBefore(f.next);
    }
  }

  lemma MoveBlamesItem(c: MapCall, f: Fan, compute: nat -> ChildEnding, k: nat)
    requires FanInv(c, f, compute) && k < |f.phases|
    ensures var g := MoveItem(c, f, k, compute(k));
            && g.next == f.next && g.broken == f.broken && g.outerDone == f.outerDone && |g.phases| == |f.phases|
            && (forall i :: 0 <= i < |f.phases| && HasEnded(f.phases[i]) ==> g.phases[i] == f.phases[i])
            && (g.groupDone ==> f.groupDone || f.outerDone || g.phases[k].EndedSilent? || g.first.Some?)
            && (f.first.Some? ==> g.first == f.first)
            && (f.first.None? && g.first.Some? ==>
                  g.first.value.0 == k && Fails(c, compute, k) && g.phases[k].EndedFailed?)
  {
    hide Count, ChildOutputView, ChildErrorView, Print, Last;
    assert ItemInv(c, f, compute, k);
  }

  lemma MoveBlames(c: MapCall, f: Fan, compute: nat -> ChildEnding, k: nat)
    requires FanInv(c, f, compute) && Blame(c, f, compute) && f.broken.None? && k < |f.phases|
    ensures Blame(c, MoveItem(c, f, k, compute(k)), compute)
  {
    MoveBlamesItem(c, f, compute, k);
    hide Count, ChildOutputView, ChildErrorView, Print, Last, MoveItem, ItemInv, Fails;
    var g := MoveItem(c, f, k, compute(k));
    if i :| 0 <= i < |f.phases| && f.phases[i].EndedSilent? {
      assert g.phases[i].EndedSilent?;
    }
    if f.first.Some? {
      var i :| 0 <= i < |f.phases| && (f.phases[i].EndedFailed? || c.FailedBefore(i));
      assert g.phases[i].EndedFailed? || c.FailedBefore(i);
    } else {
      assert g.first.Some? ==> g.phases[k].EndedFailed?;
    }
  }

  lemma StepBlames(c: MapCall, f: Fan, compute: nat -> ChildEnding, tick: FanTick)
    requires FanInv(c, f, compute) && Blame(c, f, compute) && (tick.Item? ==> tick.ending == compute(tick.i))
    ensures Blame(c, Step(c, f, tick), compute)
  {
    match tick
    case Launch =>
      hide LaunchNext, Blame, FanInv;
      if f.broken.None? && f.next < |f.phases| { LaunchBlames(c, f, compute); }
    case Item(i, _) =>
      hide MoveItem, Blame, FanInv;
      if f.broken.None? && i < |f.phases| { MoveBlames(c, f, compute, i); }
    case CancelOuter =>
  }

  lemma {:induction false} RunBlames(c: MapCall, ticks: seq<FanTick>, compute: nat -> ChildEnding)
    requires Supplies(ticks, compute)
    ensures Blame(c, RunFan(c, ticks), compute)
  {
    if ticks == [] {
    } else {
      hide Step, FanInv, Blame;
      var init := ticks[..|ticks| - 1];
      RunBlames(c, init, compute);
      RunKeeps(c, init, compute);
      StepBlames(c, RunFan(c, init), compute, ticks[|ticks| - 1]);
    }
  }

  lemma {:induction false} OuterUncancelled(c: MapCall, ticks: seq<FanTick>)
    requires CancelOuter !in ticks
    ensures !RunFan(c, ticks).outerDone
  {
    if ticks == [] {
    } else {
      hide Step;
      OuterUncancelled(c, ticks[..|ticks| - 1]);
      assert ticks[|ticks| - 1] in ticks;
      StepKeepsOuter(c, RunFan(c, ticks[..|ticks| - 1]), ticks[|ticks| - 1]);
    }
  }

  lemma StepKeepsOuter(c: MapCall, f: Fan, tick: FanTick)
    requires |f.phases| == |f.results| == |c.items| && !tick.CancelOuter?
    ensures Step(c, f, tick).outerDone == f.outerDone
  {
    hide Last, Print;
  }

  // ---------------------------------------------------------------------------------------------
  // Results

  /**
    Map keeps order, under any interleaving and any partial resume. When the call returns results,
    slot i holds the recorded output of child i if there is one and else what child i's replay gave;
    child.spawned was emitted once for each unrecorded child and for no other; and the call ends
    with one map.completed that carries the results.
  */
  lemma MapKeepsOrder(c: MapCall, ticks: seq<FanTick>, compute: nat -> ChildEnding)
    requires FreshCall(c) && Supplies(ticks, compute) && RunMap(c, ticks).0.Results?
    ensures var (outcome, emitted) := RunMap(c, ticks);
            && |outcome.results| == |c.items|
            && (forall i :: 0 <= i < |c.items| ==>
                  outcome.results[i] ==
                  if c.RecordedOutput(i).Some? then c.RecordedOutput(i).value else ResultOf(compute(i)))
            && (forall i :: 0 <= i < |c.items| ==>
                  Count(SpawnOf(c.Id(i)), emitted) == if c.RecordedOutput(i).Some? then 0 else 1)
            && Count(IsMapEnd(), emitted) == 1 && emitted[|emitted| - 1] == MapCompleted(c.mapIndex, outcome.results)
  {
    hide Count, ChildOutputView, ChildErrorView, Print;
    RunKeeps(c, ticks, compute);
    var f := RunFan(c, ticks);
    var last := MapCompleted(c.mapIndex, f.results);
    SpawnPush(c, f.emitted, last, 0);
    forall i | 0 <= i < |c.items|
      ensures f.results[i] == if c.RecordedOutput(i).Some? then c.RecordedOutput(i).value else ResultOf(compute(i))
      ensures Count(SpawnOf(c.Id(i)), f.emitted + [last]) == if c.RecordedOutput(i).Some? then 0 else 1
    {
      assert ItemInv(c, f, compute, i);
      assert HasEnded(f.phases[i]);
      SpawnPush(c, f.emitted, last, i);
    }
  }

  /** An item that spoils the call: it fails it, or its goroutine ends silently. */
  predicate Spoils(c: MapCall, compute: nat -> ChildEnding, i: nat)
    requires i < |c.items|
  {
    Fails(c, compute, i) || Silences(c, compute, i)
  }

  /** The launching loop never passes a record that cannot be read back. */
  lemma BadRecordStops(c: MapCall, ticks: seq<FanTick>, compute: nat -> ChildEnding, i: nat)
    requires Supplies(ticks, compute) && i < |c.items| && c.BadRecord(i)
    ensures RunFan(c, ticks).phases[i].Ahead?
  {
    hide Count, ChildOutputView, ChildErrorView, Print, Last;
    RunKeeps(c, ticks, compute);
    assert ItemInv(c, RunFan(c, ticks), compute, i);
  }

  /**
    When a call has finished, how it ended. It is undecodable iff a record is; otherwise it reports
    the first failure iff a failure was recorded, before or by a goroutine; otherwise it panics iff
    some goroutine was cancelled or ended silently; otherwise it returns results.
  */
  lemma MapEndsAs(c: MapCall, ticks: seq<FanTick>, compute: nat -> ChildEnding)
    requires FreshCall(c) && Supplies(ticks, compute) && !RunMap(c, ticks).0.Incomplete?
    ensures var outcome, phases := RunMap(c, ticks).0, RunFan(c, ticks).phases;
            var bad := exists i :: 0 <= i < |c.items| && c.BadRecord(i);
            var failed := exists i :: 0 <= i < |c.items| && (c.FailedBefore(i) || phases[i].EndedFailed?);
            var unsaid := exists i :: 0 <= i < |c.items| && (phases[i].EndedCancelled? || phases[i].EndedSilent?);
            && (outcome.Undecodable? <==> bad)
            && (outcome.MapError? <==> !bad && failed)
            && (outcome.Panicked? <==> !bad && !failed && unsaid)
            && (outcome.Results? <==> !bad && !failed && !unsaid)
    ensures RunMap(c, ticks).0.Undecodable? ==> RunMap(c, ticks).0.i < |c.items| && c.BadRecord(RunMap(c, ticks).0.i)
    ensures RunMap(c, ticks).0.MapError? ==>
              var k := RunMap(c, ticks).0.failedIndex; 0 <= k < |c.items| && Fails(c, compute, k)
  {
    hide Count, ChildOutputView, ChildErrorView, Print, Last, RunFan, ItemInv, Blame, FreshCall;
    RunKeeps(c, ticks, compute);
    RunBlames(c, ticks, compute);
    var f := RunFan(c, ticks);
    FreshConcludes(c, ticks);
    BlameSays(c, f, compute);
    if f.broken.None? {
      forall i | 0 <= i < |c.items|
        ensures !c.BadRecord(i) && HasEnded(f.phases[i])
        ensures c.FailedBefore(i) || f.phases[i].EndedFailed? ==> f.first.Some?
      {
        if c.BadRecord(i) { BadRecordStops(c, ticks, compute, i); }
        EndedItem(c, f, compute, i);
      }
    }
  }

  lemma FreshConcludes(c: MapCall, ticks: seq<FanTick>)
    ensures FreshCall(c) ==> RunMap(c, ticks) == Conclude(c, RunFan(c, ticks))
    ensures RunMap(c, ticks).0.Panicked? ==> FreshCall(c)
  {}

  lemma BlameSays(c: MapCall, f: Fan, compute: nat -> ChildEnding)
    requires |f.phases| == |c.items| && Blame(c, f, compute)
    ensures f.broken.Some? ==> f.broken.value < |c.items| && c.BadRecord(f.broken.value)
    ensures f.first.Some? ==> f.first.value.0 < |c.items| && Fails(c, compute, f.first.value.0)
    ensures f.first.Some? ==> exists i :: 0 <= i < |c.items| && (c.FailedBefore(i) || f.phases[i].EndedFailed?)
    ensures f.groupDone ==> f.first.Some? || f.outerDone || exists i :: 0 <= i < |f.phases| && f.phases[i].EndedSilent?
  {}

  /** What an item that has ended says about the call. */
  lemma EndedItem(c: MapCall, f: Fan, compute: nat -> ChildEnding, i: nat)
    requires FanInv(c, f, compute) && i < |c.items| && HasEnded(f.phases[i])
    ensures c.FailedBefore(i) || f.phases[i].EndedFailed? ==> f.first.Some?
    ensures Spoils(c, compute, i) ==> f.first.Some? || f.phases[i].EndedCancelled? || f.phases[i].EndedSilent?
    ensures f.phases[i].EndedCancelled? || f.phases[i].EndedSilent? ==> c.Unrecorded(i) && f.groupDone
    ensures f.phases[i].EndedSilent? ==> Silences(c, compute, i)
  {
    hide Count, ChildOutputView, ChildErrorView, Print, Last;
    assert ItemInv(c, f, compute, i);
  }

  /**
    Without cancellation by the caller, a call that has finished returns results exactly when every
    record can be read back and no item spoils the call.
  */
  lemma MapSucceedsIff(c: MapCall, ticks: seq<FanTick>, compute: nat -> ChildEnding)
    requires FreshCall(c) && Supplies(ticks, compute) && CancelOuter !in ticks && !RunMap(c, ticks).0.Incomplete?
    ensures RunMap(c, ticks).0.Results? <==>
              forall i :: 0 <= i < |c.items| ==> !c.BadRecord(i) && !Spoils(c, compute, i)
    ensures RunMap(c, ticks).0.Panicked? ==> exists i :: 0 <= i < |c.items| && Silences(c, compute, i)
  {
    hide Count, ChildOutputView, ChildErrorView, Print, Last, RunFan, RunMap, ItemInv, Blame, FreshCall;
    MapEndsAs(c, ticks, compute);
    RunKeeps(c, ticks, compute);
    RunBlames(c, ticks, compute);
    OuterUncancelled(c, ticks);
    var f := RunFan(c, ticks);
    BlameSays(c, f, compute);
    var outcome := RunMap(c, ticks).0;
    if outcome.Panicked? || outcome.Results? {
      ConcludedEnds(c, ticks);
      forall i | 0 <= i < |c.items|
        ensures Spoils(c, compute, i) ==> f.first.Some? || f.phases[i].EndedCancelled? || f.phases[i].EndedSilent?
        ensures f.phases[i].EndedCancelled? ==> f.groupDone
        ensures f.phases[i].EndedSilent? ==> Silences(c, compute, i)
      {
        EndedItem(c, f, compute, i);
      }
      if outcome.Panicked? {
        var i :| 0 <= i < |f.phases| && f.phases[i].EndedSilent?;
        assert Spoils(c, compute, i);
      }
    } else if outcome.MapError? {
      assert Spoils(c, compute, outcome.failedIndex);
    }
  }

  lemma ConcludedEnds(c: MapCall, ticks: seq<FanTick>)
    requires FreshCall(c) && (RunMap(c, ticks).0.Panicked? || RunMap(c, ticks).0.Results?)
    ensures forall i :: 0 <= i < |c.items| ==> HasEnded(RunFan(c, ticks).phases[i])
    ensures RunFan(c, ticks).first.None?
  {}

  // ---------------------------------------------------------------------------------------------
  // The panic

  function Launches(n: nat): seq<FanTick> {
    if n == 0 then [] else Launches(n - 1) + [Launch]
  }

  /** One move for each of the first `n` items. */
  function Moves(n: nat, compute: nat -> ChildEnding): seq<FanTick> {
    if n == 0 then [] else Moves(n - 1, compute) + [Item(n - 1, compute(n - 1))]
  }

  /** A call that may panic: new, nothing on record that fails it or cannot be read back. */
  predicate Clean(c: MapCall) {
    FreshCall(c) && forall i :: 0 <= i < |c.items| ==> !c.BadRecord(i) && !c.FailedBefore(i)
  }

  lemma RunPush(c: MapCall, ticks: seq<FanTick>, tick: FanTick)
    ensures RunFan(c, ticks + [tick]) == Step(c, RunFan(c, ticks), tick)
  {
    assert (ticks + [tick])[..|ticks|] == ticks;
  }

  /** A clean call with its first `n` items taken from history or launched. */
  ghost predicate LaunchedTo(c: MapCall, f: Fan, n: nat, outer: bool) {
    && |f.phases| == |f.results| == |c.items|
    && f.next == n && f.broken.None? && f.first.None? && !f.groupDone && f.outerDone == outer
    && forall i :: 0 <= i < |c.items| ==>
         f.phases[i] == if i >= n then Ahead else if c.Unrecorded(i) then Launched else Taken
  }

  lemma LaunchesOne(c: MapCall, f: Fan, n: nat, outer: bool)
    requires Clean(c) && n < |c.items| && LaunchedTo(c, f, n, outer)
    ensures LaunchedTo(c, Step(c, f, Launch), n + 1, outer)
  {
    hide Print, Last, ChildOutputView, ChildErrorView, FreshCall;
    assert !c.BadRecord(n) && !c.FailedBefore(n);
  }

  lemma {:induction false} LaunchesRun(c: MapCall, outer: bool, n: nat)
    requires Clean(c) && n <= |c.items|
    ensures LaunchedTo(c, RunFan(c, (if outer then [CancelOuter] else []) + Launches(n)), n, outer)
  {
    hide Clean, LaunchedTo, Step, RunFan;
    var before := if outer then [CancelOuter] else [];
    if n == 0 {
      assert before + Launches(0) == before;
      NothingLaunched(c, outer);
    } else {
      LaunchesRun(c, outer, n - 1);
      RunPush(c, before + Launches(n - 1), Launch);
      assert before + Launches(n) == before + Launches(n - 1) + [Launch];
      LaunchesOne(c, RunFan(c, before + Launches(n - 1)), n - 1, outer);
    }
  }

  lemma NothingLaunched(c: MapCall, outer: bool)
    ensures LaunchedTo(c, RunFan(c, if outer then [CancelOuter] else []), 0, outer)
  {
    hide Last, Print, ChildOutputView, ChildErrorView;
    assert RunFan(c, []) == StartFan(c);
    if outer {
      assert [] + [CancelOuter] == [CancelOuter];
      RunPush(c, [], CancelOuter);
    }
  }

  /** Once the group is cancelled, one more move ends each goroutine that was launched but not run. */
  lemma {:induction false} MovesCancel(c: MapCall, before: seq<FanTick>, compute: nat -> ChildEnding, n: nat)
    requires n <= |c.items|
    requires var f := RunFan(c, before);
             && f.broken.None? && f.first.None? && (f.outerDone || f.groupDone)
             && forall i :: 0 <= i < |c.items| ==> f.phases[i].Launched? || HasEnded(f.phases[i])
    ensures var f, g := RunFan(c, before), RunFan(c, before + Moves(n, compute));
            && g.broken.None? && g.first.None? && (g.outerDone || g.groupDone)
            && forall i :: 0 <= i < |c.items| ==>
                 g.phases[i] == if i < n && f.phases[i].Launched? then EndedCancelled else f.phases[i]
  {
    hide Print, Last, ChildOutputView, ChildErrorView, RunFan;
    if n == 0 {
      assert before + Moves(0, compute) == before;
    } else {
      MovesCancel(c, before, compute, n - 1);
      RunPush(c, before + Moves(n - 1, compute), Item(n - 1, compute(n - 1)));
      assert before + Moves(n, compute) == before + Moves(n - 1, compute) + [Item(n - 1, compute(n - 1))];
    }
  }

  lemma {:induction false} LaunchesSupply(n: nat, compute: nat -> ChildEnding)
    ensures Supplies(Launches(n), compute) && CancelOuter !in Launches(n)
    ensures Supplies(Moves(n, compute), compute) && CancelOuter !in Moves(n, compute)
  {
    if n > 0 {
      LaunchesSupply(n - 1, compute);
    }
  }

  lemma SuppliesBoth(a: seq<FanTick>, b: seq<FanTick>, compute: nat -> ChildEnding)
    requires Supplies(a, compute) && Supplies(b, compute)
    ensures Supplies(a + b, compute)
  {}

  /** From a state in which all that is left is to be cancelled, and something is, the call panics. */
  lemma CancelledEnd(c: MapCall, before: seq<FanTick>, compute: nat -> ChildEnding, k: nat)
    requires FreshCall(c) && k < |c.items|
    requires var f := RunFan(c, before);
             && f.broken.None? && f.first.None? && (f.outerDone || f.groupDone)
             && (forall i :: 0 <= i < |c.items| ==> f.phases[i] in {Launched, Taken, EndedSilent})
             && (f.phases[k].Launched? || f.phases[k].EndedSilent?)
    ensures RunMap(c, before + Moves(|c.items|, compute)).0.Panicked?
  {
    hide Print, Last, ChildOutputView, ChildErrorView, RunFan, FreshCall;
    MovesCancel(c, before, compute, |c.items|);
    FreshConcludes(c, before + Moves(|c.items|, compute));
    var g := RunFan(c, before + Moves(|c.items|, compute));
    assert g.phases[k] in {EndedFailed, EndedCancelled, EndedSilent};
  }

  /** The same call under every schedule: which ones a call can panic under. */
  ghost predicate CanPanic(c: MapCall, compute: nat -> ChildEnding, cancel: bool) {
    exists ticks :: Supplies(ticks, compute) && (cancel || CancelOuter !in ticks) && RunMap(c, ticks).0.Panicked?
  }

  lemma PanicNeeds(c: MapCall, ticks: seq<FanTick>, compute: nat -> ChildEnding)
    requires Supplies(ticks, compute) && RunMap(c, ticks).0.Panicked?
    ensures Clean(c) && exists i :: 0 <= i < |c.items| && c.Unrecorded(i)
  {
    hide Count, ChildOutputView, ChildErrorView, Print, Last, RunFan, RunMap, ItemInv, Blame, FreshCall;
    FreshConcludes(c, ticks);
    MapEndsAs(c, ticks, compute);
    RunKeeps(c, ticks, compute);
    var f := RunFan(c, ticks);
    var i :| 0 <= i < |c.items| && (f.phases[i].EndedCancelled? || f.phases[i].EndedSilent?);
    EndedItem(c, f, compute, i);
  }

  /**
    Exactly which calls can panic, whatever the children do: those that are new, have no failed and
    no unreadable record, and have an item without a record. It takes a cancelled caller at most.
  */
  lemma CanPanicIff(c: MapCall, compute: nat -> ChildEnding)
    ensures CanPanic(c, compute, true) <==> Clean(c) && exists i :: 0 <= i < |c.items| && c.Unrecorded(i)
  {
    hide RunMap, RunFan, Clean, Launches, Moves;
    if CanPanic(c, compute, true) {
      var ticks :| Supplies(ticks, compute) && RunMap(c, ticks).0.Panicked?;
      PanicNeeds(c, ticks, compute);
    }
    if Clean(c) && exists i :: 0 <= i < |c.items| && c.Unrecorded(i) {
      var k :| 0 <= k < |c.items| && c.Unrecorded(k);
      var before, n := [CancelOuter] + Launches(|c.items|), |c.items|;
      LaunchesRun(c, true, n);
      CleanIsFresh(c);
      CancelledEnd(c, before, compute, k);
      LaunchesSupply(n, compute);
      SuppliesBoth([CancelOuter], Launches(n), compute);
      SuppliesBoth(before, Moves(n, compute), compute);
    }
  }

  lemma CleanIsFresh(c: MapCall)
    requires Clean(c)
    ensures FreshCall(c)
  {}

  /** The goroutine of a silencing item, run alone right after the launches, ends silently. */
  lemma SilentItemRuns(c: MapCall, compute: nat -> ChildEnding, k: nat)
    requires Clean(c) && k < |c.items| && Silences(c, compute, k)
    ensures var move := Item(k, compute(k));
            var f, g := RunFan(c, Launches(|c.items|)), RunFan(c, Launches(|c.items|) + [move, move, move]);
            && g.broken.None? && g.first.None? && g.groupDone && g.phases == f.phases[k := EndedSilent]
  {
    hide Print, Last, ChildOutputView, ChildErrorView, RunFan, FreshCall;
    var n, move := |c.items|, Item(k, compute(k));
    var a := Launches(n);
    LaunchesRun(c, false, n);
    assert [] + a == a;
    RunPush(c, a, move);
    RunPush(c, a + [move], move);
    RunPush(c, a + [move] + [move], move);
    assert a + [move, move, move] == a + [move] + [move] + [move];
  }

  /**
    And without a cancelled caller: exactly when some item without a record cannot be sent to its
    child, or its child's output cannot be printed or read back.
  */
  lemma CanPanicUncancelledIff(c: MapCall, compute: nat -> ChildEnding)
    ensures CanPanic(c, compute, false) <==> Clean(c) && exists i :: 0 <= i < |c.items| && Silences(c, compute, i)
  {
    hide RunMap, RunFan, Clean, Launches, Moves;
    if CanPanic(c, compute, false) {
      var ticks :| Supplies(ticks, compute) && CancelOuter !in ticks && RunMap(c, ticks).0.Panicked?;
      PanicNeeds(c, ticks, compute);
      CleanIsFresh(c);
      MapSucceedsIff(c, ticks, compute);
    }
    if Clean(c) && exists i :: 0 <= i < |c.items| && Silences(c, compute, i) {
      var k :| 0 <= k < |c.items| && Silences(c, compute, k);
      var n, move := |c.items|, Item(k, compute(k));
      var before := Launches(n) + [move, move, move];
      LaunchesRun(c, false, n);
      assert [] + Launches(n) == Launches(n);
      SilentItemRuns(c, compute, k);
      CleanIsFresh(c);
      CancelledEnd(c, before, compute, k);
      LaunchesSupply(n, compute);
      SuppliesBoth(Launches(n), [move, move, move], compute);
      SuppliesBoth(before, Moves(n, compute), compute);
    }
  }

  /** One item, cancelled before its goroutine gets to run. */
  lemma CancelledCallPanics(run: string, item: Json, workflow: string, decodes: Json -> bool)
    ensures var c := MapCall(run, 0, [Some(item)], [], workflow, decodes);
            RunMap(c, [Launch, CancelOuter, Item(0, Unfinished)]).0.Panicked?
  {
    hide Print;
    var c := MapCall(run, 0, [Some(item)], [], workflow, decodes);
    assert [] + [Launch] == [Launch];
    RunPush(c, [], Launch);
    RunPush(c, [Launch], CancelOuter);
    RunPush(c, [Launch] + [CancelOuter], Item(0, Unfinished));
    assert [Launch] + [CancelOuter] + [Item(0, Unfinished)] == [Launch, CancelOuter, Item(0, Unfinished)];
    assert RunFan(c, [Launch, CancelOuter, Item(0, Unfinished)]).phases[0] == EndedCancelled;
  }

  /** One item whose child succeeds with an output that is not of the result type; nobody cancels anything. */
  lemma UnreadableOutputPanics(run: string, item: Json, workflow: string, decodes: Json -> bool, output: Json)
    requires !decodes(output)
    ensures var c, move := MapCall(run, 0, [Some(item)], [], workflow, decodes), Item(0, Finished(Some(output)));
            RunMap(c, [Launch, move, move, move]).0.Panicked?
  {
    hide Print;
    var c, move := MapCall(run, 0, [Some(item)], [], workflow, decodes), Item(0, Finished(Some(output)));
    assert [] + [Launch] == [Launch];
    RunPush(c, [], Launch);
    RunPush(c, [Launch], move);
    RunPush(c, [Launch] + [move], move);
    RunPush(c, [Launch] + [move] + [move], move);
    assert [Launch] + [move] + [move] + [move] == [Launch, move, move, move];
    assert RunFan(c, [Launch, move, move, move]).phases[0] == EndedSilent;
  }

  predicate ReportedWell(p: ItemPhase) {
    p.EndedWell? || (p.Reported? && !p.ending.Erred?)
  }

  /** An item becomes reported only by the move that emits its child.completed. */
  lemma StepReports(c: MapCall, f: Fan, tick: FanTick, i: nat)
    requires i < |f.phases| == |f.results| == |c.items| && ReportedWell(Step(c, f, tick).phases[i])
    ensures f.emitted <= Step(c, f, tick).emitted
    ensures ReportedWell(f.phases[i])
            || (tick.Item? && tick.i == i && ChildCompleted(c.Id(i), ResultOf(tick.ending)) in Step(c, f, tick).emitted)
  {
    hide ChildOutputView, ChildErrorView, Print, Last;
  }

  lemma {:induction false} EndedWellReported(c: MapCall, ticks: seq<FanTick>, i: nat)
    requires i < |c.items| && ReportedWell(RunFan(c, ticks).phases[i])
    ensures exists k :: 0 <= k < |ticks| && ticks[k].Item? && ticks[k].i == i &&
                        ChildCompleted(c.Id(i), ResultOf(ticks[k].ending)) in RunFan(c, ticks).emitted
  {
    hide Step, ReportedWell, Print;
    if ticks == [] {
      assert !ReportedWell(Ahead) by { AheadNotReported(); }
    } else {
      var init := ticks[..|ticks| - 1];
      var before := RunFan(c, init);
      StepReports(c, before, ticks[|ticks| - 1], i);
      if ReportedWell(before.phases[i]) {
        EndedWellReported(c, init, i);
        var k :| 0 <= k < |init| && init[k].Item? && init[k].i == i &&
            ChildCompleted(c.Id(i), ResultOf(init[k].ending)) in before.emitted;
        assert ticks[k] == init[k];
      }
    }
  }

  lemma AheadNotReported()
    ensures !ReportedWell(Ahead)
  {}

  /**
    A child that ends waiting or suspended is recorded as completed without output, and its slot
    stays empty: the engine looks only for failures.
  */
  lemma UnfinishedChildCountsAsDone(c: MapCall, ticks: seq<FanTick>, compute: nat -> ChildEnding, i: nat)
    requires FreshCall(c) && Supplies(ticks, compute) && RunMap(c, ticks).0.Results?
    requires i < |c.items| && c.RecordedOutput(i).None? && compute(i).Unfinished?
    ensures RunMap(c, ticks).0.results[i] == None
    ensures ChildCompleted(c.Id(i), None) in RunMap(c, ticks).1
  {
    hide Count, ChildOutputView, ChildErrorView, Print, MoveItem, LaunchNext;
    MapKeepsOrder(c, ticks, compute);
    RunKeeps(c, ticks, compute);
    var f := RunFan(c, ticks);
    assert ItemInv(c, f, compute, i);
    assert HasEnded(f.phases[i]);
    EndedWellReported(c, ticks, i);
  }

  // ---------------------------------------------------------------------------------------------
  // The call with its shared variables

  /** A Map call in progress: result slots and failure variables written by the goroutines. */
  class MapRun {
    const call: MapCall
    const results: array<Option<Json>>
    const phases: array<ItemPhase>
    var next: nat
    var first: Option<(nat, string)>
    var broken: Option<nat>
    var outerDone: bool
    var groupDone: bool
    var newEvents: seq<Payload>

    ghost predicate Valid()
      reads this
    {
      results.Length == phases.Length == |call.items|
    }

    function View(): Fan
      reads this, results, phases
    {
      Fan(next, phases[..], results[..], first, broken, outerDone, groupDone, newEvents)
    }

    constructor (call: MapCall)
      ensures this.call == call && Valid() && fresh(results) && fresh(phases)
      ensures View() == StartFan(call)
    {
      var n := |call.items|;
      this.call := call;
      results := new Option<Json>[n](i => None);
      phases := new ItemPhase[n](i => Ahead);
      next, first, broken, outerDone, groupDone := 0, None, None, false, false;
      newEvents := [MapStarted(call.mapIndex, n)];
    }

    method RecordFailure(i: nat, error: string)
      modifies this`first
      ensures first == FirstOf(old(View()), i, error)
    {
      if first.None? {
        first := Some((i, error));
      }
    }

    /** The launching loop's turn on the next item. */
    method LaunchItem()
      requires Valid() && next < |call.items|
      modifies this`next, this`first, this`broken, results, phases
      ensures Valid() && View() == LaunchNext(call, old(View()))
    {
      var i := next;
      var output := call.RecordedOutput(i);
      if output.Some? {
        if output.value.None? || !call.decodes(output.value.value) {
          broken := Some(i);
          return;
        }
        results[i] := output.value;
        phases[i] := Taken;
        next := i + 1;
        return;
      }
      var error := call.RecordedError(i);
      if error.Some? {
        RecordFailure(i, "child workflow failed: " + error.value);
        phases[i] := Taken;
      } else {
        phases[i] := Launched;
      }
      next := i + 1;
    }

    /** One move of an item's goroutine. */
    method MoveChild(i: nat, ending: ChildEnding)
      requires Valid() && i < |call.items|
      modifies this`first, this`groupDone, this`newEvents, results, phases
      ensures Valid() && View() == MoveItem(call, old(View()), i, ending)
    {
      match phases[i] {
        case Launched =>
          if outerDone || groupDone {
            phases[i] := EndedCancelled;
            groupDone := true;
          } else if call.items[i].None? {
            phases[i] := EndedSilent;
            groupDone := true;
          } else {
            newEvents := newEvents + [ChildSpawned(call.Id(i), call.workflow, call.items[i].value)];
            phases[i] := Spawned;
          }
        case Spawned =>
          if ending.Unprintable? {
            phases[i] := EndedSilent;
            groupDone := true;
            return;
          }
          if ending.Erred? {
            newEvents := newEvents + [ChildFailed(call.Id(i), ending.error)];
          } else {
            newEvents := newEvents + [ChildCompleted(call.Id(i), ResultOf(ending))];
          }
          phases[i] := Reported(ending);
        case Reported(e) =>
          if e.Erred? {
            RecordFailure(i, e.error);
            phases[i] := EndedFailed;
            groupDone := true;
          } else if e.Finished? && e.output.Some? && !call.decodes(e.output.value) {
            phases[i] := EndedSilent;
            groupDone := true;
          } else {
            results[i] := ResultOf(e);
            phases[i] := EndedWell;
          }
        case _ =>
      }
    }

    method Play(ticks: seq<FanTick>)
      requires Valid() && View() == StartFan(call)
      modifies this, results, phases
      ensures Valid() && View() == RunFan(call, ticks)
    {
      hide LaunchNext, MoveItem;
      for k := 0 to |ticks|
        invariant Valid() && View() == RunFan(call, ticks[..k])
      {
        assert ticks[..k + 1][..k] == ticks[..k];
        match ticks[k] {
          case Launch =>
            if broken.None? && next < |call.items| {
              LaunchItem();
            }
          case Item(i, ending) =>
            if broken.None? && i < |call.items| {
              MoveChild(i, ending);
            }
          case CancelOuter =>
            outerDone := true;
        }
      }
      assert ticks[..|ticks|] == ticks;
    }

    /** After the goroutines: report the first failure, or the results. */
    method Finish() returns (outcome: MapOutcome)
      requires Valid()
      modifies this`newEvents
      ensures (outcome, newEvents) == Conclude(call, old(View()))
    {
      if broken.Some? {
        return Undecodable(broken.value);
      }
      var f := View();
      if !AllEnded(f) {
        return Incomplete;
      }
      if first.Some? {
        newEvents := newEvents + [MapFailed(call.mapIndex, first.value.0, first.value.1)];
        return MapError(first.value.0, first.value.1);
      }
      if AnyError(f) {
        return Panicked;
      }
      newEvents := newEvents + [MapCompleted(call.mapIndex, results[..])];
      return Results(results[..]);
    }
  }

  /** MapWithOptions: recorded outcomes are returned as they are, otherwise the items are run. */
  method MapWithOptions(call: MapCall, ticks: seq<FanTick>) returns (outcome: MapOutcome, emitted: seq<Payload>)
    ensures (outcome, emitted) == RunMap(call, ticks)
  {
    if |call.items| == 0 {
      return Results([]), [];
    }
    var done := Last(call.past, MapResultsView(call.mapIndex));
    if done.Some? {
      return if AllDecode(call, done.value) then Results(done.value) else BadResults, [];
    }
    var failed := Last(call.past, MapErrorView(call.mapIndex));
    if failed.Some? {
      return MapError(failed.value.0, failed.value.1), [];
    }
    var run := new MapRun(call);
    run.Play(ticks);
    outcome := run.Finish();
    emitted := run.newEvents;
  }
}
