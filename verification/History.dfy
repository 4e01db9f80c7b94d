/** What a log says, read off by direct scans. */
module Queries {
  import opened Events
  import opened Scans

  /** Step results are recorded only for named steps and only when an output is present. */
  function OutputView(step: string): Payload -> Option<Json> {
    (p: Payload) => if p.StepCompleted? && p.step == step && step != "" then p.output else None
  }

  function FatalView(step: string): Payload -> Option<string> {
    (p: Payload) => if p.StepFailed? && p.step == step && step != "" && !p.willRetry then Some(p.error) else None
  }

  function ChoiceView(branch: string): Payload -> Option<string> {
    (p: Payload) => if p.BranchEvaluated? && p.branch == branch then Some(p.choice) else None
  }

  function WaitingView(signal: string): Payload -> Option<int> {
    (p: Payload) => if p.SignalWaiting? && p.signal == signal then Some(p.timeoutAt) else None
  }

  function ReceivedView(signal: string): Payload -> Option<Json> {
    (p: Payload) => if p.SignalReceived? && p.signal == signal then Some(p.message) else None
  }

  function TimeoutView(signal: string): Payload -> Option<()> {
    (p: Payload) => if p.SignalTimeout? && p.signal == signal then Some(()) else None
  }

  function MapResultsView(index: int): Payload -> Option<seq<Option<Json>>> {
    (p: Payload) => if p.MapCompleted? && p.mapIndex == index then Some(p.results) else None
  }

  function MapErrorView(index: int): Payload -> Option<(int, string)> {
    (p: Payload) => if p.MapFailed? && p.mapIndex == index then Some((p.failedIndex, p.error)) else None
  }

  function ChildOutputView(child: string): Payload -> Option<Option<Json>> {
    (p: Payload) => if p.ChildCompleted? && p.child == child then Some(p.childOutput) else None
  }

  function ChildErrorView(child: string): Payload -> Option<string> {
    (p: Payload) => if p.ChildFailed? && p.child == child then Some(p.error) else None
  }

  function InputView(): Payload -> Option<Json> {
    (p: Payload) => if p.WorkflowStarted? then Some(p.input) else None
  }

  function CompletedView(): Payload -> Option<()> {
    (p: Payload) => if p.WorkflowCompleted? then Some(()) else None
  }

  function CancelledView(): Payload -> Option<()> {
    (p: Payload) => if p.WorkflowCancelled? then Some(()) else None
  }

  function OutputOf(ps: seq<Payload>, step: string): Option<Json> { Last(ps, OutputView(step)) }

  /** All recorded outputs, by step name. */
  function OutputMap(ps: seq<Payload>): map<string, Json> {
    if ps == [] then map[]
    else
      var before, p := OutputMap(ps[..|ps| - 1]), ps[|ps| - 1];
      if p.StepCompleted? && p.step != "" && p.output.Some? then before[p.step := p.output.value] else before
  }

  function FatalOf(ps: seq<Payload>, step: string): Option<string> { Last(ps, FatalView(step)) }

  function ChoiceOf(ps: seq<Payload>, branch: string): Option<string> { Last(ps, ChoiceView(branch)) }

  function InputOf(ps: seq<Payload>): Option<Json> { Last(ps, InputView()) }

  predicate IsCompleted(ps: seq<Payload>) { Last(ps, CompletedView()).Some? }

  predicate IsCancelled(ps: seq<Payload>) { Last(ps, CancelledView()).Some? }

  datatype SignalState = SignalState(waiting: bool, received: bool, timeout: bool, message: Json, timeoutAt: int)

  const BLANK := SignalState(false, false, false, "", 0)

  /** The state of a signal: one bit per kind of event seen, the last message, the last deadline. */
  function SignalOf(ps: seq<Payload>, signal: string): Option<SignalState> {
    var w, r, t := Last(ps, WaitingView(signal)), Last(ps, ReceivedView(signal)), Last(ps, TimeoutView(signal));
    if w.None? && r.None? && t.None? then None
    else Some(SignalState(w.Some?, r.Some?, t.Some?,
                          if r.Some? then r.value else BLANK.message,
                          if w.Some? then w.value else BLANK.timeoutAt))
  }

  function LastSequence(log: seq<Event>): (last: int)
    ensures last >= 0
  {
    if log == [] then 0
    else
      var before := LastSequence(log[..|log| - 1]);
      if log[|log| - 1].sequence > before then log[|log| - 1].sequence else before
  }

  /** On a log that a store produced, the last sequence number is the number of events. */
  lemma {:induction false} LastSequenceIsLength(log: seq<Event>)
    requires forall i :: 0 <= i < |log| ==> log[i].sequence == i + 1
    ensures LastSequence(log) == |log|
  {
    if log != [] {
      LastSequenceIsLength(log[..|log| - 1]);
    }
  }

  /** One more payload changes the state of just its own signal. */
  lemma SignalPush(ps: seq<Payload>, p: Payload, signal: string)
    ensures SignalOf(ps + [p], signal) ==
            var was := if SignalOf(ps, signal).Some? then SignalOf(ps, signal).value else BLANK;
            if p.SignalWaiting? && p.signal == signal then Some(was.(waiting := true, timeoutAt := p.timeoutAt))
            else if p.SignalReceived? && p.signal == signal then Some(was.(received := true, message := p.message))
            else if p.SignalTimeout? && p.signal == signal then Some(was.(timeout := true))
            else SignalOf(ps, signal)
  {
    LastPush(ps, p, WaitingView(signal));
    LastPush(ps, p, ReceivedView(signal));
    LastPush(ps, p, TimeoutView(signal));
  }
}

/** The indexed history of a run. */
module Histories {
  import opened Events
  import opened Scans
  import opened Queries

  /** A map holds for a key the last value the scan for that key finds. */
  predicate Agrees<K(==), V(==)>(m: map<K, V>, ps: seq<Payload>, view: K -> Payload -> Option<V>, k: K) {
    Last(ps, view(k)) == if k in m then Some(m[k]) else None
  }

  ghost predicate Mirrors<K(!new), V>(m: map<K, V>, ps: seq<Payload>, view: K -> Payload -> Option<V>) {
    forall k :: Agrees(m, ps, view, k)
  }

  lemma MirrorsSame<K(!new), V>(m: map<K, V>, ps: seq<Payload>, p: Payload, view: K -> Payload -> Option<V>)
    requires Mirrors(m, ps, view) && forall k :: view(k)(p).None?
    ensures Mirrors(m, ps + [p], view)
  {
    forall k ensures Agrees(m, ps + [p], view, k) {
      assert Agrees(m, ps, view, k);
      LastPush(ps, p, view(k));
    }
  }

  lemma MirrorsSet<K(!new), V>(m: map<K, V>, ps: seq<Payload>, p: Payload, view: K -> Payload -> Option<V>, key: K,
      v: V)
    requires Mirrors(m, ps, view) && forall k :: view(k)(p) == if k == key then Some(v) else None
    ensures Mirrors(m[key := v], ps + [p], view)
  {
    var n, qs := m[key := v], ps + [p];
    forall k ensures Agrees(n, qs, view, k) {
      assert Agrees(m, ps, view, k);
      LastPush(ps, p, view(k));
    }
  }

  /** The log determines the index: however it was built up, the maps come out the same. */
  lemma MirrorsUnique<K(!new), V>(m: map<K, V>, n: map<K, V>, ps: seq<Payload>, view: K -> Payload -> Option<V>)
    requires Mirrors(m, ps, view) && Mirrors(n, ps, view)
    ensures m == n
  {
    forall k ensures k in m <==> k in n {
      assert Agrees(m, ps, view, k) && Agrees(n, ps, view, k);
    }
    forall k | k in m ensures m[k] == n[k] {
      assert Agrees(m, ps, view, k) && Agrees(n, ps, view, k);
    }
  }

  lemma {:induction false} OutputMapMirrors(ps: seq<Payload>)
    ensures Mirrors(OutputMap(ps), ps, OutputView)
  {
    if ps == [] {
      assert forall k :: Agrees(OutputMap(ps), ps, OutputView, k);
    } else {
      var init, p := ps[..|ps| - 1], ps[|ps| - 1];
      OutputMapMirrors(init);
      assert ps == init + [p];
      if p.StepCompleted? && p.step != "" && p.output.Some? {
        MirrorsSet(OutputMap(init), init, p, OutputView, p.step, p.output.value);
      } else {
        MirrorsSame(OutputMap(init), init, p, OutputView);
      }
    }
  }

  predicate SignalAgrees(m: map<string, SignalState>, ps: seq<Payload>, signal: string) {
    SignalOf(ps, signal) == if signal in m then Some(m[signal]) else None
  }

  class History {
    const runID: string
    var events: seq<Event>
    var workflowInput: Option<Json>
    var outputs: map<string, Json>
    var fatalErrors: map<string, string>
    var branches: map<string, string>
    var signals: map<string, SignalState>
    var cancelled: bool
    var completed: bool
    var lastSequence: int
    var mapResults: map<int, seq<Option<Json>>>
    var mapErrors: map<int, (int, string)>
    var childOutputs: map<string, Option<Json>>
    var childErrors: map<string, string>

    ghost predicate StepsIndexed(ps: seq<Payload>)
      reads this`outputs, this`fatalErrors
    {
      Mirrors(outputs, ps, OutputView) && Mirrors(fatalErrors, ps, FatalView)
    }

    ghost predicate BranchesIndexed(ps: seq<Payload>)
      reads this`branches
    {
      Mirrors(branches, ps, ChoiceView)
    }

    ghost predicate SignalsIndexed(ps: seq<Payload>)
      reads this`signals
    {
      forall s :: SignalAgrees(signals, ps, s)
    }

    ghost predicate ChildrenIndexed(ps: seq<Payload>)
      reads this`mapResults, this`mapErrors, this`childOutputs, this`childErrors
    {
      && Mirrors(mapResults, ps, MapResultsView) && Mirrors(mapErrors, ps, MapErrorView)
      && Mirrors(childOutputs, ps, ChildOutputView) && Mirrors(childErrors, ps, ChildErrorView)
    }

    ghost predicate FlagsIndexed(ps: seq<Payload>)
      reads this`workflowInput, this`completed, this`cancelled
    {
      && workflowInput == InputOf(ps) && completed == IsCompleted(ps) && cancelled == IsCancelled(ps)
    }

    /** Every index agrees with a scan of the log; branch choices may run ahead of it. */
    ghost predicate Valid(recorded: seq<Payload>)
      reads this
    {
      var ps := Payloads(events);
      && StepsIndexed(ps) && SignalsIndexed(ps) && ChildrenIndexed(ps) && FlagsIndexed(ps)
      && lastSequence == LastSequence(events)
      && BranchesIndexed(ps + recorded)
    }

    constructor (runID: string, events: seq<Event>)
      ensures this.runID == runID && this.events == events
      ensures Valid([])
    {
      this.runID := runID;
      this.events := events;
      workflowInput := None;
      outputs, fatalErrors, branches, signals := map[], map[], map[], map[];
      cancelled, completed, lastSequence := false, false, 0;
      mapResults, mapErrors, childOutputs, childErrors := map[], map[], map[], map[];
      new;
      hide Indexed;
      NothingIndexed();
      for i := 0 to |events|
        invariant this.events == events
        invariant lastSequence == LastSequence(events[..i])
        invariant Indexed(Payloads(events[..i]))
      {
        var e := events[i];
        assert events[..i + 1] == events[..i] + [e];
        assert (events[..i + 1])[..i] == events[..i];
        PayloadsAppend(events[..i], [e]);
        assert Payloads(events[..i + 1]) == Payloads(events[..i]) + [e.payload];
        if e.sequence > lastSequence {
          lastSequence := e.sequence;
        }
        IndexStep(Payloads(events[..i]), e.payload);
      }
      assert events[..|events|] == events;
      assert Payloads(events) + [] == Payloads(events);
      IndexedIsValid();
    }

    lemma NothingIndexed()
      requires outputs == map[] && fatalErrors == map[] && branches == map[] && signals == map[]
      requires mapResults == map[] && mapErrors == map[] && childOutputs == map[] && childErrors == map[]
      requires workflowInput.None? && !completed && !cancelled
      ensures Indexed([])
    {
      forall s ensures SignalAgrees(signals, [], s) {
      }
    }

    lemma IndexedIsValid()
      requires Indexed(Payloads(events)) && lastSequence == LastSequence(events)
      ensures Valid([])
    {
      hide StepsIndexed, BranchesIndexed, SignalsIndexed, ChildrenIndexed, FlagsIndexed;
      assert Payloads(events) + [] == Payloads(events);
    }

    ghost predicate Indexed(ps: seq<Payload>)
      reads this`outputs, this`fatalErrors, this`branches, this`signals, this`mapResults, this`mapErrors,
            this`childOutputs, this`childErrors, this`workflowInput, this`completed, this`cancelled
    {
      StepsIndexed(ps) && BranchesIndexed(ps) && SignalsIndexed(ps) && ChildrenIndexed(ps) && FlagsIndexed(ps)
    }

    /** One turn of the index loop: the payload type selects the index to update. */
    method IndexStep(ghost ps: seq<Payload>, p: Payload)
      requires Indexed(ps)
      modifies this
      ensures events == old(events) && lastSequence == old(lastSequence)
      ensures Indexed(ps + [p])
    {
      hide StepsIndexed, BranchesIndexed, SignalsIndexed, ChildrenIndexed, FlagsIndexed;
      IndexSteps(ps, p);
      IndexBranches(ps, p);
      IndexSignals(ps, p);
      IndexChildren(ps, p);
      IndexFlags(ps, p);
    }

    method IndexFlags(ghost ps: seq<Payload>, p: Payload)
      requires FlagsIndexed(ps)
      modifies this`workflowInput, this`completed, this`cancelled
      ensures FlagsIndexed(ps + [p])
    {
      LastPush(ps, p, InputView());
      LastPush(ps, p, CompletedView());
      LastPush(ps, p, CancelledView());
      match p {
        case WorkflowStarted(_, _, input) => workflowInput := Some(input);
        case WorkflowCompleted(_) => completed := true;
        case WorkflowCancelled(_) => cancelled := true;
        case _ =>
      }
    }

    method IndexBranches(ghost ps: seq<Payload>, p: Payload)
      requires BranchesIndexed(ps)
      modifies this`branches
      ensures BranchesIndexed(ps + [p])
    {
      if p.BranchEvaluated? {
        MirrorsSet(branches, ps, p, ChoiceView, p.branch, p.choice);
        branches := branches[p.branch := p.choice];
      } else {
        MirrorsSame(branches, ps, p, ChoiceView);
      }
    }

    method IndexSteps(ghost ps: seq<Payload>, p: Payload)
      requires StepsIndexed(ps)
      modifies this`outputs, this`fatalErrors
      ensures StepsIndexed(ps + [p])
    {
      if p.StepCompleted? && p.step != "" && p.output.Some? {
        MirrorsSet(outputs, ps, p, OutputView, p.step, p.output.value);
        outputs := outputs[p.step := p.output.value];
      } else {
        MirrorsSame(outputs, ps, p, OutputView);
      }
      if p.StepFailed? && p.step != "" && !p.willRetry {
        MirrorsSet(fatalErrors, ps, p, FatalView, p.step, p.error);
        fatalErrors := fatalErrors[p.step := p.error];
      } else {
        MirrorsSame(fatalErrors, ps, p, FatalView);
      }
    }

    method IndexSignals(ghost ps: seq<Payload>, p: Payload)
      requires SignalsIndexed(ps)
      modifies this`signals
      ensures SignalsIndexed(ps + [p])
    {
      ghost var before := signals;
      match p {
        case SignalWaiting(signal, timeoutAt) =>
          assert SignalAgrees(signals, ps, signal);
          var state := GetOrCreateSignalState(signal);
          signals := signals[signal := state.(waiting := true, timeoutAt := timeoutAt)];
        case SignalReceived(signal, message) =>
          assert SignalAgrees(signals, ps, signal);
          var state := GetOrCreateSignalState(signal);
          signals := signals[signal := state.(received := true, message := message)];
        case SignalTimeout(signal) =>
          assert SignalAgrees(signals, ps, signal);
          var state := GetOrCreateSignalState(signal);
          signals := signals[signal := state.(timeout := true)];
        case _ =>
      }
      forall s ensures SignalAgrees(signals, ps + [p], s) {
        SignalPush(ps, p, s);
        assert SignalAgrees(before, ps, s);
      }
    }

    /** The state of a signal, blank when the signal is new. */
    function GetOrCreateSignalState(signal: string): SignalState
      reads this
    {
      if signal in signals then signals[signal] else BLANK
    }

    method IndexChildren(ghost ps: seq<Payload>, p: Payload)
      requires ChildrenIndexed(ps)
      modifies this`mapResults, this`mapErrors, this`childOutputs, this`childErrors
      ensures ChildrenIndexed(ps + [p])
    {
      if p.MapCompleted? {
        MirrorsSet(mapResults, ps, p, MapResultsView, p.mapIndex, p.results);
        mapResults := mapResults[p.mapIndex := p.results];
      } else {
        MirrorsSame(mapResults, ps, p, MapResultsView);
      }
      if p.MapFailed? {
        MirrorsSet(mapErrors, ps, p, MapErrorView, p.mapIndex, (p.failedIndex, p.error));
        mapErrors := mapErrors[p.mapIndex := (p.failedIndex, p.error)];
      } else {
        MirrorsSame(mapErrors, ps, p, MapErrorView);
      }
      if p.ChildCompleted? {
        MirrorsSet(childOutputs, ps, p, ChildOutputView, p.child, p.childOutput);
        childOutputs := childOutputs[p.child := p.childOutput];
      } else {
        MirrorsSame(childOutputs, ps, p, ChildOutputView);
      }
      if p.ChildFailed? {
        MirrorsSet(childErrors, ps, p, ChildErrorView, p.child, p.error);
        childErrors := childErrors[p.child := p.error];
      } else {
        MirrorsSame(childErrors, ps, p, ChildErrorView);
      }
    }

    /** Recording a choice keeps the branch index equal to that of the log plus the new events. */
    method RecordBranchChoice(branch: string, choice: string, ghost recorded: seq<Payload>)
      requires Valid(recorded)
      modifies this`branches
      ensures Valid(recorded + [BranchEvaluated(branch, choice)])
    {
      ghost var ps := Payloads(events);
      ghost var p := BranchEvaluated(branch, choice);
      MirrorsSet(branches, ps + recorded, p, ChoiceView, branch, choice);
      assert ps + recorded + [p] == ps + (recorded + [p]);
      branches := branches[branch := choice];
    }

    /** Events other than branch evaluations leave the branch index as it is. */
    lemma OtherEventRecorded(recorded: seq<Payload>, p: Payload)
      requires Valid(recorded) && !p.BranchEvaluated?
      ensures Valid(recorded + [p])
    {
      MirrorsSame(branches, Payloads(events) + recorded, p, ChoiceView);
      assert Payloads(events) + recorded + [p] == Payloads(events) + (recorded + [p]);
    }

    /** The output index is the map of all recorded outputs. */
    lemma OutputsAreMap()
      requires StepsIndexed(Payloads(events))
      ensures outputs == OutputMap(Payloads(events))
    {
      OutputMapMirrors(Payloads(events));
      MirrorsUnique(outputs, OutputMap(Payloads(events)), Payloads(events), OutputView);
    }

    function GetOutput(step: string): (output: Option<Json>)
      requires StepsIndexed(Payloads(events))
      reads this
      ensures output == OutputOf(Payloads(events), step)
    {
      assert Agrees(outputs, Payloads(events), OutputView, step);
      if step in outputs then Some(outputs[step]) else None
    }

    function GetFatalError(step: string): (error: Option<string>)
      requires StepsIndexed(Payloads(events))
      reads this
      ensures error == FatalOf(Payloads(events), step)
    {
      assert Agrees(fatalErrors, Payloads(events), FatalView, step);
      if step in fatalErrors then Some(fatalErrors[step]) else None
    }

    function GetSignalState(signal: string): (state: Option<SignalState>)
      requires SignalsIndexed(Payloads(events))
      reads this
      ensures state == SignalOf(Payloads(events), signal)
    {
      assert SignalAgrees(signals, Payloads(events), signal);
      if signal in signals then Some(signals[signal]) else None
    }

    function GetBranchChoice(branch: string, ghost recorded: seq<Payload>): (choice: Option<string>)
      requires BranchesIndexed(Payloads(events) + recorded)
      reads this
      ensures choice == ChoiceOf(Payloads(events) + recorded, branch)
    {
      assert Agrees(branches, Payloads(events) + recorded, ChoiceView, branch);
      if branch in branches then Some(branches[branch]) else None
    }
  }
}
