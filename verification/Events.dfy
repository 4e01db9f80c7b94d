/**
  The event vocabulary: one constructor of `Payload` per event type, carrying the fields of
  that type's data record, plus the step name and output of the event envelope.
  JSON documents are texts; marshalling is taken to be total.
*/
module Events {

  datatype Option<+T> = None | Some(value: T)

  type Json = string

  datatype Payload =
    | WorkflowStarted(workflow: string, version: string, input: Json)
    | WorkflowCompleted(result: Option<Json>)
    | WorkflowFailed(reason: string)
    | WorkflowCancelled(reason: string)
    | StepStarted(step: string, attempt: int, branch: string, caseValue: string)
    | StepCompleted(step: string, output: Option<Json>, branch: string, caseValue: string)
    | StepFailed(step: string, error: string, attempt: int, willRetry: bool, branch: string, caseValue: string)
    | BranchEvaluated(branch: string, choice: string)
    | SignalWaiting(signal: string, timeoutAt: int)
    | SignalReceived(signal: string, message: Json)
    | SignalTimeout(signal: string)
    | ChildSpawned(child: string, workflow: string, input: Json)
    | ChildCompleted(child: string, childOutput: Option<Json>)
    | ChildFailed(child: string, error: string)
    | MapStarted(mapIndex: int, itemCount: int)
    | MapCompleted(mapIndex: int, results: seq<Option<Json>>)
    | MapFailed(mapIndex: int, failedIndex: int, error: string)
    | Other(kind: string)

  datatype Event = Event(id: string, runID: string, sequence: int, payload: Payload)

  function Payloads(log: seq<Event>): (ps: seq<Payload>)
    ensures |ps| == |log|
    ensures forall i :: 0 <= i < |log| ==> ps[i] == log[i].payload
  {
    seq(|log|, i requires 0 <= i < |log| => log[i].payload)
  }

  lemma PayloadsAppend(a: seq<Event>, b: seq<Event>)
    ensures Payloads(a + b) == Payloads(a) + Payloads(b)
  {}

  /** The three event types that record the progress of a step. */
  predicate IsStepEvent(p: Payload) {
    p.StepStarted? || p.StepCompleted? || p.StepFailed?
  }

  /** The event types of child workflows and of map calls. */
  predicate IsChildEvent(p: Payload) {
    p.ChildSpawned? || p.ChildCompleted? || p.ChildFailed? || p.MapStarted? || p.MapCompleted? || p.MapFailed?
  }
}

/** Looking for payloads in a log: the last match, and all matches. */
module Scans {
  import opened Events

  /** The view of the last payload that has one. */
  function Last<T>(ps: seq<Payload>, view: Payload -> Option<T>): Option<T> {
    if ps == [] then None
    else if view(ps[|ps| - 1]).Some? then view(ps[|ps| - 1])
    else Last(ps[..|ps| - 1], view)
  }

  lemma LastPush<T>(ps: seq<Payload>, p: Payload, view: Payload -> Option<T>)
    ensures Last(ps + [p], view) == if view(p).Some? then view(p) else Last(ps, view)
  {
    assert (ps + [p])[..|ps|] == ps;
  }

  lemma {:induction false} LastAppend<T>(a: seq<Payload>, b: seq<Payload>, view: Payload -> Option<T>)
    ensures Last(a + b, view) == if Last(b, view).Some? then Last(b, view) else Last(a, view)
  {
    if b == [] {
      assert a + b == a;
    } else {
      var n := |b| - 1;
      assert (a + b)[..|a + b| - 1] == a + b[..n];
      LastAppend(a, b[..n], view);
    }
  }

  lemma {:induction false} LastNone<T>(ps: seq<Payload>, view: Payload -> Option<T>)
    ensures Last(ps, view).None? <==> forall p :: p in ps ==> view(p).None?
  {
    if ps != [] {
      var n := |ps| - 1;
      LastNone(ps[..n], view);
      assert ps == ps[..n] + [ps[n]];
    }
  }

  /** `Last` finds a matching position after which nothing matches. */
  lemma {:induction false} LastAt<T>(ps: seq<Payload>, view: Payload -> Option<T>) returns (i: nat)
    requires Last(ps, view).Some?
    ensures i < |ps| && Last(ps, view) == view(ps[i])
    ensures forall j :: i < j < |ps| ==> view(ps[j]).None?
  {
    var n := |ps| - 1;
    if view(ps[n]).Some? {
      i := n;
    } else {
      i := LastAt(ps[..n], view);
    }
  }

  /** All payloads that satisfy `keep`, in order. */
  function Filter(keep: Payload -> bool, ps: seq<Payload>): seq<Payload> {
    if ps == [] then []
    else Filter(keep, ps[..|ps| - 1]) + if keep(ps[|ps| - 1]) then [ps[|ps| - 1]] else []
  }

  function Count(keep: Payload -> bool, ps: seq<Payload>): nat {
    |Filter(keep, ps)|
  }

  lemma FilterPush(keep: Payload -> bool, ps: seq<Payload>, p: Payload)
    ensures Filter(keep, ps + [p]) == Filter(keep, ps) + if keep(p) then [p] else []
  {
    assert (ps + [p])[..|ps|] == ps;
  }

  lemma {:induction false} FilterAppend(keep: Payload -> bool, a: seq<Payload>, b: seq<Payload>)
    ensures Filter(keep, a + b) == Filter(keep, a) + Filter(keep, b)
  {
    if b == [] {
      assert a + b == a;
    } else {
      var n := |b| - 1;
      assert (a + b)[..|a + b| - 1] == a + b[..n];
      FilterAppend(keep, a, b[..n]);
    }
  }

  lemma {:induction false} FilterNone(keep: Payload -> bool, ps: seq<Payload>)
    ensures Filter(keep, ps) == [] <==> forall p :: p in ps ==> !keep(p)
  {
    if ps != [] {
      var n := |ps| - 1;
      FilterNone(keep, ps[..n]);
      assert ps == ps[..n] + [ps[n]];
    }
  }

  lemma {:induction false} FilterAll(keep: Payload -> bool, ps: seq<Payload>)
    requires forall p :: p in ps ==> keep(p)
    ensures Filter(keep, ps) == ps
  {
    if ps != [] {
      var n := |ps| - 1;
      FilterAll(keep, ps[..n]);
      assert ps == ps[..n] + [ps[n]];
    }
  }

  lemma {:induction false} FilterMember(keep: Payload -> bool, ps: seq<Payload>, p: Payload)
    ensures p in Filter(keep, ps) <==> p in ps && keep(p)
  {
    if ps != [] {
      var n := |ps| - 1;
      FilterMember(keep, ps[..n], p);
      assert ps == ps[..n] + [ps[n]];
    }
  }

  /** Filtering by a finer criterion may go through a coarser one first. */
  lemma {:induction false} FilterThrough(fine: Payload -> bool, coarse: Payload -> bool, ps: seq<Payload>)
    requires forall p :: p in ps && fine(p) ==> coarse(p)
    ensures Filter(fine, ps) == Filter(fine, Filter(coarse, ps))
  {
    if ps != [] {
      var n := |ps| - 1;
      FilterThrough(fine, coarse, ps[..n]);
      assert ps == ps[..n] + [ps[n]];
      if coarse(ps[n]) {
        FilterPush(fine, Filter(coarse, ps[..n]), ps[n]);
      } else {
        assert Filter(coarse, ps) == Filter(coarse, ps[..n]);
        assert ps[n] in ps;
      }
    }
  }
}
