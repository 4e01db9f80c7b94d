/** The contents of an event store as a value, and what appending means. */
module EventLogs {
  import opened Events

  datatype Logs = Logs(events: map<string, seq<Event>>, ids: set<string>) {
    function Of(run: string): seq<Event> {
      if run in events then events[run] else []
    }
  }

  datatype AppendResult = Appended | DuplicateEvent | SequenceConflict(runID: string, expected: int, actual: int)

  /** Appending one event: the ID is checked before the sequence number. */
  function AppendOne(s: Logs, e: Event): (AppendResult, Logs) {
    if e.id in s.ids then
      (DuplicateEvent, s)
    else if e.sequence != |s.Of(e.runID)| + 1 then
      (SequenceConflict(e.runID, |s.Of(e.runID)| + 1, e.sequence), s)
    else
      (Appended, Logs(s.events[e.runID := s.Of(e.runID) + [e]], s.ids + {e.id}))
  }

  /** Appending events in turn, stopping at the first error. */
  function AppendInTurn(s: Logs, es: seq<Event>): (AppendResult, Logs) {
    if es == [] then (Appended, s)
    else
      var (r, t) := AppendInTurn(s, es[..|es| - 1]);
      if r.Appended? then AppendOne(t, es[|es| - 1]) else (r, t)
  }

  /** Appending in turn, rolled back on error. */
  function AppendAll(s: Logs, es: seq<Event>): (AppendResult, Logs) {
    var (r, t) := AppendInTurn(s, es);
    (r, if r.Appended? then t else s)
  }

  lemma InTurnPush(s: Logs, es: seq<Event>, e: Event)
    ensures AppendInTurn(s, es + [e]) ==
            if AppendInTurn(s, es).0.Appended? then AppendOne(AppendInTurn(s, es).1, e) else AppendInTurn(s, es)
  {
    assert (es + [e])[..|es|] == es;
  }

  /** The first error decides, whatever follows it. */
  lemma {:induction false} InTurnError(s: Logs, es: seq<Event>, k: nat)
    requires k <= |es| && !AppendInTurn(s, es[..k]).0.Appended?
    ensures AppendInTurn(s, es) == AppendInTurn(s, es[..k])
    decreases |es| - k
  {
    if k == |es| {
      assert es[..k] == es;
    } else {
      assert es[..k + 1] == es[..k] + [es[k]];
      InTurnPush(s, es[..k], es[k]);
      InTurnError(s, es, k + 1);
    }
  }

  /** The events of a batch that belong to one run, in batch order. */
  function OfRun(es: seq<Event>, run: string): seq<Event> {
    if es == [] then []
    else OfRun(es[..|es| - 1], run) + if es[|es| - 1].runID == run then [es[|es| - 1]] else []
  }

  lemma OfRunPush(es: seq<Event>, e: Event, run: string)
    ensures OfRun(es + [e], run) == OfRun(es, run) + if e.runID == run then [e] else []
  {
    assert (es + [e])[..|es|] == es;
  }

  function Ids(es: seq<Event>): set<string> {
    set i | 0 <= i < |es| :: es[i].id
  }

  ghost predicate FreshIds(s: Logs, es: seq<Event>) {
    && (forall i :: 0 <= i < |es| ==> es[i].id !in s.ids)
    && (forall i, j :: 0 <= i < j < |es| ==> es[i].id != es[j].id)
  }

  /** The sequence number due at position `i`: the run's log, then its earlier events in the batch. */
  function Due(s: Logs, es: seq<Event>, i: nat): int
    requires i < |es|
  {
    |s.Of(es[i].runID)| + |OfRun(es[..i], es[i].runID)| + 1
  }

  ghost predicate InOrder(s: Logs, es: seq<Event>) {
    forall i :: 0 <= i < |es| ==> es[i].sequence == Due(s, es, i)
  }

  /** What a batch must satisfy, said without running any loop. */
  ghost predicate Acceptable(s: Logs, es: seq<Event>) {
    FreshIds(s, es) && InOrder(s, es)
  }

  lemma FreshPush(s: Logs, es: seq<Event>, e: Event)
    ensures FreshIds(s, es + [e]) <==> FreshIds(s, es) && e.id !in s.ids && e.id !in Ids(es)
  {
    var all := es + [e];
    assert all[|es|] == e;
    assert forall i :: 0 <= i < |es| ==> all[i] == es[i];
  }

  lemma InOrderPush(s: Logs, es: seq<Event>, e: Event)
    ensures InOrder(s, es + [e]) <==>
            InOrder(s, es) && e.sequence == |s.Of(e.runID)| + |OfRun(es, e.runID)| + 1
  {
    var all := es + [e];
    assert all[..|es|] == es;
    assert Due(s, all, |es|) == |s.Of(e.runID)| + |OfRun(es, e.runID)| + 1;
    forall i | 0 <= i < |es| ensures Due(s, all, i) == Due(s, es, i) && all[i] == es[i] {
      assert all[..i] == es[..i];
    }
  }

  lemma IdsPush(es: seq<Event>, e: Event)
    ensures Ids(es + [e]) == Ids(es) + {e.id}
  {
    var all := es + [e];
    assert all[|es|] == e;
    forall id | id in Ids(es) ensures id in Ids(all) {
      var i :| 0 <= i < |es| && es[i].id == id;
      assert all[i].id == id;
    }
  }

  /** An accepted batch extends each run's log by the run's own events, and the ID set by its IDs. */
  lemma {:induction false} AppendedGrows(s: Logs, es: seq<Event>, run: string)
    requires AppendInTurn(s, es).0.Appended?
    ensures AppendInTurn(s, es).1.Of(run) == s.Of(run) + OfRun(es, run)
    ensures AppendInTurn(s, es).1.ids == s.ids + Ids(es)
  {
    if es != [] {
      var n := |es| - 1;
      AppendedGrows(s, es[..n], run);
      assert es == es[..n] + [es[n]];
      IdsPush(es[..n], es[n]);
    }
  }

  /** Exactly the acceptable batches are appended. */
  lemma {:induction false} AppendedIffAcceptable(s: Logs, es: seq<Event>)
    ensures AppendInTurn(s, es).0.Appended? <==> Acceptable(s, es)
  {
    if es != [] {
      var init, e := es[..|es| - 1], es[|es| - 1];
      assert es == init + [e];
      AppendedIffAcceptable(s, init);
      FreshPush(s, init, e);
      InOrderPush(s, init, e);
      if Acceptable(s, init) {
        AppendedGrows(s, init, e.runID);
      }
    }
  }

  /** Per-run sequences count up from 1. */
  ghost predicate Gapless(s: Logs) {
    forall run, i :: 0 <= i < |s.Of(run)| ==> s.Of(run)[i].runID == run && s.Of(run)[i].sequence == i + 1
  }

  ghost predicate Holds(s: Logs, id: string, run: string, i: int) {
    0 <= i < |s.Of(run)| && s.Of(run)[i].id == id
  }

  /** `ids` holds just the IDs of the stored events, and no two stored events share one. */
  ghost predicate UniqueIds(s: Logs) {
    && (forall id, run, i :: Holds(s, id, run, i) ==> id in s.ids)
    && (forall id, run, i, run', i' :: Holds(s, id, run, i) && Holds(s, id, run', i') ==> run == run' && i == i')
    && (forall id :: id in s.ids ==> exists run, i :: Holds(s, id, run, i))
  }

  ghost predicate Sound(s: Logs) {
    Gapless(s) && UniqueIds(s)
  }

  lemma OneKeepsGapless(s: Logs, e: Event)
    requires Gapless(s)
    ensures Gapless(AppendOne(s, e).1)
  {
    var t := AppendOne(s, e).1;
    forall run, i | 0 <= i < |t.Of(run)|
      ensures t.Of(run)[i].runID == run && t.Of(run)[i].sequence == i + 1
    {
      if i < |s.Of(run)| {
        assert t.Of(run)[i] == s.Of(run)[i];
      }
    }
  }

  lemma OneKeepsUnique(s: Logs, e: Event)
    requires UniqueIds(s)
    ensures UniqueIds(AppendOne(s, e).1)
  {
    var t := AppendOne(s, e).1;
    if AppendOne(s, e).0.Appended? {
      var n := |s.Of(e.runID)|;
      assert Holds(t, e.id, e.runID, n);
      forall id, run, i
        ensures Holds(t, id, run, i) <==> Holds(s, id, run, i) || (id == e.id && run == e.runID && i == n)
      {
        assert t.Of(run) == if run == e.runID then s.Of(run) + [e] else s.Of(run);
      }
      forall id | id in t.ids ensures exists run, i :: Holds(t, id, run, i) {
        if id in s.ids {
          var run, i :| Holds(s, id, run, i);
          assert Holds(t, id, run, i);
        }
      }
    }
  }

  lemma OneKeepsSound(s: Logs, e: Event)
    requires Sound(s)
    ensures Sound(AppendOne(s, e).1)
  {
    OneKeepsGapless(s, e);
    OneKeepsUnique(s, e);
  }

  lemma {:induction false} InTurnKeepsSound(s: Logs, es: seq<Event>)
    requires Sound(s)
    ensures Sound(AppendInTurn(s, es).1)
  {
    if es != [] {
      InTurnKeepsSound(s, es[..|es| - 1]);
      OneKeepsSound(AppendInTurn(s, es[..|es| - 1]).1, es[|es| - 1]);
    }
  }

  /** Every sequence of batches leaves a sound store: gapless logs, unique IDs. */
  lemma BatchKeepsSound(s: Logs, es: seq<Event>)
    requires Sound(s)
    ensures Sound(AppendAll(s, es).1)
  {
    InTurnKeepsSound(s, es);
  }

  /** A batch of one run, numbered consecutively after `last`. */
  ghost predicate Numbered(es: seq<Event>, run: string, last: int) {
    forall i :: 0 <= i < |es| ==> es[i].runID == run && es[i].sequence == last + 1 + i
  }

  lemma {:induction false} OfRunSingle(es: seq<Event>, run: string, other: string)
    requires forall i :: 0 <= i < |es| ==> es[i].runID == run
    ensures OfRun(es, other) == if other == run then es else []
  {
    if es != [] {
      OfRunSingle(es[..|es| - 1], run, other);
      assert es == es[..|es| - 1] + [es[|es| - 1]];
    }
  }

  /**
    Optimistic concurrency. A nonempty batch numbered after a snapshot of the run's log is
    accepted only if the log still equals that snapshot; the log then grows by just the batch,
    and no other run's log changes.
  */
  lemma AcceptedMeansUnchanged(s: Logs, es: seq<Event>, run: string, snapshot: seq<Event>)
    requires es != [] && Numbered(es, run, |snapshot|) && snapshot <= s.Of(run)
    requires AppendAll(s, es).0.Appended?
    ensures s.Of(run) == snapshot
    ensures AppendAll(s, es).1.Of(run) == snapshot + es
    ensures forall other :: other != run ==> AppendAll(s, es).1.Of(other) == s.Of(other)
  {
    AppendedIffAcceptable(s, es);
    assert es[0].sequence == Due(s, es, 0) == |s.Of(run)| + 1;
    forall other
      ensures AppendAll(s, es).1.Of(other) == s.Of(other) + if other == run then es else []
    {
      AppendedGrows(s, es, other);
      OfRunSingle(es, run, other);
    }
  }

  /** Conversely, an unchanged log and fresh IDs are all that a numbered batch needs. */
  lemma UnchangedIsAccepted(s: Logs, es: seq<Event>, run: string)
    requires Numbered(es, run, |s.Of(run)|)
    requires forall i :: 0 <= i < |es| ==> es[i].id !in s.ids
    requires forall i, j :: 0 <= i < j < |es| ==> es[i].id != es[j].id
    ensures AppendAll(s, es).0.Appended?
  {
    forall i | 0 <= i < |es|
      ensures es[i].sequence == Due(s, es, i)
    {
      OfRunSingle(es[..i], run, run);
    }
    AppendedIffAcceptable(s, es);
  }

  /** The events of a log after a sequence number, by filtering. */
  function Since(log: seq<Event>, after: int): seq<Event> {
    if log == [] then []
    else Since(log[..|log| - 1], after) + if log[|log| - 1].sequence > after then [log[|log| - 1]] else []
  }

  /** On a gapless log the filter is a slice, for every bound, negative ones included. */
  lemma {:induction false} SinceIsSlice(log: seq<Event>, after: int)
    requires forall i :: 0 <= i < |log| ==> log[i].sequence == i + 1
    ensures var start := if after > 0 then after else 0;
            Since(log, after) == if start >= |log| then [] else log[start..]
  {
    if log != [] {
      var n := |log| - 1;
      SinceIsSlice(log[..n], after);
      var start := if after > 0 then after else 0;
      if start < n {
        assert log[start..] == log[..n][start..] + [log[n]];
      } else if start == n {
        assert log[start..] == [log[n]];
      }
    }
  }
}

/** The in-memory event store. */
module MemoryStore {
  import opened Events
  import opened EventLogs

  class Store {
    var events: map<string, seq<Event>>
    var ids: set<string>

    function Contents(): Logs
      reads this
    {
      Logs(events, ids)
    }

    constructor ()
      ensures Contents() == Logs(map[], {}) && Sound(Contents())
    {
      events := map[];
      ids := {};
    }

    method Append(e: Event) returns (r: AppendResult)
      modifies this
      ensures (r, Contents()) == AppendOne(old(Contents()), e)
      ensures old(Sound(Contents())) ==> Sound(Contents())
    {
      if Sound(Contents()) {
        OneKeepsSound(Contents(), e);
      }
      if e.id in ids {
        return DuplicateEvent;
      }
      var runEvents := if e.runID in events then events[e.runID] else [];
      var expectedSeq := |runEvents| + 1;
      if e.sequence != expectedSeq {
        return SequenceConflict(e.runID, expectedSeq, e.sequence);
      }
      events := events[e.runID := runEvents + [e]];
      ids := ids + {e.id};
      return Appended;
    }

    /** The running counters agree with having appended the batch `done` to the unchanged store. */
    ghost predicate Counters(done: seq<Event>, newIDs: set<string>, runSequences: map<string, int>)
      reads this
    {
      var (r, t) := AppendInTurn(Contents(), done);
      && r.Appended? && t.ids == ids + newIDs
      && forall run :: |t.Of(run)| == if run in runSequences then runSequences[run] else 0
    }

    /** One validation pass with running counters, then a commit pass. */
    method AppendBatch(batch: seq<Event>) returns (r: AppendResult)
      modifies this
      ensures (r, Contents()) == AppendAll(old(Contents()), batch)
      ensures old(Sound(Contents())) ==> Sound(Contents())
    {
      if Sound(Contents()) {
        BatchKeepsSound(Contents(), batch);
      }
      if |batch| == 0 {
        return Appended;
      }
      r := Validate(batch);
      if r.Appended? {
        Commit(batch);
      }
    }

    method Validate(batch: seq<Event>) returns (r: AppendResult)
      ensures r == AppendInTurn(Contents(), batch).0
    {
      var newIDs: set<string> := {};
      var runSequences: map<string, int> := map run | run in events :: |events[run]|;
      for i := 0 to |batch|
        invariant Counters(batch[..i], newIDs, runSequences)
      {
        var e := batch[i];
        ghost var t := AppendInTurn(Contents(), batch[..i]).1;
        assert batch[..i + 1] == batch[..i] + [e];
        InTurnPush(Contents(), batch[..i], e);
        if e.id in ids || e.id in newIDs {
          InTurnError(Contents(), batch, i + 1);
          return DuplicateEvent;
        }
        newIDs := newIDs + {e.id};
        var expectedSeq := (if e.runID in runSequences then runSequences[e.runID] else 0) + 1;
        assert expectedSeq == |t.Of(e.runID)| + 1;
        if e.sequence != expectedSeq {
          InTurnError(Contents(), batch, i + 1);
          return SequenceConflict(e.runID, expectedSeq, e.sequence);
        }
        runSequences := runSequences[e.runID := e.sequence];
        assert forall run :: AppendOne(t, e).1.Of(run) == if run == e.runID then t.Of(run) + [e] else t.Of(run);
      }
      assert batch[..|batch|] == batch;
      return Appended;
    }

    method Commit(batch: seq<Event>)
      requires AppendInTurn(Contents(), batch).0.Appended?
      modifies this
      ensures Contents() == AppendInTurn(old(Contents()), batch).1
    {
      ghost var s := Contents();
      for i := 0 to |batch|
        invariant AppendInTurn(s, batch[..i]) == (Appended, Contents())
      {
        var e := batch[i];
        assert batch[..i + 1] == batch[..i] + [e];
        InTurnPush(s, batch[..i], e);
        if !AppendInTurn(s, batch[..i + 1]).0.Appended? {
          InTurnError(s, batch, i + 1);
        }
        events := events[e.runID := (if e.runID in events then events[e.runID] else []) + [e]];
        ids := ids + {e.id};
      }
      assert batch[..|batch|] == batch;
    }

    method Load(run: string) returns (log: seq<Event>)
      ensures log == Contents().Of(run)
    {
      log := if run in events then events[run] else [];
    }

    /** The start index is the bound itself, clamped at zero. */
    method LoadSince(run: string, after: int) returns (log: seq<Event>)
      requires Sound(Contents())
      ensures log == Since(Contents().Of(run), after)
    {
      var runEvents := if run in events then events[run] else [];
      assert runEvents == Contents().Of(run);
      SinceIsSlice(runEvents, after);
      var startIdx := if after > 0 then after else 0;
      if startIdx >= |runEvents| {
        return [];
      }
      return runEvents[startIdx..];
    }

    method GetLastSequence(run: string) returns (last: int)
      requires Sound(Contents())
      ensures last >= 0
      ensures forall i :: 0 <= i < |Contents().Of(run)| ==> Contents().Of(run)[i].sequence <= last
      ensures last > 0 ==> exists i :: 0 <= i < |Contents().Of(run)| && Contents().Of(run)[i].sequence == last
    {
      last := if run in events then |events[run]| else 0;
      assert last > 0 ==> Contents().Of(run)[last - 1].sequence == last;
    }
  }
}
