/**
  The PostgreSQL event store over an abstract table with two unique keys, `id` and
  `(run_id, sequence)`. It is proved to accept the batches the in-memory store accepts.
*/
module PgStore {
  import opened Events
  import opened EventLogs

  /** The table holds just the events of the logs. */
  ghost predicate Represents(rows: set<Event>, s: Logs) {
    && (forall run, i :: 0 <= i < |s.Of(run)| ==> s.Of(run)[i] in rows)
    && (forall e :: e in rows ==> 1 <= e.sequence <= |s.Of(e.runID)| && s.Of(e.runID)[e.sequence - 1] == e)
  }

  predicate Consecutive(es: seq<Event>, last: int) {
    forall i :: 0 <= i < |es| ==> es[i].sequence == last + 1 + i
  }

  /** Grouping keeps positions: the k-th event of a run's group sits in the batch after k others of its run. */
  lemma {:induction false} GroupPosition(es: seq<Event>, run: string, k: nat) returns (i: nat)
    requires k < |OfRun(es, run)|
    ensures i < |es| && es[i] == OfRun(es, run)[k] && es[i].runID == run && |OfRun(es[..i], run)| == k
  {
    var n := |es| - 1;
    if k < |OfRun(es[..n], run)| {
      i := GroupPosition(es[..n], run, k);
      assert es[..n][..i] == es[..i];
    } else {
      i := n;
    }
  }

  lemma {:induction false} GroupMember(es: seq<Event>, i: nat)
    requires i < |es|
    ensures var k := |OfRun(es[..i], es[i].runID)|; k < |OfRun(es, es[i].runID)| && OfRun(es, es[i].runID)[k] == es[i]
  {
    var n := |es| - 1;
    if i < n {
      GroupMember(es[..n], i);
      assert es[..n][..i] == es[..i];
    }
  }

  /** The group-by-run check and the running-counter check ask for the same sequence numbers. */
  lemma GroupsInOrder(s: Logs, es: seq<Event>)
    ensures InOrder(s, es) <==> forall run :: Consecutive(OfRun(es, run), |s.Of(run)|)
  {
    if forall run :: Consecutive(OfRun(es, run), |s.Of(run)|) {
      forall i | 0 <= i < |es| ensures es[i].sequence == Due(s, es, i) {
        GroupMember(es, i);
        assert Consecutive(OfRun(es, es[i].runID), |s.Of(es[i].runID)|);
      }
    }
    if InOrder(s, es) {
      forall run, k | 0 <= k < |OfRun(es, run)| ensures OfRun(es, run)[k].sequence == |s.Of(run)| + 1 + k {
        var i := GroupPosition(es, run, k);
        assert es[i].sequence == Due(s, es, i);
      }
    }
  }

  /** Some event of the batch carries `actual` where its run is due `expected`. */
  ghost predicate WrongNumber(s: Logs, es: seq<Event>, run: string, expected: int, actual: int) {
    exists i :: 0 <= i < |es| && es[i].runID == run && es[i].sequence == actual && Due(s, es, i) == expected != actual
  }

  /** The same, seen within the run's group. */
  ghost predicate GroupGap(s: Logs, es: seq<Event>, run: string, expected: int, actual: int) {
    exists k :: 0 <= k < |OfRun(es, run)| && OfRun(es, run)[k].sequence == actual &&
        expected == |s.Of(run)| + 1 + k != actual
  }

  lemma GapIsWrongNumber(s: Logs, es: seq<Event>, run: string, expected: int, actual: int)
    requires GroupGap(s, es, run, expected, actual)
    ensures WrongNumber(s, es, run, expected, actual) && !InOrder(s, es)
  {
    var k :| 0 <= k < |OfRun(es, run)| && OfRun(es, run)[k].sequence == actual &&
        expected == |s.Of(run)| + 1 + k != actual;
    var i := GroupPosition(es, run, k);
    assert Due(s, es, i) == expected;
  }

  /** The first event of a group whose number is not due, if there is one. */
  method FirstGap(runEvents: seq<Event>, lastSeq: int) returns (k: nat)
    ensures k <= |runEvents|
    ensures k == |runEvents| <==> Consecutive(runEvents, lastSeq)
    ensures k < |runEvents| ==> runEvents[k].sequence != lastSeq + 1 + k
  {
    var expectedSeq := lastSeq + 1;
    k := 0;
    while k < |runEvents|
      invariant k <= |runEvents| && expectedSeq == lastSeq + 1 + k
      invariant forall j :: 0 <= j < k ==> runEvents[j].sequence == lastSeq + 1 + j
    {
      if runEvents[k].sequence != expectedSeq {
        return;
      }
      expectedSeq := expectedSeq + 1;
      k := k + 1;
    }
  }

  predicate Clashes(rows: set<Event>, e: Event) {
    exists r :: r in rows && (r.id == e.id || (r.runID == e.runID && r.sequence == e.sequence))
  }

  /** Inserting an event whose sequence number is due violates a key just when its ID is taken. */
  lemma InsertStep(rows: set<Event>, s: Logs, e: Event)
    requires Sound(s) && Represents(rows, s) && e.sequence == |s.Of(e.runID)| + 1
    ensures Clashes(rows, e) <==> e.id in s.ids
    ensures e.id !in s.ids ==> Represents(rows + {e}, AppendOne(s, e).1)
  {
    if e.id in s.ids {
      var run, i :| Holds(s, e.id, run, i);
      assert s.Of(run)[i] in rows;
    } else {
      var t := AppendOne(s, e).1;
      forall r | r in rows ensures r.id != e.id {
        assert Holds(s, r.id, r.runID, r.sequence - 1);
      }
      assert forall run :: t.Of(run) == if run == e.runID then s.Of(run) + [e] else s.Of(run);
      assert t.Of(e.runID)[|s.Of(e.runID)|] == e;
    }
  }

  class Table {
    var rows: set<Event>

    constructor ()
      ensures Represents(rows, Logs(map[], {}))
    {
      rows := {};
    }

    /** COALESCE(MAX(sequence), 0) over the rows of a run. */
    method GetLastSequence(run: string) returns (last: int)
      ensures (forall e :: e in rows ==> e.runID != run) ==> last == 0
      ensures (exists e :: e in rows && e.runID == run) ==>
                && (exists e :: e in rows && e.runID == run && e.sequence == last)
                && (forall e :: e in rows && e.runID == run ==> e.sequence <= last)
    {
      var rest := rows;
      var found := false;
      last := 0;
      while rest != {}
        invariant rest <= rows
        invariant !found ==> last == 0 && forall e :: e in rows - rest ==> e.runID != run
        invariant found ==> exists e :: e in rows && e.runID == run && e.sequence == last
        invariant found ==> forall e :: e in rows - rest && e.runID == run ==> e.sequence <= last
        decreases rest
      {
        var e :| e in rest;
        rest := rest - {e};
        if e.runID == run {
          if !found || e.sequence > last {
            last := e.sequence;
          }
          found := true;
        }
      }
    }

    lemma LastIsLength(s: Logs, run: string, last: int)
      requires Sound(s) && Represents(rows, s)
      requires (forall e :: e in rows ==> e.runID != run) ==> last == 0
      requires (exists e :: e in rows && e.runID == run) ==>
                 && (exists e :: e in rows && e.runID == run && e.sequence == last)
                 && (forall e :: e in rows && e.runID == run ==> e.sequence <= last)
      ensures last == |s.Of(run)|
    {
      var n := |s.Of(run)|;
      if n > 0 {
        assert s.Of(run)[n - 1] in rows && s.Of(run)[n - 1].runID == run && s.Of(run)[n - 1].sequence == n;
      } else {
        assert forall e :: e in rows ==> e.runID != run;
      }
    }

    method GroupByRun(es: seq<Event>) returns (groups: map<string, seq<Event>>)
      ensures forall run :: OfRun(es, run) == if run in groups then groups[run] else []
    {
      groups := map[];
      for i := 0 to |es|
        invariant forall run :: OfRun(es[..i], run) == if run in groups then groups[run] else []
      {
        var e := es[i];
        assert es[..i + 1] == es[..i] + [e];
        forall run ensures OfRun(es[..i + 1], run) == OfRun(es[..i], run) + if run == e.runID then [e] else [] {
          OfRunPush(es[..i], e, run);
        }
        groups := groups[e.runID := (if e.runID in groups then groups[e.runID] else []) + [e]];
      }
      assert es[..|es|] == es;
    }

    /** The runs of the batch are checked in any order; the first wrong number found is reported. */
    method CheckSequences(es: seq<Event>, ghost s: Logs) returns (r: AppendResult)
      requires Sound(s) && Represents(rows, s)
      ensures r.Appended? ==> forall run :: Consecutive(OfRun(es, run), |s.Of(run)|)
      ensures !r.DuplicateEvent?
      ensures r.SequenceConflict? ==> GroupGap(s, es, r.runID, r.expected, r.actual)
    {
      hide Sound, Represents, OfRun;
      var groups := GroupByRun(es);
      var runs := groups.Keys;
      while runs != {}
        invariant runs <= groups.Keys
        invariant forall run :: run !in runs ==> Consecutive(OfRun(es, run), |s.Of(run)|)
        decreases runs
      {
        var run :| run in runs;
        var lastSeq := GetLastSequence(run);
        LastIsLength(s, run, lastSeq);
        var k := FirstGap(groups[run], lastSeq);
        if k < |groups[run]| {
          return SequenceConflict(run, lastSeq + 1 + k, groups[run][k].sequence);
        }
        runs := runs - {run};
      }
      return Appended;
    }

    /** The next insert clashes exactly when appending the next event fails. */
    static lemma InsertNext(rows: set<Event>, s: Logs, es: seq<Event>, k: nat)
      requires Sound(s) && InOrder(s, es) && k < |es| && AppendInTurn(s, es[..k]).0.Appended?
      requires Represents(rows, AppendInTurn(s, es[..k]).1)
      ensures Clashes(rows, es[k]) <==> !AppendInTurn(s, es[..k + 1]).0.Appended?
      ensures !Clashes(rows, es[k]) ==> Represents(rows + {es[k]}, AppendInTurn(s, es[..k + 1]).1)
    {
      hide AppendInTurn, Sound, Represents, Clashes;
      assert es[..k + 1] == es[..k] + [es[k]];
      InTurnPush(s, es[..k], es[k]);
      InTurnKeepsSound(s, es[..k]);
      AppendedGrows(s, es[..k], es[k].runID);
      assert es[k].sequence == Due(s, es, k);
      InsertStep(rows, AppendInTurn(s, es[..k]).1, es[k]);
    }

    /** Plain inserts under the unique keys; on a violation the transaction is rolled back. */
    method InsertAll(es: seq<Event>, ghost s: Logs) returns (ok: bool)
      requires Sound(s) && Represents(rows, s) && InOrder(s, es)
      modifies this
      ensures ok <==> AppendInTurn(s, es).0.Appended?
      ensures ok ==> Represents(rows, AppendInTurn(s, es).1)
      ensures !ok ==> rows == old(rows)
    {
      hide InOrder, Sound, Clashes;
      var before := rows;
      for k := 0 to |es|
        invariant AppendInTurn(s, es[..k]).0.Appended?
        invariant Represents(rows, AppendInTurn(s, es[..k]).1)
      {
        var e := es[k];
        InsertNext(rows, s, es, k);
        if Clashes(rows, e) {
          InTurnError(s, es, k + 1);
          rows := before;
          return false;
        }
        rows := rows + {e};
      }
      assert es[..|es|] == es;
      return true;
    }

    /**
      The same batches are accepted as by the in-memory store, with the same logs after; a refused
      batch leaves the table as it was. A wrong sequence number anywhere in the batch is reported
      before a duplicate ID.
    */
    method AppendBatchInTx(es: seq<Event>, ghost s: Logs) returns (r: AppendResult)
      requires Sound(s) && Represents(rows, s)
      modifies this
      ensures r.Appended? <==> AppendAll(s, es).0.Appended?
      ensures Represents(rows, AppendAll(s, es).1)
      ensures !r.Appended? ==> rows == old(rows)
      ensures r.DuplicateEvent? <==> InOrder(s, es) && !FreshIds(s, es)
      ensures r.SequenceConflict? ==> WrongNumber(s, es, r.runID, r.expected, r.actual)
    {
      AppendedIffAcceptable(s, es);
      r := CheckSequences(es, s);
      GroupsInOrder(s, es);
      if r.SequenceConflict? {
        GapIsWrongNumber(s, es, r.runID, r.expected, r.actual);
      }
      if r.Appended? {
        var ok := InsertAll(es, s);
        r := if ok then Appended else DuplicateEvent;
      }
    }
  }

  ghost predicate Increasing(es: seq<Event>) {
    forall i, j :: 0 <= i < j < |es| ==> es[i].sequence < es[j].sequence
  }

  /** SELECT ... WHERE run_id = run AND sequence > after ORDER BY sequence ASC */
  ghost predicate IsSelection(rows: set<Event>, run: string, after: int, result: seq<Event>) {
    && (forall i, j :: 0 <= i < j < |result| ==> result[i].sequence <= result[j].sequence && result[i] != result[j])
    && (forall e :: e in result <==> e in rows && e.runID == run && e.sequence > after)
  }

  lemma {:induction false} SameElementsSameOrder(a: seq<Event>, b: seq<Event>)
    requires Increasing(a) && Increasing(b)
    requires forall e :: e in a <==> e in b
    ensures a == b
  {
    assert |b| > 0 ==> b[0] in a;
    if a == [] {
    } else {
      assert a[|a| - 1] in b;
      var m, n := |a| - 1, |b| - 1;
      assert b[n] in a;
      assert a[m] == b[n];
      forall e ensures e in a[..m] <==> e in b[..n] {
        if e in a[..m] { assert e in a && e.sequence < a[m].sequence; }
        if e in b[..n] { assert e in b && e.sequence < b[n].sequence; }
      }
      SameElementsSameOrder(a[..m], b[..n]);
      assert a == a[..m] + [a[m]] && b == b[..n] + [b[n]];
    }
  }

  lemma {:induction false} SinceMember(log: seq<Event>, after: int, e: Event)
    ensures e in Since(log, after) <==> e in log && e.sequence > after
  {
    if log != [] {
      SinceMember(log[..|log| - 1], after, e);
      assert log == log[..|log| - 1] + [log[|log| - 1]];
    }
  }

  lemma SelectionIncreases(rows: set<Event>, s: Logs, run: string, after: int, result: seq<Event>)
    requires Represents(rows, s) && IsSelection(rows, run, after, result)
    ensures Increasing(result)
  {
    forall i, j | 0 <= i < j < |result| ensures result[i].sequence < result[j].sequence {
      assert result[i] in result && result[j] in result;
    }
  }

  lemma RowsOfRun(rows: set<Event>, s: Logs, run: string, e: Event)
    requires Sound(s) && Represents(rows, s)
    ensures e in s.Of(run) <==> e in rows && e.runID == run
  {
    if e in s.Of(run) {
      var i :| 0 <= i < |s.Of(run)| && s.Of(run)[i] == e;
    }
  }

  /** For every bound, the query gives what the in-memory store's slice gives. */
  lemma SelectionIsSince(rows: set<Event>, s: Logs, run: string, after: int, result: seq<Event>)
    requires Sound(s) && Represents(rows, s) && IsSelection(rows, run, after, result)
    ensures result == Since(s.Of(run), after)
  {
    SelectionIncreases(rows, s, run, after, result);
    forall e ensures e in result <==> e in Since(s.Of(run), after) {
      SinceMember(s.Of(run), after, e);
      RowsOfRun(rows, s, run, e);
    }
    SinceIncreases(s, run, after);
    SameElementsSameOrder(result, Since(s.Of(run), after));
  }

  lemma SinceIncreases(s: Logs, run: string, after: int)
    requires Gapless(s)
    ensures Increasing(Since(s.Of(run), after))
  {
    SinceIsSlice(s.Of(run), after);
  }
}
