/** Ready steps come in the order of their names, so the order that Define picked does not show. */
module Ordering {
  import opened Events
  import opened Scans
  import opened Queries
  import opened Definitions
  import opened Engine
  import opened Executions
  import opened Replays
  import opened Meaning

  // ----- The order of names -----

  lemma {:induction false} Irreflexive(a: string)
    ensures !Before(a, a)
  {
    if a != "" {
      Irreflexive(a[1..]);
    }
  }

  lemma {:induction false} Transitive(a: string, b: string, c: string)
    requires Before(a, b) && Before(b, c)
    ensures Before(a, c)
  {
    if a != "" && a[0] == b[0] == c[0] {
      Transitive(a[1..], b[1..], c[1..]);
    }
  }

  lemma {:induction false} Comparable(a: string, b: string)
    ensures a == b || Before(a, b) || Before(b, a)
  {
    if a != "" && b != "" && a[0] == b[0] {
      Comparable(a[1..], b[1..]);
      assert a == [a[0]] + a[1..] && b == [b[0]] + b[1..];
    }
  }

  /** `Before` is the order of dictionaries: a proper prefix comes first, else the first difference decides. */
  lemma {:induction false} BeforeIsLexicographic(a: string, b: string)
    ensures Before(a, b) <==> exists k :: DiffersAt(a, b, k)
  {
    if a != "" && b != "" && a[0] == b[0] {
      BeforeIsLexicographic(a[1..], b[1..]);
      if k :| DiffersAt(a[1..], b[1..], k) {
        DiffersLater(a, b, k);
        assert DiffersAt(a, b, k + 1);
      }
      if k :| DiffersAt(a, b, k) {
        assert k > 0;
        DiffersLater(a, b, k - 1);
        assert DiffersAt(a[1..], b[1..], k - 1);
      }
    } else if b != "" {
      assert a[..0] == b[..0];
      if a == "" || a[0] < b[0] {
        assert DiffersAt(a, b, 0);
      }
    }
  }

  /** The texts agree up to position `k`, and there the first ends or has the smaller character. */
  predicate DiffersAt(a: string, b: string, k: int) {
    0 <= k < |b| && k <= |a| && a[..k] == b[..k] && (k == |a| || a[k] < b[k])
  }

  lemma DiffersLater(a: string, b: string, k: int)
    requires a != "" && b != "" && a[0] == b[0] && k >= 0
    ensures DiffersAt(a[1..], b[1..], k) <==> DiffersAt(a, b, k + 1)
  {
    if k + 1 <= |a| && k + 1 <= |b| {
      assert a[..k + 1] == [a[0]] + a[1..][..k] && b[..k + 1] == [b[0]] + b[1..][..k];
    }
  }

  /** No step stands before one whose name comes first. */
  ghost predicate Sorted(steps: seq<Step>) {
    forall i, j :: 0 <= i < j < |steps| ==> !Before(steps[j].name, steps[i].name)
  }

  lemma {:induction false} InsertSorted(s: Step, sorted: seq<Step>)
    requires Sorted(sorted)
    ensures Sorted(Insert(s, sorted))
  {
    hide Before;
    var r := Insert(s, sorted);
    if sorted == [] {
    } else if Before(s.name, sorted[0].name) {
      forall j | 0 <= j < |sorted| ensures !Before(sorted[j].name, s.name) {
        NotAfter(s.name, sorted[0].name, sorted[j].name);
        Irreflexive(s.name);
      }
    } else {
      InsertSorted(s, sorted[1..]);
      assert r == [sorted[0]] + Insert(s, sorted[1..]);
      forall j | 1 <= j < |r| ensures !Before(r[j].name, sorted[0].name) {
        InsertMember(s, sorted[1..], r[j]);
      }
    }
  }

  /** What comes before the first comes before all that do not come before the first. */
  lemma NotAfter(a: string, first: string, b: string)
    requires Before(a, first) && (b == first || !Before(b, first))
    ensures !Before(b, a)
  {
    if Before(b, a) {
      Transitive(b, a, first);
      Irreflexive(first);
    }
  }

  lemma InsertMember(s: Step, sorted: seq<Step>, t: Step)
    ensures t in Insert(s, sorted) <==> t == s || t in sorted
  {
    assert t in multiset(Insert(s, sorted)) <==> t in multiset(sorted) + multiset{s};
  }

  lemma {:induction false} SortSorts(steps: seq<Step>)
    ensures Sorted(SortByName(steps))
  {
    if steps != [] {
      SortSorts(steps[..|steps| - 1]);
      InsertSorted(steps[|steps| - 1], SortByName(steps[..|steps| - 1]));
    }
  }

  /** The ready steps are in the order of their names. */
  lemma ReadySorted(c: Config, completed: set<string>)
    ensures Sorted(FindReady(c, completed))
  {
    SortSorts(Unsorted(c, c.def.steps, completed));
  }

  /** Distinctly named steps can be sorted in one way only. */
  lemma {:induction false} SortedUnique(a: seq<Step>, b: seq<Step>)
    requires Sorted(a) && Sorted(b) && DistinctNames(a) && DistinctNames(b)
    requires forall s :: s in a <==> s in b
    ensures a == b
  {
    hide Before;
    assert |b| > 0 ==> b[0] in a;
    if a == [] {
    } else {
      assert a[0] in b;
      FirstIsLeast(a, b[0]);
      FirstIsLeast(b, a[0]);
      Comparable(a[0].name, b[0].name);
      SameFirst(a, b);
      forall s ensures s in a[1..] <==> s in b[1..] {
        RestMember(a, s);
        RestMember(b, s);
      }
      SortedUnique(a[1..], b[1..]);
      assert a == [a[0]] + a[1..] && b == [b[0]] + b[1..];
    }
  }

  lemma FirstIsLeast(a: seq<Step>, s: Step)
    requires Sorted(a) && s in a
    ensures !Before(s.name, a[0].name)
  {
    Irreflexive(a[0].name);
  }

  lemma SameFirst(a: seq<Step>, b: seq<Step>)
    requires a != [] && b != [] && DistinctNames(a) && b[0] in a && a[0].name == b[0].name
    ensures a[0] == b[0]
  {}

  lemma RestMember(a: seq<Step>, s: Step)
    requires a != [] && DistinctNames(a)
    ensures s in a[1..] <==> s in a && s != a[0]
  {}

  // ----- Replays of reordered definitions -----

  /** The same steps under the same name and version, each list in an order of its own. */
  ghost predicate Reordered(def: Definition, other: Definition) {
    && DistinctNames(def.steps) && DistinctNames(other.steps) && SameSteps(def.steps, other.steps)
    && def.name == other.name && def.version == other.version
  }

  lemma ReadyOrderFree(c: Config, other: Definition, completed: set<string>)
    requires Reordered(c.def, other)
    ensures FindReady(c.(def := other), completed) == FindReady(c, completed)
  {
    hide FindReady, DistinctNames, Before, Sorted;
    var d := c.(def := other);
    ReadySorted(c, completed);
    ReadySorted(d, completed);
    ReadyDistinct(c, completed);
    ReadyDistinct(d, completed);
    forall s ensures s in FindReady(c, completed) <==> s in FindReady(d, completed) {
      ReadyMember(c, completed, s);
      ReadyMember(d, completed, s);
    }
    SortedUnique(FindReady(c, completed), FindReady(d, completed));
  }

  /** A goroutine knows nothing of the definition but its own step. */
  lemma AdvanceOrderFree(c: Config, other: Definition, sh: Shared, t: Task, now: int, answer: Json)
    ensures Advance(c.(def := other), sh, t, now, answer) == Advance(c, sh, t, now, answer)
  {}

  lemma {:induction false} RunOrderFree(c: Config, other: Definition, w: Wave, ticks: seq<Tick>)
    ensures Run(c.(def := other), w, ticks) == Run(c, w, ticks)
  {
    hide Advance;
    if ticks != [] {
      var init, tick := ticks[..|ticks| - 1], ticks[|ticks| - 1];
      RunOrderFree(c, other, w, init);
      var v := Run(c, w, init);
      if tick.Move? && tick.task < |v.tasks| {
        AdvanceOrderFree(c, other, v.sh, v.tasks[tick.task], tick.now, tick.answer);
      }
    }
  }

  lemma TurnOrderFree(c: Config, other: Definition, l: Loop, env: Environment)
    requires Reordered(c.def, other)
    ensures WaveTurn(c.(def := other), l, env) == WaveTurn(c, l, env)
  {
    hide FindReady, Run, Reordered;
    ReadyOrderFree(c, other, l.completed);
    RunOrderFree(c, other, Wave(l.sh.(groupDone := false), NewTasks(FindReady(c, l.completed))), env.schedule(l.waves));
  }

  lemma WavesOrderFree(c: Config, other: Definition, l: Loop, env: Environment)
    requires Reordered(c.def, other)
    ensures Waves(c.(def := other), l, env) == Waves(c, l, env)
    decreases Names(c.def.steps) - l.completed
  {
    hide WaveTurn, Reordered;
    TurnOrderFree(c, other, l, env);
    if WaveTurn(c, l, env).Again? {
      TurnShrinks(c, l, env);
      WavesOrderFree(c, other, WaveTurn(c, l, env).next, env);
    }
  }

  lemma {:induction false} FatalIffSome(c: Config, steps: seq<Step>)
    ensures FirstFatal(c, steps).Some? <==> exists s :: s in steps && FatalOf(c.Past(), s.name).Some?
  {
    if steps != [] {
      FatalIffSome(c, steps[1..]);
      assert steps == [steps[0]] + steps[1..];
    }
  }

  lemma FatalOrderFree(c: Config, other: Definition)
    requires Reordered(c.def, other)
    ensures FirstFatal(c.(def := other), other.steps).Some? <==> FirstFatal(c, c.def.steps).Some?
  {
    FatalIffSome(c, c.def.steps);
    FatalIffSome(c.(def := other), other.steps);
  }

  lemma StartOrderFree(c: Config, other: Definition, env: Environment)
    requires Reordered(c.def, other)
    ensures FirstLoop(c.(def := other), env) == FirstLoop(c, env) && Opening(c.(def := other)) == Opening(c)
  {
    forall n ensures n in Names(c.def.steps) <==> n in Names(other.steps) {
      if n in Names(c.def.steps) {
        var i :| 0 <= i < |c.def.steps| && c.def.steps[i].name == n;
        assert c.def.steps[i] in other.steps;
      }
      if n in Names(other.steps) {
        var i :| 0 <= i < |other.steps| && other.steps[i].name == n;
        assert other.steps[i] in c.def.steps;
      }
    }
    assert CompletedBefore(c.(def := other)) == CompletedBefore(c);
  }

  /**
    The order in which a definition lists its steps does not matter: the same log and the same
    environment give the same replay, event for event. Only the text of a failure found on record
    depends on it, which names the first of the failed steps.
  */
  lemma ReplayOrderFree(c: Config, other: Definition, env: Environment)
    requires Reordered(c.def, other)
    ensures FirstFatal(c, c.def.steps).None? ==> Replay(c.(def := other), env) == Replay(c, env)
    ensures FirstFatal(c, c.def.steps).Some? ==>
              && Replay(c, env).Some? && Replay(c.(def := other), env).Some?
              && var (o, p) := (Replay(c, env).value, Replay(c.(def := other), env).value);
                 o.result.ReplayFailed? == p.result.ReplayFailed? && o.emitted == p.emitted
  {
    hide Waves, Reordered, FirstFatal, FirstLoop, Opening, IsCancelled, IsCompleted;
    FatalOrderFree(c, other);
    StartOrderFree(c, other, env);
    WavesOrderFree(c, other, FirstLoop(c, env), env);
  }
}
