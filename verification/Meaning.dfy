/**
  Parallel replay means what sequential evaluation means: for steps whose code depends only on the
  workflow input and on the outputs of declared dependencies.
*/
module Meaning {
  import opened Events
  import opened Scans
  import opened Queries
  import opened Definitions
  import opened Engine
  import opened Executions
  import opened Replays
  import opened Decisions

  // ---------------------------------------------------------------------------------------------
  // Sequential evaluation

  /** Deterministic user code: it returns, fails, or reads a declared dependency. */
  ghost predicate Pure(s: Step) {
    s.Plain? && forall input, replies ::
      var call := s.body(input, replies); call.Return? || call.Fail? || (call.Read? && call.step in s.deps)
  }

  ghost predicate PureSteps(steps: seq<Step>) {
    forall i :: 0 <= i < |steps| ==> Pure(steps[i])
  }

  function Lookup(m: map<string, Json>, d: string): Option<Json> {
    if d in m then Some(m[d]) else None
  }

  /** What the code hears in its first `n` calls when its reads are answered from `m`. */
  function Heard(s: Step, input: Json, m: map<string, Json>, n: nat): seq<Reply> {
    if n == 0 then []
    else
      var before := Heard(s, input, m, n - 1);
      match s.Next(input, "", before)
      case Read(d) => before + [Output(Lookup(m, d))]
      case _ => before
  }

  function Verdict(s: Step, input: Json, m: map<string, Json>, n: nat): Call {
    s.Next(input, "", Heard(s, input, m, n))
  }

  predicate DepsIn(s: Step, m: map<string, Json>) {
    forall d :: d in s.deps ==> d in m
  }

  /** Evaluate the steps one after the other, allowing each `n` calls; a step that fails leaves no output. */
  function Evaluate(steps: seq<Step>, input: Json, n: nat): map<string, Json> {
    if steps == [] then map[]
    else
      var m, s := Evaluate(steps[..|steps| - 1], input, n), steps[|steps| - 1];
      if DepsIn(s, m) && Verdict(s, input, m, n).Return? then m[s.name := Verdict(s, input, m, n).result] else m
  }

  /** `n` calls are enough for every step whose dependencies have outputs. */
  ghost predicate Enough(steps: seq<Step>, input: Json, n: nat) {
    forall i :: 0 <= i < |steps| ==>
      var m := Evaluate(steps[..i], input, n);
      DepsIn(steps[i], m) ==> !Verdict(steps[i], input, m, n).Read?
  }

  lemma {:induction false} HeardAgrees(s: Step, input: Json, m: map<string, Json>, m': map<string, Json>, n: nat)
    requires Pure(s) && forall d :: d in s.deps ==> Lookup(m, d) == Lookup(m', d)
    ensures Heard(s, input, m, n) == Heard(s, input, m', n)
  {
    if n > 0 {
      HeardAgrees(s, input, m, m', n - 1);
    }
  }

  lemma {:induction false} EvaluateNames(steps: seq<Step>, input: Json, n: nat)
    ensures forall d :: d in Evaluate(steps, input, n) ==> d in Names(steps)
  {
    if steps != [] {
      EvaluateNames(steps[..|steps| - 1], input, n);
      forall d | d in Names(steps[..|steps| - 1]) ensures d in Names(steps) {
        var i :| 0 <= i < |steps| - 1 && steps[..|steps| - 1][i].name == d;
        assert steps[i].name == d;
      }
      assert steps[|steps| - 1].name in Names(steps);
    }
  }

  /** Later steps do not change the outputs of earlier ones. */
  lemma {:induction false} EvaluateKeeps(steps: seq<Step>, input: Json, n: nat, i: nat, d: string)
    requires DistinctNames(steps) && i <= |steps| && d in Names(steps[..i])
    ensures Lookup(Evaluate(steps, input, n), d) == Lookup(Evaluate(steps[..i], input, n), d)
  {
    if i == |steps| {
      assert steps[..i] == steps;
    } else {
      var init := steps[..|steps| - 1];
      assert init[..i] == steps[..i];
      EvaluateKeeps(init, input, n, i, d);
      var j :| 0 <= j < i && steps[..i][j].name == d;
      assert steps[j].name == d;
    }
  }

  /** A step has an output exactly when its dependencies do and its code, reading them, returns it. */
  ghost predicate Defined(s: Step, input: Json, n: nat, m: map<string, Json>) {
    Lookup(m, s.name) == if DepsIn(s, m) && Verdict(s, input, m, n).Return? then Some(Verdict(s, input, m,
        n).result) else None
  }

  ghost predicate IsEvaluation(steps: seq<Step>, input: Json, n: nat, m: map<string, Json>) {
    && (forall d :: d in m ==> d in Names(steps))
    && (forall i :: 0 <= i < |steps| ==> Defined(steps[i], input, n, m))
  }

  /** The sequential fold is an evaluation in this sense. */
  lemma EvaluateIsEvaluation(def: Definition, input: Json, n: nat)
    requires WellDefined(def) && PureSteps(def.steps)
    ensures IsEvaluation(def.steps, input, n, Evaluate(def.steps, input, n))
  {
    var steps, m := def.steps, Evaluate(def.steps, input, n);
    EvaluateNames(steps, input, n);
    forall i | 0 <= i < |steps| ensures Defined(steps[i], input, n, m) {
      var before, upto := Evaluate(steps[..i], input, n), Evaluate(steps[..i + 1], input, n);
      assert steps[..i + 1][..i] == steps[..i];
      EarlierAgree(def, input, n, i);
      HeardAgrees(steps[i], input, m, before, n);
      assert steps[..i + 1][i].name == steps[i].name;
      EvaluateKeeps(steps, input, n, i + 1, steps[i].name);
      NotEarlier(steps, input, n, i);
    }
  }

  lemma EarlierAgree(def: Definition, input: Json, n: nat, i: nat)
    requires WellDefined(def) && i < |def.steps|
    ensures forall d :: d in def.steps[i].deps ==>
              Lookup(Evaluate(def.steps, input, n), d) == Lookup(Evaluate(def.steps[..i], input, n), d)
  {
    forall d | d in def.steps[i].deps
      ensures Lookup(Evaluate(def.steps, input, n), d) == Lookup(Evaluate(def.steps[..i], input, n), d)
    {
      var j :| 0 <= j < i && def.steps[j].name == d;
      assert def.steps[..i][j].name == d;
      EvaluateKeeps(def.steps, input, n, i, d);
    }
  }

  lemma NotEarlier(steps: seq<Step>, input: Json, n: nat, i: nat)
    requires DistinctNames(steps) && i < |steps|
    ensures steps[i].name !in Evaluate(steps[..i], input, n)
  {
    EvaluateNames(steps[..i], input, n);
  }

  lemma DefinedAgree(s: Step, input: Json, n: nat, m: map<string, Json>, m': map<string, Json>)
    requires Pure(s) && (forall d :: d in s.deps ==> Lookup(m, d) == Lookup(m', d))
    requires Defined(s, input, n, m) && Defined(s, input, n, m')
    ensures Lookup(m, s.name) == Lookup(m', s.name)
  {
    HeardAgrees(s, input, m, m', n);
    forall d | d in s.deps ensures d in m <==> d in m' {
      assert Lookup(m, d) == Lookup(m', d);
    }
  }

  ghost predicate SameSteps(a: seq<Step>, b: seq<Step>) {
    forall s :: s in a <==> s in b
  }

  lemma {:induction false} EvaluationsAgree(def: Definition, other: Definition, input: Json, n: nat,
                                            m: map<string, Json>, m': map<string, Json>, i: nat)
    requires WellDefined(def) && PureSteps(def.steps) && SameSteps(def.steps, other.steps)
    requires IsEvaluation(def.steps, input, n, m) && IsEvaluation(other.steps, input, n, m')
    requires i < |def.steps|
    ensures Lookup(m, def.steps[i].name) == Lookup(m', def.steps[i].name)
    decreases i
  {
    hide Defined, Lookup, Pure, DistinctNames;
    var s := def.steps[i];
    forall d | d in s.deps ensures Lookup(m, d) == Lookup(m', d) {
      var j :| 0 <= j < i && def.steps[j].name == d;
      EvaluationsAgree(def, other, input, n, m, m', j);
    }
    assert s in def.steps;
    var k :| 0 <= k < |other.steps| && other.steps[k] == s;
    DefinedAgree(s, input, n, m, m');
  }

  /** Two evaluations of the same steps agree, even when each lists them in its own order. */
  lemma EvaluationUnique(def: Definition, other: Definition, input: Json, n: nat, m: map<string, Json>,
                         m': map<string, Json>)
    requires WellDefined(def) && PureSteps(def.steps) && SameSteps(def.steps, other.steps)
    requires IsEvaluation(def.steps, input, n, m) && IsEvaluation(other.steps, input, n, m')
    ensures m == m'
  {
    hide Defined, PureSteps, WellDefined;
    forall d ensures Lookup(m, d) == Lookup(m', d) {
      if d in Names(def.steps) {
        var i :| 0 <= i < |def.steps| && def.steps[i].name == d;
        EvaluationsAgree(def, other, input, n, m, m', i);
      } else if d in Names(other.steps) {
        var j :| 0 <= j < |other.steps| && other.steps[j].name == d;
        assert other.steps[j] in def.steps;
      }
    }
    forall d ensures d in m <==> d in m' { assert Lookup(m, d) == Lookup(m', d); }
    forall d | d in m ensures m[d] == m'[d] { assert Lookup(m, d) == Lookup(m', d); }
  }

  /** Sequential evaluation does not depend on the topological order that was picked. */
  lemma EvaluationOrderFree(def: Definition, other: Definition, input: Json, n: nat)
    requires WellDefined(def) && WellDefined(other) && PureSteps(def.steps) && PureSteps(other.steps)
    requires SameSteps(def.steps, other.steps)
    ensures Evaluate(def.steps, input, n) == Evaluate(other.steps, input, n)
  {
    EvaluateIsEvaluation(def, input, n);
    EvaluateIsEvaluation(other, input, n);
    EvaluationUnique(def, other, input, n, Evaluate(def.steps, input, n), Evaluate(other.steps, input, n));
  }

  // ---------------------------------------------------------------------------------------------
  // Transcripts

  /** A transcript as long as the number of calls consists of reads only, and its prefixes do too. */
  lemma {:induction false} HeardPrefix(s: Step, input: Json, m: map<string, Json>, k: nat, j: nat)
    requires j <= k && |Heard(s, input, m, k)| == k
    ensures |Heard(s, input, m, j)| == j
    ensures j < k ==> Verdict(s, input, m, j).Read?
    decreases k
  {
    HeardBound(s, input, m, k);
    if k > 0 {
      HeardBound(s, input, m, k - 1);
      if j < k {
        HeardPrefix(s, input, m, k - 1, j);
      }
    }
  }

  lemma {:induction false} HeardBound(s: Step, input: Json, m: map<string, Json>, k: nat)
    ensures |Heard(s, input, m, k)| <= k
  {
    if k > 0 {
      HeardBound(s, input, m, k - 1);
    }
  }

  /** Once the code has come to a verdict, further calls do not change it. */
  lemma {:induction false} VerdictStays(s: Step, input: Json, m: map<string, Json>, k: nat, n: nat)
    requires k <= n && !Verdict(s, input, m, k).Read?
    ensures Verdict(s, input, m, n) == Verdict(s, input, m, k)
    decreases n
  {
    if k < n {
      VerdictStays(s, input, m, k, n - 1);
    }
  }

  /** If `n` calls are enough, a transcript of `k` replies is no longer than `n`, and its verdict is the one at `n`. */
  lemma TranscriptVerdict(s: Step, input: Json, m: map<string, Json>, k: nat, n: nat)
    requires |Heard(s, input, m, k)| == k && !Verdict(s, input, m, n).Read?
    ensures k <= n
    ensures !Verdict(s, input, m, k).Read? ==> Verdict(s, input, m, k) == Verdict(s, input, m, n)
    ensures Verdict(s, input, m, k).Read? ==> k < n
  {
    if n < k {
      HeardPrefix(s, input, m, k, n);
    } else if !Verdict(s, input, m, k).Read? {
      VerdictStays(s, input, m, k, n);
    }
  }
}
