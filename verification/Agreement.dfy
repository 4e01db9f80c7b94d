/** Replays of deterministic workflows agree with their sequential evaluation. */
module Agreement {
  import opened Events
  import opened Scans
  import opened Queries
  import opened Definitions
  import opened Engine
  import opened Executions
  import opened Replays
  import opened Decisions
  import opened Meaning

  /** A deterministic workflow with its sequential evaluation `m`, for which `n` calls per step are enough. */
  ghost predicate Deterministic(def: Definition, input: Json, n: nat, m: map<string, Json>) {
    && WellDefined(def) && PureSteps(def.steps)
    && IsEvaluation(def.steps, input, n, m)
    && forall i :: 0 <= i < |def.steps| ==> DepsIn(def.steps[i], m) ==> !Verdict(def.steps[i], input, m, n).Read?
  }

  /** The sequential fold, when `n` calls are enough for it, is the evaluation meant. */
  lemma EnoughIsDeterministic(def: Definition, input: Json, n: nat)
    requires WellDefined(def) && PureSteps(def.steps) && Enough(def.steps, input, n)
    ensures Deterministic(def, input, n, Evaluate(def.steps, input, n))
  {
    hide IsEvaluation;
    var steps, m := def.steps, Evaluate(def.steps, input, n);
    EvaluateIsEvaluation(def, input, n);
    forall i | 0 <= i < |steps| && DepsIn(steps[i], m) ensures !Verdict(steps[i], input, m, n).Read? {
      EarlierAgree(def, input, n, i);
      HeardAgrees(steps[i], input, m, Evaluate(steps[..i], input, n), n);
      assert DepsIn(steps[i], Evaluate(steps[..i], input, n)) by {
        forall d | d in steps[i].deps ensures d in Evaluate(steps[..i], input, n) {
          assert Lookup(m, d) == Lookup(Evaluate(steps[..i], input, n), d);
        }
      }
    }
  }

  /** The outputs recorded in a log are those of the evaluation. */
  ghost predicate LogAgrees(ps: seq<Payload>, names: set<string>, m: map<string, Json>) {
    forall d :: d in names && OutputOf(ps, d).Some? ==> OutputOf(ps, d) == Lookup(m, d)
  }

  /** Steps complete with the outputs of the evaluation, and only steps without one fail. */
  ghost predicate EventsAgree(ps: seq<Payload>, m: map<string, Json>) {
    forall p :: p in ps ==>
      (p.StepCompleted? ==> p.step in m && p.output == Some(m[p.step])) && (p.StepFailed? ==> p.step !in m)
  }

  /** Cached outputs are those of the evaluation, and every step done has one in cache or log. */
  ghost predicate CacheAgrees(c: Config, sh: Shared, completed: set<string>, m: map<string, Json>) {
    && (forall d :: d in sh.cache ==> Lookup(m, d) == Some(sh.cache[d]))
    && (forall d :: d in completed ==> d in sh.cache || OutputOf(c.Past(), d).Some?)
  }

  /** A goroutine has heard what sequential evaluation would have told it, and ends as that ends. */
  ghost predicate TaskAgrees(c: Config, t: Task, m: map<string, Json>) {
    && t.choice == ""
    && (t.phase.Running? ==> t.phase.replies == Heard(t.step, c.input, m, |t.phase.replies|))
    && (forall o :: t.phase == Leaving(Succeeded(o)) || t.phase == Done(Succeeded(o)) ==>
        Lookup(m, t.step.name) == Some(o))
    && EventsAgree(t.events, m)
  }

  ghost predicate ReadyTask(c: Config, t: Task, completed: set<string>) {
    t.step in c.def.steps && forall d :: d in t.step.deps ==> d in completed
  }

  lemma DoneIsVisible(c: Config, sh: Shared, completed: set<string>, m: map<string, Json>, d: string)
    requires LogAgrees(c.Past(), Names(c.def.steps), m) && CacheAgrees(c, sh, completed, m)
    requires d in completed && d in Names(c.def.steps)
    ensures Visible(c, sh, d) == Lookup(m, d) && d in m
  {}

  lemma DependencyNamed(def: Definition, s: Step, d: string)
    requires WellDefined(def) && s in def.steps && d in s.deps
    ensures d in Names(def.steps)
  {
    var i :| 0 <= i < |def.steps| && def.steps[i] == s;
    var j :| 0 <= j < i && def.steps[j].name == d;
  }

  /** What a goroutine returns is what sequential evaluation returns. */
  lemma VerdictAgrees(c: Config, t: Task, completed: set<string>, n: nat, m: map<string, Json>)
    requires Deterministic(c.def, c.input, n, m) && ReadyTask(c, t, completed) && TaskAgrees(c, t, m)
    requires t.phase.Running? && (forall d :: d in t.step.deps ==> d in m)
    ensures var call := t.step.Next(c.input, t.choice, t.phase.replies);
            && (call.Return? || call.Fail? || (call.Read? && call.step in t.step.deps))
            && (call.Return? ==> Lookup(m, t.step.name) == Some(call.result))
            && (call.Fail? ==> Lookup(m, t.step.name) == None)
            && |t.phase.replies| <= n && (call.Read? ==> |t.phase.replies| < n)
  {
    var s, k := t.step, |t.phase.replies|;
    var i :| 0 <= i < |c.def.steps| && c.def.steps[i] == s;
    assert Defined(c.def.steps[i], c.input, n, m);
    TranscriptVerdict(s, c.input, m, k, n);
    assert Pure(c.def.steps[i]);
  }

  lemma HeardMore(s: Step, input: Json, m: map<string, Json>, replies: seq<Reply>, d: string)
    requires replies == Heard(s, input, m, |replies|) && s.Next(input, "", replies) == Read(d)
    ensures replies + [Output(Lookup(m, d))] == Heard(s, input, m, |replies| + 1)
  {}

  /** A call of the user's code, once it is known to be the one sequential evaluation makes. */
  lemma WorkAgrees(c: Config, sh: Shared, t: Task, now: int, answer: Json, completed: set<string>, m: map<string, Json>)
    requires t.step.Plain? && t.phase.Running? && CacheAgrees(c, sh, completed, m) && TaskAgrees(c, t, m)
    requires var call := t.step.Next(c.input, t.choice, t.phase.replies);
             && (call.Return? || call.Fail? || (call.Read? && Visible(c, sh, call.step) == Lookup(m, call.step)))
             && (call.Return? ==> Lookup(m, t.step.name) == Some(call.result))
             && (call.Fail? ==> Lookup(m, t.step.name) == None)
    ensures var (sh', t') := Work(c, sh, t, now, answer);
            CacheAgrees(c, sh', completed, m) && TaskAgrees(c, t', m) && t'.step == t.step
  {
    hide Heard;
    var call := t.step.Next(c.input, t.choice, t.phase.replies);
    if call.Read? {
      HeardMore(t.step, c.input, m, t.phase.replies, call.step);
    }
  }

  lemma IdleAgrees(c: Config, sh: Shared, t: Task, now: int, answer: Json, completed: set<string>, m: map<string, Json>)
    requires t.step.Plain? && !t.phase.Running? && CacheAgrees(c, sh, completed, m) && TaskAgrees(c, t, m)
    ensures var (sh', t') := Advance(c, sh, t, now, answer);
            CacheAgrees(c, sh', completed, m) && TaskAgrees(c, t', m) && t'.step == t.step
  {
    hide Heard;
    HeardNothing(t.step, c.input, m);
  }

  lemma AdvanceAgrees(c: Config, sh: Shared, t: Task, now: int, answer: Json, completed: set<string>, n: nat,
      m: map<string, Json>)
    requires Deterministic(c.def, c.input, n, m) && LogAgrees(c.Past(), Names(c.def.steps), m)
    requires CacheAgrees(c, sh, completed, m) && ReadyTask(c, t, completed) && TaskAgrees(c, t, m)
    ensures var (sh', t') := Advance(c, sh, t, now, answer);
            CacheAgrees(c, sh', completed, m) && TaskAgrees(c, t', m) && t'.step == t.step
  {
    hide IsEvaluation, Heard, CacheAgrees, TaskAgrees, LogAgrees, WellDefined, Work, Visible;
    PureIsPlain(c.def, t.step);
    if t.phase.Running? {
      forall d | d in t.step.deps ensures Visible(c, sh, d) == Lookup(m, d) && d in m {
        DependencyNamed(c.def, t.step, d);
        DoneIsVisible(c, sh, completed, m, d);
      }
      VerdictAgrees(c, t, completed, n, m);
      WorkAgrees(c, sh, t, now, answer, completed, m);
    } else {
      IdleAgrees(c, sh, t, now, answer, completed, m);
    }
  }

  lemma HeardNothing(s: Step, input: Json, m: map<string, Json>)
    ensures Heard(s, input, m, 0) == []
  {}

  lemma PureIsPlain(def: Definition, s: Step)
    requires PureSteps(def.steps) && s in def.steps
    ensures s.Plain?
  {
    var i :| 0 <= i < |def.steps| && def.steps[i] == s;
    assert Pure(def.steps[i]);
  }

  ghost predicate WaveAgrees(c: Config, w: Wave, completed: set<string>, m: map<string, Json>) {
    && CacheAgrees(c, w.sh, completed, m)
    && forall i :: 0 <= i < |w.tasks| ==> TaskAgrees(c, w.tasks[i], m) && ReadyTask(c, w.tasks[i], completed)
  }

  lemma {:induction false} RunAgrees(c: Config, w: Wave, ticks: seq<Tick>, completed: set<string>, n: nat,
      m: map<string, Json>)
    requires Deterministic(c.def, c.input, n, m) && LogAgrees(c.Past(), Names(c.def.steps), m)
    requires WaveAgrees(c, w, completed, m)
    ensures WaveAgrees(c, Run(c, w, ticks), completed, m)
  {
    hide Deterministic, LogAgrees, TaskAgrees, Advance;
    if ticks != [] {
      var init, tick := ticks[..|ticks| - 1], ticks[|ticks| - 1];
      RunAgrees(c, w, init, completed, n, m);
      var v := Run(c, w, init);
      if tick.Move? && tick.task < |v.tasks| {
        AdvanceAgrees(c, v.sh, v.tasks[tick.task], tick.now, tick.answer, completed, n, m);
      }
    }
  }

  ghost predicate LoopAgrees(c: Config, l: Loop, m: map<string, Json>) {
    && CacheAgrees(c, l.sh, l.completed, m) && EventsAgree(l.sh.emitted, m)
    && (forall d :: d in l.completed ==> d in Names(c.def.steps))
  }

  /** Once the wave's results are in, every event on record agrees. */
  lemma SettledAgrees(c: Config, w: Wave, before: seq<Payload>, m: map<string, Json>)
    requires Extends(c, before, w.sh.emitted) && EventsAgree(before, m)
    requires forall i :: 0 <= i < |w.tasks| ==> TaskAgrees(c, w.tasks[i], m)
    ensures EventsAgree(Settle(w).emitted, m)
  {
    forall p | p in Settle(w).emitted
      ensures (p.StepCompleted? ==> p.step in m && p.output == Some(m[p.step])) && (p.StepFailed? ==> p.step !in m)
    {
      if p in Gather(w.tasks) {
        GatherMember(w.tasks, p);
        var i :| 0 <= i < |w.tasks| && p in w.tasks[i].events;
        assert TaskAgrees(c, w.tasks[i], m);
      } else {
        var i :| 0 <= i < |w.sh.emitted| && w.sh.emitted[i] == p;
        assert i < |before| ==> before[i] in before;
      }
    }
  }

  lemma WaveKeepsAgreement(c: Config, l: Loop, env: Environment, n: nat, m: map<string, Json>)
    requires Deterministic(c.def, c.input, n, m) && LogAgrees(c.Past(), Names(c.def.steps), m) && LoopAgrees(c, l, m)
    ensures var ready := FindReady(c, l.completed); var w := StartWave(c, l, ready, env);
            && WaveAgrees(c, w, l.completed, m)
            && EventsAgree(Settle(w).emitted, m)
  {
    hide Deterministic, LogAgrees, FindReady, Grammar, Heard, Run, Extends, Gather;
    var ready := FindReady(c, l.completed);
    var start, w := Wave(l.sh.(groupDone := false), NewTasks(ready)), StartWave(c, l, ready, env);
    WaveFacts(c, l, ready, env);
    forall i | 0 <= i < |ready| ensures ReadyTask(c, start.tasks[i], l.completed) {
      ReadyMember(c, l.completed, ready[i]);
      assert ready[i] in ready;
    }
    RunAgrees(c, start, env.schedule(l.waves), l.completed, n, m);
    SettledAgrees(c, w, l.sh.emitted, m);
  }

  // ---------------------------------------------------------------------------------------------
  // Whole replays

  predicate HasSucceeded(phase: Phase, output: Json) {
    phase == Leaving(Succeeded(output)) || phase == Done(Succeeded(output))
  }

  /** A goroutine that succeeded has cached its output. */
  ghost predicate CachedWhenDone(w: Wave) {
    forall i, o :: 0 <= i < |w.tasks| && HasSucceeded(w.tasks[i].phase, o) ==> w.tasks[i].CacheKey() in w.sh.cache
  }

  lemma AdvanceCaches(c: Config, sh: Shared, t: Task, now: int, answer: Json)
    ensures var (sh', t') := Advance(c, sh, t, now, answer);
            && (forall d :: d in sh.cache ==> d in sh'.cache)
            && (forall o :: t'.phase == Leaving(Succeeded(o)) ==> t'.CacheKey() in sh'.cache)
            && (t'.phase.Done? ==> t'.CacheKey() == t.CacheKey())
            && (forall o :: t'.phase == Done(Succeeded(o)) ==> HasSucceeded(t.phase, o))
  {}

  lemma {:induction false} RunCaches(c: Config, w: Wave, ticks: seq<Tick>)
    requires CachedWhenDone(w)
    ensures CachedWhenDone(Run(c, w, ticks))
  {
    hide Advance;
    if ticks != [] {
      var init, tick := ticks[..|ticks| - 1], ticks[|ticks| - 1];
      RunCaches(c, w, init);
      var v := Run(c, w, init);
      if tick.Move? && tick.task < |v.tasks| {
        AdvanceCaches(c, v.sh, v.tasks[tick.task], tick.now, tick.answer);
      }
    }
  }

  /** After a clean wave every step that was ready has its output in the cache. */
  lemma CleanWaveCaches(c: Config, l: Loop, env: Environment)
    requires PureSteps(c.def.steps)
    ensures var ready := FindReady(c, l.completed); var w := StartWave(c, l, ready, env);
            CleanEnd(w) ==> forall d :: d in Names(ready) ==> d in w.sh.cache && d in Names(c.def.steps)
  {
    hide FindReady, Run, Grammar, Tagged, PureSteps, Extends;
    var ready := FindReady(c, l.completed);
    var w := StartWave(c, l, ready, env);
    WaveFacts(c, l, ready, env);
    RunCaches(c, Wave(l.sh.(groupDone := false), NewTasks(ready)), env.schedule(l.waves));
    if CleanEnd(w) {
      AllSucceeded(w.tasks);
      forall d | d in Names(ready) ensures d in w.sh.cache && d in Names(c.def.steps) {
        var i :| 0 <= i < |ready| && ready[i].name == d;
        ReadyMember(c, l.completed, ready[i]);
        assert HasSucceeded(w.tasks[i].phase, w.tasks[i].phase.ending.output);
        PureIsPlain(c.def, ready[i]);
      }
    }
  }

  lemma TurnAgrees(c: Config, l: Loop, env: Environment, n: nat, m: map<string, Json>)
    requires Deterministic(c.def, c.input, n, m) && LogAgrees(c.Past(), Names(c.def.steps), m) && LoopAgrees(c, l, m)
    ensures WaveTurn(c, l, env).Again? ==> LoopAgrees(c, WaveTurn(c, l, env).next, m)
    ensures WaveTurn(c, l, env).Out? ==> EventsAgree(WaveTurn(c, l, env).output.emitted, m)
  {
    hide IsEvaluation, WellDefined, PureSteps, LogAgrees, FindReady, StartWave, TaskAgrees, Names;
    var ready := FindReady(c, l.completed);
    var w := StartWave(c, l, ready, env);
    WaveKeepsAgreement(c, l, env, n, m);
    CleanWaveCaches(c, l, env);
  }

  lemma WavesAgree(c: Config, l: Loop, env: Environment, n: nat, m: map<string, Json>)
    requires Deterministic(c.def, c.input, n, m) && LogAgrees(c.Past(), Names(c.def.steps), m) && LoopAgrees(c, l, m)
    ensures Waves(c, l, env).Some? ==> EventsAgree(Waves(c, l, env).value.emitted, m)
    decreases Names(c.def.steps) - l.completed
  {
    hide WaveTurn, Deterministic, LogAgrees, LoopAgrees, FindReady;
    TurnAgrees(c, l, env, n, m);
    match WaveTurn(c, l, env)
    case Again(next) =>
      TurnShrinks(c, l, env);
      WavesAgree(c, next, env, n, m);
    case _ =>
  }

  /**
    Whatever the interleaving and however the replay ends, every output it records for a
    deterministic workflow is the one that sequential evaluation gives.
  */
  lemma ReplayAgrees(c: Config, env: Environment, n: nat, m: map<string, Json>)
    requires Deterministic(c.def, c.input, n, m) && LogAgrees(c.Past(), Names(c.def.steps), m)
    requires Replay(c, env).Some?
    ensures EventsAgree(Replay(c, env).value.emitted, m)
  {
    hide Waves, Deterministic;
    if Runnable(c) {
      WavesAgree(c, FirstLoop(c, env), env, n, m);
    }
  }

  // ---------------------------------------------------------------------------------------------
  // Completion

  /** How many moves a goroutine may still need. */
  function Potential(t: Task, n: nat): nat {
    match t.phase
    case Entering => n + 4
    case Starting(_) => n + 3
    case Running(_, replies) => if |replies| <= n then n + 2 - |replies| else 1
    case BackingOff(_) => 0
    case Leaving(_) => 1
    case Done(_) => 0
  }

  /** On its way to success after at most `n` calls, or there. */
  predicate OnTrack(t: Task, n: nat) {
    match t.phase
    case Running(_, replies) => |replies| <= n
    case BackingOff(_) => false
    case Leaving(ending) => ending.Succeeded?
    case Done(ending) => ending.Succeeded?
    case _ => true
  }

  function Moves(ticks: seq<Tick>, i: nat): nat {
    if ticks == [] then 0
    else Moves(ticks[..|ticks| - 1], i) + if ticks[|ticks| - 1].Move? && ticks[|ticks| - 1].task == i then 1 else 0
  }

  predicate NoCancel(ticks: seq<Tick>) {
    forall k :: 0 <= k < |ticks| ==> ticks[k].Move?
  }

  /** The context is never cancelled, and every wave lets each of its goroutines make enough moves. */
  ghost predicate Fair(env: Environment, tasks: nat, n: nat) {
    && !env.cancelledEarly
    && (forall w :: NoCancel(env.schedule(w)))
    && (forall w, i :: 0 <= i < tasks ==> Moves(env.schedule(w), i) >= n + 4)
  }

  /** Every step of the workflow has an output in the evaluation. */
  ghost predicate Total(def: Definition, m: map<string, Json>) {
    forall s :: s in def.steps ==> s.name in m
  }

  lemma AdvanceOnTrack(c: Config, sh: Shared, t: Task, now: int, answer: Json, completed: set<string>, n: nat,
      m: map<string, Json>)
    requires Deterministic(c.def, c.input, n, m) && LogAgrees(c.Past(), Names(c.def.steps), m) && Total(c.def, m)
    requires CacheAgrees(c, sh, completed, m) && ReadyTask(c, t, completed) && TaskAgrees(c, t, m)
    requires OnTrack(t, n) && !sh.Stopped()
    ensures var (sh', t') := Advance(c, sh, t, now, answer);
            && OnTrack(t', n) && !sh'.Stopped()
            && (t'.phase.Done? || Potential(t', n) < Potential(t, n))
  {
    hide IsEvaluation, Heard, CacheAgrees, TaskAgrees, LogAgrees, WellDefined, Visible;
    PureIsPlain(c.def, t.step);
    if t.phase.Running? {
      forall d | d in t.step.deps ensures d in m {
        DependencyNamed(c.def, t.step, d);
        DoneIsVisible(c, sh, completed, m, d);
      }
      VerdictAgrees(c, t, completed, n, m);
    }
  }

  /** After `k` moves a goroutine that started `n + 4` moves from its end is that much nearer, or done. */
  ghost predicate TracksMoves(w: Wave, ticks: seq<Tick>, n: nat) {
    && !w.sh.Stopped()
    && forall i :: 0 <= i < |w.tasks| ==>
         OnTrack(w.tasks[i], n) && (w.tasks[i].phase.Done? || Potential(w.tasks[i], n) + Moves(ticks, i) <= n + 4)
  }

  lemma {:induction false} RunTracksMoves(c: Config, w: Wave, ticks: seq<Tick>, completed: set<string>, n: nat,
      m: map<string, Json>)
    requires Deterministic(c.def, c.input, n, m) && LogAgrees(c.Past(), Names(c.def.steps), m) && Total(c.def, m)
    requires WaveAgrees(c, w, completed, m) && TracksMoves(w, [], n) && NoCancel(ticks)
    ensures TracksMoves(Run(c, w, ticks), ticks, n) && |Run(c, w, ticks).tasks| == |w.tasks|
  {
    hide Deterministic, LogAgrees, TaskAgrees, Total, Advance, CacheAgrees, ReadyTask;
    if ticks != [] {
      var init, tick := ticks[..|ticks| - 1], ticks[|ticks| - 1];
      RunTracksMoves(c, w, init, completed, n, m);
      RunAgrees(c, w, init, completed, n, m);
      var v := Run(c, w, init);
      if tick.task < |v.tasks| {
        AdvanceOnTrack(c, v.sh, v.tasks[tick.task], tick.now, tick.answer, completed, n, m);
      }
    }
  }

  /** A fair wave of a total workflow ends with every goroutine successful. */
  lemma FairWaveSucceeds(c: Config, l: Loop, env: Environment, n: nat, m: map<string, Json>)
    requires Deterministic(c.def, c.input, n, m) && LogAgrees(c.Past(), Names(c.def.steps), m) && Total(c.def, m)
    requires LoopAgrees(c, l, m) && !l.sh.ctxDone && Fair(env, |c.def.steps|, n)
    ensures WaveTurn(c, l, env).Again? || (WaveTurn(c, l, env).Out? &&
            WaveTurn(c, l, env).output.result.ReplayCompleted?)
    ensures WaveTurn(c, l, env).Again? ==> !WaveTurn(c, l, env).next.sh.ctxDone
  {
    hide Deterministic, LogAgrees, FindReady, Run, Total, CacheAgrees, TaskAgrees;
    var ready := FindReady(c, l.completed);
    var start, w := Wave(l.sh.(groupDone := false), NewTasks(ready)), StartWave(c, l, ready, env);
    var ticks := env.schedule(l.waves);
    forall i | 0 <= i < |ready| ensures ReadyTask(c, start.tasks[i], l.completed) {
      ReadyMember(c, l.completed, ready[i]);
      assert ready[i] in ready;
    }
    StartAgrees(c, l, ready, m);
    RunTracksMoves(c, start, ticks, l.completed, n, m);
    ReadyNoMore(c, l.completed);
    forall i | 0 <= i < |w.tasks| ensures w.tasks[i].phase.Done? && w.tasks[i].phase.ending.Succeeded? {
      assert Moves(ticks, i) >= n + 4;
    }
    NoFailure(w.tasks);
  }

  lemma StartAgrees(c: Config, l: Loop, ready: seq<Step>, m: map<string, Json>)
    requires LoopAgrees(c, l, m)
    ensures var start := Wave(l.sh.(groupDone := false), NewTasks(ready));
            CacheAgrees(c, start.sh, l.completed, m) && forall i :: 0 <= i < |ready| ==>
                TaskAgrees(c, start.tasks[i], m)
  {}

  lemma {:induction false} NoFailure(tasks: seq<Task>)
    requires forall i :: 0 <= i < |tasks| ==> tasks[i].phase.Done? && tasks[i].phase.ending.Succeeded?
    ensures FirstFailure(tasks).None? && !AnyWaiting(tasks)
  {
    if tasks != [] {
      NoFailure(tasks[..|tasks| - 1]);
    }
  }

  lemma ReadyNoMore(c: Config, completed: set<string>)
    ensures |FindReady(c, completed)| <= |c.def.steps|
  {
    UnsortedNoMore(c, c.def.steps, completed);
    var u := Unsorted(c, c.def.steps, completed);
    assert |multiset(FindReady(c, completed))| == |FindReady(c, completed)|;
    assert |multiset(u)| == |u|;
  }

  lemma {:induction false} UnsortedNoMore(c: Config, steps: seq<Step>, completed: set<string>)
    ensures |Unsorted(c, steps, completed)| <= |steps|
  {
    if steps != [] {
      UnsortedNoMore(c, steps[..|steps| - 1], completed);
    }
  }

  lemma WavesComplete(c: Config, l: Loop, env: Environment, n: nat, m: map<string, Json>)
    requires Deterministic(c.def, c.input, n, m) && LogAgrees(c.Past(), Names(c.def.steps), m) && Total(c.def, m)
    requires LoopAgrees(c, l, m) && !l.sh.ctxDone && Fair(env, |c.def.steps|, n)
    ensures Waves(c, l, env).Some? && Waves(c, l, env).value.result.ReplayCompleted?
    decreases Names(c.def.steps) - l.completed
  {
    hide WaveTurn, Deterministic, LogAgrees, LoopAgrees, FindReady, Total, Fair;
    FairWaveSucceeds(c, l, env, n, m);
    TurnAgrees(c, l, env, n, m);
    match WaveTurn(c, l, env)
    case Again(next) =>
      TurnShrinks(c, l, env);
      WavesComplete(c, next, env, n, m);
    case _ =>
  }

  /** The step's recorded output, before this replay or by it, is the evaluation's. */
  ghost predicate StepHasOutput(c: Config, o: ReplayOutput, s: Step, m: map<string, Json>) {
    && s.name in m
    && (OutputOf(c.Past(), s.name) == Some(m[s.name]) || Execution(s, NodeEvents(s, o.emitted), Succeeded(m[s.name])))
  }

  /**
    Parallel replay preserves meaning. From any partial history that agrees with the sequential
    evaluation, under any fair interleaving and in any topological order, the replay ends completed,
    and every step's output, recorded before or now, is the one sequential evaluation gives.
  */
  lemma ParallelEqualsSequential(c: Config, env: Environment, n: nat, m: map<string, Json>)
    requires Deterministic(c.def, c.input, n, m) && LogAgrees(c.Past(), Names(c.def.steps), m) && Total(c.def, m)
    requires Runnable(c) && Fair(env, |c.def.steps|, n)
    ensures Replay(c, env).Some? && Replay(c, env).value.result.ReplayCompleted?
    ensures forall s :: s in c.def.steps ==> StepHasOutput(c, Replay(c, env).value, s, m)
  {
    hide Waves, Deterministic, LogAgrees, Total, Fair;
    assert LoopAgrees(c, FirstLoop(c, env), m) && !FirstLoop(c, env).sh.ctxDone by { FirstLoopAgrees(c, env, n, m); }
    WavesComplete(c, FirstLoop(c, env), env, n, m);
    ReplayAgrees(c, env, n, m);
    forall s | s in c.def.steps ensures StepHasOutput(c, Replay(c, env).value, s, m) {
      StepRecorded(c, env, n, m, s);
    }
  }

  lemma FirstLoopAgrees(c: Config, env: Environment, n: nat, m: map<string, Json>)
    requires Fair(env, |c.def.steps|, n)
    ensures LoopAgrees(c, FirstLoop(c, env), m) && !FirstLoop(c, env).sh.ctxDone
  {}

  lemma StepRecorded(c: Config, env: Environment, n: nat, m: map<string, Json>, s: Step)
    requires Deterministic(c.def, c.input, n, m) && LogAgrees(c.Past(), Names(c.def.steps), m) && Total(c.def, m)
    requires Runnable(c) && Replay(c, env).Some? && Replay(c, env).value.result.ReplayCompleted?
    requires EventsAgree(Replay(c, env).value.emitted, m) && s in c.def.steps
    ensures StepHasOutput(c, Replay(c, env).value, s, m)
  {
    hide Replay, IsEvaluation, WellDefined, Execution, FirstFatal;
    var o := Replay(c, env).value;
    PureIsPlain(c.def, s);
    assert Apart(c.def.steps, s.name) by {
      forall i | 0 <= i < |c.def.steps| ensures ApartFrom(c.def.steps[i], s.name) {
        PureIsPlain(c.def, c.def.steps[i]);
      }
    }
    ReplayExecutesOnce(c, env, s);
    if s.name !in CompletedBefore(c) {
      var output :| Execution(s, NodeEvents(s, o.emitted), Succeeded(output));
      CompletesAt(s, NodeEvents(s, o.emitted), output);
      var choice :| StepCompleted(s.name, Some(output), "", choice) in NodeEvents(s, o.emitted);
      FilterMember(OfNode(s.name), o.emitted, StepCompleted(s.name, Some(output), "", choice));
    }
  }

  /** The completion of a plain step carries no branch, whatever choice was on record. */
  lemma CompletesAt(s: Step, events: seq<Payload>, output: Json)
    requires s.Plain? && Execution(s, events, Succeeded(output))
    ensures exists choice :: StepCompleted(s.name, Some(output), "", choice) in events
  {
    var choice, k :| EndedAt(s, choice, events, Succeeded(output), k);
    assert events[2 * k + 1] in events;
  }

  /**
    The same for the sequential fold itself: a workflow of pure steps that all have an output under it
    completes with the fold's outputs, from any partial history that agrees with the fold.
  */
  lemma ReplayEvaluates(c: Config, env: Environment, n: nat)
    requires WellDefined(c.def) && PureSteps(c.def.steps) && Enough(c.def.steps, c.input, n)
    requires var m := Evaluate(c.def.steps, c.input, n); Total(c.def, m) && LogAgrees(c.Past(), Names(c.def.steps), m)
    requires Runnable(c) && Fair(env, |c.def.steps|, n)
    ensures Replay(c, env).Some? && Replay(c, env).value.result.ReplayCompleted?
    ensures forall s :: s in c.def.steps ==>
              StepHasOutput(c, Replay(c, env).value, s, Evaluate(c.def.steps, c.input, n))
  {
    hide Replay, Evaluate, Deterministic, Enough, LogAgrees, Total, Fair, Runnable;
    EnoughIsDeterministic(c.def, c.input, n);
    ParallelEqualsSequential(c, env, n, Evaluate(c.def.steps, c.input, n));
  }
}
