/** Where recorded results and choices come from: from the code they are recorded for, and from what it saw. */
module Provenance {
  import opened Events
  import opened Scans
  import opened Queries
  import opened Histories
  import opened Definitions
  import opened Engine
  import opened Executions
  import opened Replays
  import opened Decisions
  import opened Agreement

  // ----- Results -----

  /** The step's code, for the choice, answers some sequence of replies with the call. */
  ghost predicate CodeSays(s: Step, input: Json, choice: string, call: Call) {
    if s.Plain? then exists replies :: s.body(input, replies) == call
    else if choice in s.cases then exists replies :: s.cases[choice].body(input, replies) == call
    else if s.fallback.Some? then exists replies :: s.fallback.value.body(input, replies) == call
    else call.Fail?
  }

  /** The name that the events of the step carry, for the choice. */
  predicate Carries(s: Step, choice: string, name: string) {
    if s.Plain? then name == s.name
    else if choice in s.cases then name == (if s.cases[choice].name == "" then s.name else s.cases[choice].name)
    else if s.fallback.Some? then name == (if s.fallback.value.name == "" then s.name else s.fallback.value.name)
    else name == s.name
  }

  ghost predicate Ends(s: Step, input: Json, choice: string, p: Payload) {
    && (p.StepCompleted? ==> p.output.Some? && CodeSays(s, input, choice, Return(p.output.value)))
    && (p.StepFailed? ==> CodeSays(s, input, choice, Fail(p.error)))
  }

  ghost predicate TaskExplained(c: Config, t: Task) {
    forall p :: p in t.events ==> Ends(t.step, c.input, t.choice, p)
  }

  lemma NextIsCode(s: Step, input: Json, choice: string, replies: seq<Reply>)
    ensures s.Next(input, choice, replies).Return? || s.Next(input, choice, replies).Fail? ==>
              CodeSays(s, input, choice, s.Next(input, choice, replies))
    ensures Carries(s, choice, s.Label(choice))
  {
    if s.Branch? && choice in s.cases {
      assert s.cases[choice].body(input, replies) == s.Next(input, choice, replies);
    } else if s.Branch? && s.fallback.Some? {
      assert s.fallback.value.body(input, replies) == s.Next(input, choice, replies);
    }
  }

  lemma AdvanceExplained(c: Config, sh: Shared, t: Task, now: int, answer: Json)
    requires TaskExplained(c, t) && Tagged(t)
    ensures TaskExplained(c, Advance(c, sh, t, now, answer).1)
  {
    hide CodeSays, ChoiceOf, OutputMap, Visible, SignalOf;
    if t.phase.Running? {
      NextIsCode(t.step, c.input, t.choice, t.phase.replies);
    }
  }

  /** The goroutines of the ready steps, all of whose results are explained. */
  ghost predicate TasksExplained(c: Config, w: Wave, ready: seq<Step>) {
    TasksFor(w, ready) && forall i :: 0 <= i < |w.tasks| ==> TaskExplained(c, w.tasks[i])
  }

  lemma TakeExplained(c: Config, w: Wave, ready: seq<Step>, tick: Tick)
    requires TasksExplained(c, w, ready)
    ensures TasksExplained(c, Take(c, w, tick), ready)
  {
    hide Advance, TaskExplained, Grammar, Tagged;
    if tick.Move? && tick.task < |w.tasks| {
      AdvanceKeepsGrammar(c, w.sh, w.tasks[tick.task], tick.now, tick.answer);
      AdvanceKeepsTagged(c, w.sh, w.tasks[tick.task], tick.now, tick.answer);
      AdvanceExplained(c, w.sh, w.tasks[tick.task], tick.now, tick.answer);
    }
  }

  lemma {:induction false} RunExplained(c: Config, w: Wave, ready: seq<Step>, ticks: seq<Tick>)
    requires TasksExplained(c, w, ready)
    ensures TasksExplained(c, Run(c, w, ticks), ready)
  {
    if ticks != [] {
      hide Take, TasksExplained;
      RunExplained(c, w, ready, ticks[..|ticks| - 1]);
      TakeExplained(c, Run(c, w, ticks[..|ticks| - 1]), ready, ticks[|ticks| - 1]);
    }
  }

  /** A step event of the definition's own step, carrying the right name, with a result its code gave. */
  ghost predicate Explained(c: Config, p: Payload) {
    IsStepEvent(p) ==>
      exists s :: s in c.def.steps && p.branch == s.BranchName() && Carries(s, p.caseValue, p.step) &&
                  Ends(s, c.input, p.caseValue, p)
  }

  lemma WaveExplained(c: Config, l: Loop, env: Environment)
    requires forall p :: p in l.sh.emitted ==> Explained(c, p)
    ensures forall p :: p in Settle(StartWave(c, l, FindReady(c, l.completed), env)).emitted ==> Explained(c, p)
  {
    hide FindReady, Grammar, Ends, Carries, Run;
    var ready := FindReady(c, l.completed);
    var w := StartWave(c, l, ready, env);
    WaveFacts(c, l, ready, env);
    NewTasksExplained(c, l, ready);
    RunExplained(c, Wave(l.sh.(groupDone := false), NewTasks(ready)), ready, env.schedule(l.waves));
    forall p | p in Settle(w).emitted ensures Explained(c, p) {
      if p in Gather(w.tasks) {
        GatherMember(w.tasks, p);
        var i :| 0 <= i < |w.tasks| && p in w.tasks[i].events;
        assert TaskExplained(c, w.tasks[i]);
        assert ready[i] in ready;
        ReadyMember(c, l.completed, ready[i]);
        NextIsCode(ready[i], c.input, p.caseValue, []);
      } else {
        var i :| 0 <= i < |w.sh.emitted| && w.sh.emitted[i] == p;
        assert i < |l.sh.emitted| ==> l.sh.emitted[i] == p;
      }
    }
  }

  lemma NewTasksExplained(c: Config, l: Loop, ready: seq<Step>)
    ensures TasksExplained(c, Wave(l.sh.(groupDone := false), NewTasks(ready)), ready)
  {}

  lemma WavesExplained(c: Config, l: Loop, env: Environment)
    requires forall p :: p in l.sh.emitted ==> Explained(c, p)
    ensures Waves(c, l, env).Some? ==> forall p :: p in Waves(c, l, env).value.emitted ==> Explained(c, p)
    decreases Names(c.def.steps) - l.completed
  {
    hide FindReady, StartWave, Ends, Carries, Settle;
    WaveExplained(c, l, env);
    match WaveTurn(c, l, env)
    case Again(next) =>
      TurnShrinks(c, l, env);
      WavesExplained(c, next, env);
    case _ =>
  }

  /**
    Results come from the code they are recorded for. Every step event of a replay is of a step of
    the definition and carries its name, or for a branch the name of the case that its choice names,
    if there is one, else of the default; and every output and error recorded is what that code
    returned.
  */
  lemma ResultsComeFromCode(c: Config, env: Environment, p: Payload)
    requires Replay(c, env).Some? && p in Replay(c, env).value.emitted
    ensures Explained(c, p)
  {
    hide Waves, Ends, Carries;
    if Runnable(c) {
      WavesExplained(c, FirstLoop(c, env), env);
    }
  }

  // ----- Choices -----

  /** The output is on record, or one of the events completes a step of that name with it. */
  ghost predicate Known(c: Config, emitted: seq<Payload>, name: string, output: Json) {
    || OutputOf(c.Past(), name) == Some(output)
    || exists q :: q in emitted && q.StepCompleted? && q.step == name && q.output == Some(output)
  }

  /** What a selector is shown of the outputs: every one is known. */
  ghost predicate AllKnown(c: Config, emitted: seq<Payload>, outputs: map<string, Json>) {
    forall name :: name in outputs && name != "" ==> Known(c, emitted, name, outputs[name])
  }

  /** The steps whose outputs are sure to be in a map, when a step with these dependencies is ready. */
  ghost predicate ShowsDeps(c: Config, s: Step, outputs: map<string, Json>) {
    forall d, t :: d in s.deps && d != "" && t in c.def.steps && t.name == d && t.Plain? ==> d in outputs
  }

  /** A choice that the branch's selector made, on known outputs that include those of its plain dependencies. */
  ghost predicate Selected(c: Config, emitted: seq<Payload>, p: Payload) {
    p.BranchEvaluated? ==>
      exists s, outputs, answer {:trigger s.selector(c.input, outputs, answer)} ::
        && s in c.def.steps && s.Branch? && s.name == p.branch && s.selector(c.input, outputs, answer) == p.choice
        && AllKnown(c, emitted, outputs) && ShowsDeps(c, s, outputs)
  }

  ghost predicate AllSelected(c: Config, emitted: seq<Payload>) {
    forall p :: p in emitted ==> Selected(c, emitted, p)
  }

  lemma KnownGrows(c: Config, a: seq<Payload>, b: seq<Payload>, p: Payload)
    requires Selected(c, a, p) && forall q :: q in a ==> q in b
    ensures Selected(c, b, p)
  {
    if p.BranchEvaluated? {
      var s, outputs, answer :| s in c.def.steps && s.Branch? && s.name == p.branch
        && s.selector(c.input, outputs, answer) == p.choice && AllKnown(c, a, outputs) && ShowsDeps(c, s, outputs);
      assert AllKnown(c, b, outputs);
      assert s.selector(c.input, outputs, answer) == p.choice;
    }
  }

  /** All the events of a wave so far, emitted or kept back. */
  ghost predicate Shown(w: Wave, p: Payload) {
    p in w.sh.emitted || exists i :: 0 <= i < |w.tasks| && p in w.tasks[i].events
  }

  /** The state of a wave that began at `l`: the cache holds known outputs and all it held before. */
  ghost predicate WaveKnows(c: Config, l: Loop, w: Wave, ready: seq<Step>) {
    && |w.tasks| == |ready| && (forall i :: 0 <= i < |ready| ==> w.tasks[i].step == ready[i])
    && (forall name :: name in l.sh.cache ==> name in w.sh.cache)
    && (forall name :: name in w.sh.cache && name != "" ==> KnownIn(w, name, w.sh.cache[name]))
    && (forall p :: p in l.sh.emitted ==> p in w.sh.emitted)
    && (forall p :: p in w.sh.emitted && p.BranchEvaluated? && p !in l.sh.emitted ==> SelectedIn(c, w, p))
  }

  ghost predicate KnownIn(w: Wave, name: string, output: Json) {
    exists q :: Shown(w, q) && q.StepCompleted? && q.step == name && q.output == Some(output)
  }

  ghost predicate MapKnownIn(c: Config, w: Wave, outputs: map<string, Json>) {
    forall name :: name in outputs && name != "" ==>
      OutputOf(c.Past(), name) == Some(outputs[name]) || KnownIn(w, name, outputs[name])
  }

  ghost predicate SelectedIn(c: Config, w: Wave, p: Payload)
    requires p.BranchEvaluated?
  {
    exists s, outputs, answer {:trigger s.selector(c.input, outputs, answer)} ::
      && s in c.def.steps && s.Branch? && s.name == p.branch && s.selector(c.input, outputs, answer) == p.choice
      && MapKnownIn(c, w, outputs) && ShowsDeps(c, s, outputs)
  }

  /** A move adds to what is shown and takes nothing away. */
  ghost predicate ShowsMore(w: Wave, v: Wave) {
    forall p :: Shown(w, p) ==> Shown(v, p)
  }

  lemma SelectedStays(c: Config, w: Wave, v: Wave, p: Payload)
    requires p.BranchEvaluated? && SelectedIn(c, w, p) && ShowsMore(w, v)
    ensures SelectedIn(c, v, p)
  {
    hide Shown;
    var s, outputs, answer :| s in c.def.steps && s.Branch? && s.name == p.branch
      && s.selector(c.input, outputs, answer) == p.choice && MapKnownIn(c, w, outputs) && ShowsDeps(c, s, outputs);
    assert MapKnownIn(c, v, outputs);
    assert s.selector(c.input, outputs, answer) == p.choice;
  }

  /** What one move does to the goroutine, the cache and the shared events. */
  lemma AdvanceShows(c: Config, sh: Shared, t: Task, now: int, answer: Json)
    ensures var (sh', t') := Advance(c, sh, t, now, answer);
            && t'.step == t.step && (forall p :: p in t.events ==> p in t'.events)
            && (forall p :: p in sh.emitted ==> p in sh'.emitted)
            && (forall name :: name in sh.cache ==> name in sh'.cache)
            && (forall name :: name in sh'.cache && name != ""
                               && !(name in sh.cache && sh'.cache[name] == sh.cache[name]) ==>
                  exists q :: q in t'.events && q.StepCompleted? && q.step == name && q.output == Some(sh'.cache[name]))
  {
    hide ChoiceOf, OutputMap, SignalOf, Visible;
    var (sh', t') := Advance(c, sh, t, now, answer);
    if sh'.cache != sh.cache {
      assert t'.events[|t.events|] in t'.events;
    }
  }

  /** A selector that runs is shown what was recorded and what is cached. */
  lemma EnterSelects(c: Config, sh: Shared, t: Task, now: int, answer: Json, p: Payload)
    requires p in Advance(c, sh, t, now, answer).0.emitted && p.BranchEvaluated? && p !in sh.emitted
    ensures t.step.Branch? && t.step.name == p.branch
    ensures t.step.selector(c.input, OutputMap(c.Past()) + sh.cache, answer) == p.choice
  {
    hide ChoiceOf, OutputMap, SignalOf, Visible;
  }

  /** A ready step's plain dependencies have outputs on record or in the cache. */
  ghost predicate DepsHeld(c: Config, l: Loop) {
    forall t :: t in c.def.steps && t.Plain? && t.name != "" && t.name in l.completed ==>
      OutputOf(c.Past(), t.name).Some? || t.name in l.sh.cache
  }

  lemma MapShows(c: Config, l: Loop, s: Step, outputs: map<string, Json>)
    requires DepsHeld(c, l) && IsReady(c, s, l.completed)
    requires forall name :: OutputOf(c.Past(), name).Some? || name in l.sh.cache ==> name in outputs
    ensures ShowsDeps(c, s, outputs)
  {}

  lemma RecordedInMap(c: Config, name: string)
    ensures OutputOf(c.Past(), name) == if name in OutputMap(c.Past()) then Some(OutputMap(c.Past())[name]) else None
  {
    OutputMapMirrors(c.Past());
    assert Agrees(OutputMap(c.Past()), c.Past(), OutputView, name);
  }

  lemma MoveKnows(c: Config, l: Loop, w: Wave, ready: seq<Step>, i: nat, now: int, answer: Json)
    requires WaveKnows(c, l, w, ready) && DepsHeld(c, l) && i < |w.tasks|
    requires forall k :: 0 <= k < |ready| ==> ready[k] in c.def.steps && IsReady(c, ready[k], l.completed)
    ensures WaveKnows(c, l, Take(c, w, Move(i, now, answer)), ready)
  {
    hide Advance, OutputMap, SelectedIn, IsReady, KnownIn;
    var v := Take(c, w, Move(i, now, answer));
    AdvanceShows(c, w.sh, w.tasks[i], now, answer);
    MoveShowsMore(c, w, i, now, answer);
    forall name | name in v.sh.cache && name != "" ensures KnownIn(v, name, v.sh.cache[name]) {
      MoveKnowsName(c, w, i, now, answer, name);
    }
    forall p | p in v.sh.emitted && p.BranchEvaluated? && p !in l.sh.emitted ensures SelectedIn(c, v, p) {
      if p in w.sh.emitted {
        SelectedStays(c, w, v, p);
      } else {
        MoveSelects(c, l, w, ready, i, now, answer, p);
      }
    }
  }

  lemma MoveShowsMore(c: Config, w: Wave, i: nat, now: int, answer: Json)
    requires i < |w.tasks|
    ensures ShowsMore(w, Take(c, w, Move(i, now, answer)))
  {
    hide Advance;
    var v := Take(c, w, Move(i, now, answer));
    AdvanceShows(c, w.sh, w.tasks[i], now, answer);
    forall p | Shown(w, p) ensures Shown(v, p) {
      if p !in w.sh.emitted {
        var k :| 0 <= k < |w.tasks| && p in w.tasks[k].events;
        assert p in v.tasks[k].events;
      }
    }
  }

  lemma MoveKnowsName(c: Config, w: Wave, i: nat, now: int, answer: Json, name: string)
    requires i < |w.tasks|
    requires forall n :: n in w.sh.cache && n != "" ==> KnownIn(w, n, w.sh.cache[n])
    requires name in Take(c, w, Move(i, now, answer)).sh.cache && name != ""
    ensures var v := Take(c, w, Move(i, now, answer)); KnownIn(v, name, v.sh.cache[name])
  {
    hide Advance;
    var v := Take(c, w, Move(i, now, answer));
    AdvanceShows(c, w.sh, w.tasks[i], now, answer);
    MoveShowsMore(c, w, i, now, answer);
    if name in w.sh.cache && v.sh.cache[name] == w.sh.cache[name] {
      KnownStays(w, v, name, v.sh.cache[name]);
    } else {
      var q :| q in v.tasks[i].events && q.StepCompleted? && q.step == name && q.output == Some(v.sh.cache[name]);
      assert Shown(v, q);
    }
  }

  lemma KnownStays(w: Wave, v: Wave, name: string, output: Json)
    requires ShowsMore(w, v) && KnownIn(w, name, output)
    ensures KnownIn(v, name, output)
  {
    hide Shown;
  }

  lemma MoveSelects(c: Config, l: Loop, w: Wave, ready: seq<Step>, i: nat, now: int, answer: Json, p: Payload)
    requires WaveKnows(c, l, w, ready) && DepsHeld(c, l) && i < |w.tasks|
    requires forall k :: 0 <= k < |ready| ==> ready[k] in c.def.steps && IsReady(c, ready[k], l.completed)
    requires p in Take(c, w, Move(i, now, answer)).sh.emitted && p.BranchEvaluated? && p !in w.sh.emitted
    ensures SelectedIn(c, Take(c, w, Move(i, now, answer)), p)
  {
    hide OutputMap, Advance, IsReady, KnownIn;
    var v, s := Take(c, w, Move(i, now, answer)), ready[i];
    EnterSelects(c, w.sh, w.tasks[i], now, answer, p);
    MoveShowsMore(c, w, i, now, answer);
    var outputs := OutputMap(c.Past()) + w.sh.cache;
    forall name ensures OutputOf(c.Past(), name).Some? || name in l.sh.cache ==> name in outputs {
      RecordedInMap(c, name);
    }
    MapShows(c, l, s, outputs);
    forall name | name in outputs && name != ""
      ensures OutputOf(c.Past(), name) == Some(outputs[name]) || KnownIn(v, name, outputs[name])
    {
      RecordedInMap(c, name);
      if name in w.sh.cache {
        KnownStays(w, v, name, outputs[name]);
      }
    }
    assert MapKnownIn(c, v, outputs);
    assert s.selector(c.input, outputs, answer) == p.choice;
  }

  lemma {:induction false} RunKnows(c: Config, l: Loop, w: Wave, ready: seq<Step>, ticks: seq<Tick>)
    requires WaveKnows(c, l, w, ready) && DepsHeld(c, l)
    requires forall k :: 0 <= k < |ready| ==> ready[k] in c.def.steps && IsReady(c, ready[k], l.completed)
    ensures WaveKnows(c, l, Run(c, w, ticks), ready)
  {
    if ticks != [] {
      hide Advance, WaveKnows, IsReady, DepsHeld;
      var init, tick := ticks[..|ticks| - 1], ticks[|ticks| - 1];
      RunKnows(c, l, w, ready, init);
      var v := Run(c, w, init);
      match tick
      case Cancel => CancelKnows(c, l, v, ready);
      case Move(i, now, answer) => if i < |v.tasks| { MoveKnows(c, l, v, ready, i, now, answer); }
    }
  }

  lemma CancelKnows(c: Config, l: Loop, w: Wave, ready: seq<Step>)
    requires WaveKnows(c, l, w, ready)
    ensures WaveKnows(c, l, Take(c, w, Cancel), ready)
  {
    hide SelectedIn;
    var v := Take(c, w, Cancel);
    assert ShowsMore(w, v) by {
      forall p | Shown(w, p) ensures Shown(v, p) {}
    }
    forall name | name in v.sh.cache && name != "" ensures KnownIn(v, name, v.sh.cache[name]) {
      KnownStays(w, v, name, v.sh.cache[name]);
    }
    forall p | p in v.sh.emitted && p.BranchEvaluated? && p !in l.sh.emitted ensures SelectedIn(c, v, p) {
      SelectedStays(c, w, v, p);
    }
  }

  /** At the head of the loop: cached outputs are those of events, choices were selected, and dependencies are held. */
  ghost predicate LoopKnows(c: Config, l: Loop) {
    && DepsHeld(c, l) && AllSelected(c, l.sh.emitted)
    && forall name :: name in l.sh.cache && name != "" ==>
         exists q :: q in l.sh.emitted && q.StepCompleted? && q.step == name && q.output == Some(l.sh.cache[name])
  }

  /** Once a wave is over, all it showed is among its events. */
  lemma ShownIsSettled(w: Wave, p: Payload)
    ensures Shown(w, p) <==> p in Settle(w).emitted
  {
    GatherMember(w.tasks, p);
  }

  lemma SettledSelects(c: Config, w: Wave, p: Payload)
    requires p.BranchEvaluated? && SelectedIn(c, w, p)
    ensures Selected(c, Settle(w).emitted, p)
  {
    hide Shown, Settle;
    var s, outputs, answer :| s in c.def.steps && s.Branch? && s.name == p.branch
      && s.selector(c.input, outputs, answer) == p.choice && MapKnownIn(c, w, outputs) && ShowsDeps(c, s, outputs);
    forall name | name in outputs && name != "" ensures Known(c, Settle(w).emitted, name, outputs[name]) {
      if OutputOf(c.Past(), name) != Some(outputs[name]) {
        var q :| Shown(w, q) && q.StepCompleted? && q.step == name && q.output == Some(outputs[name]);
        ShownIsSettled(w, q);
      }
    }
    assert AllKnown(c, Settle(w).emitted, outputs);
    assert s.selector(c.input, outputs, answer) == p.choice;
  }

  lemma WaveSelects(c: Config, l: Loop, env: Environment)
    requires LoopKnows(c, l)
    ensures var w := StartWave(c, l, FindReady(c, l.completed), env);
            && AllSelected(c, Settle(w).emitted)
            && (forall name :: name in w.sh.cache && name != "" ==>
                  exists q :: q in Settle(w).emitted && q.StepCompleted? && q.step == name
                              && q.output == Some(w.sh.cache[name]))
            && forall name :: name in l.sh.cache ==> name in w.sh.cache
  {
    hide FindReady, Run, Selected, SelectedIn, Shown, IsReady, Settle, DepsHeld;
    var ready := FindReady(c, l.completed);
    var start, w := Wave(l.sh.(groupDone := false), NewTasks(ready)), StartWave(c, l, ready, env);
    forall k | 0 <= k < |ready| ensures ready[k] in c.def.steps && IsReady(c, ready[k], l.completed) {
      ReadyMember(c, l.completed, ready[k]);
    }
    StartKnows(c, l, ready);
    RunKnows(c, l, start, ready, env.schedule(l.waves));
    WaveFacts(c, l, ready, env);
    forall p | p in Settle(w).emitted ensures Selected(c, Settle(w).emitted, p) {
      WaveSelectsOne(c, l, w, ready, p);
    }
    forall name | name in w.sh.cache && name != ""
      ensures exists q :: q in Settle(w).emitted && q.StepCompleted? && q.step == name
                          && q.output == Some(w.sh.cache[name])
    {
      var q :| Shown(w, q) && q.StepCompleted? && q.step == name && q.output == Some(w.sh.cache[name]);
      ShownIsSettled(w, q);
    }
  }

  lemma GatheredIsStepEvent(w: Wave, ready: seq<Step>, p: Payload)
    requires TasksFor(w, ready) && p in Settle(w).emitted
    ensures p in w.sh.emitted || IsStepEvent(p)
  {
    hide Grammar;
    GatherMember(w.tasks, p);
  }

  lemma WaveSelectsOne(c: Config, l: Loop, w: Wave, ready: seq<Step>, p: Payload)
    requires LoopKnows(c, l) && WaveKnows(c, l, w, ready) && TasksFor(w, ready) && p in Settle(w).emitted
    ensures Selected(c, Settle(w).emitted, p)
  {
    hide Selected, SelectedIn, Grammar, DepsHeld;
    GatheredIsStepEvent(w, ready, p);
    if p.BranchEvaluated? {
      if p in l.sh.emitted {
        KnownGrows(c, l.sh.emitted, Settle(w).emitted, p);
      } else {
        SettledSelects(c, w, p);
      }
    } else {
      NotAChoice(c, Settle(w).emitted, p);
    }
  }

  lemma NotAChoice(c: Config, emitted: seq<Payload>, p: Payload)
    requires !p.BranchEvaluated?
    ensures Selected(c, emitted, p)
  {}

  lemma StartKnows(c: Config, l: Loop, ready: seq<Step>)
    requires LoopKnows(c, l)
    ensures WaveKnows(c, l, Wave(l.sh.(groupDone := false), NewTasks(ready)), ready)
  {
    hide Selected;
    var w := Wave(l.sh.(groupDone := false), NewTasks(ready));
    forall name | name in w.sh.cache && name != "" ensures KnownIn(w, name, w.sh.cache[name]) {
      var q :| q in l.sh.emitted && q.StepCompleted? && q.step == name && q.output == Some(l.sh.cache[name]);
      assert Shown(w, q);
    }
  }

  lemma TurnKnows(c: Config, l: Loop, env: Environment)
    requires DistinctNames(c.def.steps) && LoopKnows(c, l) && WaveTurn(c, l, env).Again?
    ensures LoopKnows(c, WaveTurn(c, l, env).next)
  {
    hide FindReady, StartWave, Selected, Grammar, Tagged;
    var ready := FindReady(c, l.completed);
    var w := StartWave(c, l, ready, env);
    WaveSelects(c, l, env);
    CleanPlainCached(c, l, env);
  }

  /** After a wave in which all succeeded, every plain step of the wave has its output in the cache. */
  lemma CleanPlainCached(c: Config, l: Loop, env: Environment)
    requires DistinctNames(c.def.steps) && WaveTurn(c, l, env).Again?
    ensures forall t :: t in c.def.steps && t.Plain? && t.name in Names(FindReady(c, l.completed)) ==>
              t.name in StartWave(c, l, FindReady(c, l.completed), env).sh.cache
  {
    hide FindReady, Run, Grammar, Tagged, Extends, Settle;
    var ready := FindReady(c, l.completed);
    var w := StartWave(c, l, ready, env);
    WaveFacts(c, l, ready, env);
    RunCaches(c, Wave(l.sh.(groupDone := false), NewTasks(ready)), env.schedule(l.waves));
    AllSucceeded(w.tasks);
    forall i | 0 <= i < |ready| && ready[i].Plain? ensures ready[i].name in w.sh.cache {
      assert HasSucceeded(w.tasks[i].phase, w.tasks[i].phase.ending.output);
    }
    forall t | t in c.def.steps && t.Plain? && t.name in Names(ready)
      ensures t.name in w.sh.cache
    {
      ReadyNames(c, l.completed, t);
      var i :| 0 <= i < |ready| && ready[i] == t;
    }
  }

  lemma FirstLoopKnows(c: Config, env: Environment)
    ensures LoopKnows(c, FirstLoop(c, env))
  {
    hide OutputOf;
    forall p | p in Opening(c) ensures Selected(c, Opening(c), p) {
      NotAChoice(c, Opening(c), p);
    }
  }

  lemma CompletedSelects(c: Config, emitted: seq<Payload>, output: Option<Json>)
    requires AllSelected(c, emitted)
    ensures AllSelected(c, emitted + [WorkflowCompleted(output)])
  {
    hide Selected;
    var more := emitted + [WorkflowCompleted(output)];
    forall p | p in more ensures Selected(c, more, p) {
      if p in emitted {
        KnownGrows(c, emitted, more, p);
      } else {
        NotAChoice(c, more, p);
      }
    }
  }

  lemma WavesSelect(c: Config, l: Loop, env: Environment)
    requires DistinctNames(c.def.steps) && LoopKnows(c, l)
    ensures Waves(c, l, env).Some? ==> AllSelected(c, Waves(c, l, env).value.emitted)
    decreases Names(c.def.steps) - l.completed
  {
    hide FindReady, StartWave, AllSelected, Settle, DistinctNames;
    match WaveTurn(c, l, env)
    case Again(next) =>
      TurnKnows(c, l, env);
      TurnShrinks(c, l, env);
      WavesSelect(c, next, env);
    case Out(_) =>
      CompletedSelects(c, l.sh.emitted, l.finalOutput);
      WaveSelects(c, l, env);
    case Dead =>
  }

  /**
    Choices come from selectors that know the outputs before them. Whatever choice a replay records
    for a branch, the branch's selector made it on outputs that are each on record or of a step
    completed in this replay, and among them are those of all its plain dependencies, also of
    dependencies that ran in this same replay.
  */
  lemma ChoicesAreSelected(c: Config, env: Environment, p: Payload)
    requires DistinctNames(c.def.steps) && Replay(c, env).Some?
    requires p in Replay(c, env).value.emitted && p.BranchEvaluated?
    ensures exists s, outputs, answer {:trigger s.selector(c.input, outputs, answer)} ::
              && s in c.def.steps && s.Branch? && s.name == p.branch
              && s.selector(c.input, outputs, answer) == p.choice
              && AllKnown(c, Replay(c, env).value.emitted, outputs) && ShowsDeps(c, s, outputs)
  {
    hide Waves, DistinctNames, AllKnown, ShowsDeps;
    FirstLoopKnows(c, env);
    if Runnable(c) {
      WavesSelect(c, FirstLoop(c, env), env);
      assert Selected(c, Replay(c, env).value.emitted, p);
    }
  }
}
