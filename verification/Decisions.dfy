/** What a replay may append to a log: the kinds of events, branch choices, and waits for signals. */
module Decisions {
  import opened Events
  import opened Scans
  import opened Queries
  import opened Definitions
  import opened Engine
  import opened Executions
  import opened Replays

  // ---------------------------------------------------------------------------------------------
  // Kinds of events

  /** A step event that some step of the definition can produce. */
  ghost predicate FromStep(def: Definition, p: Payload)
    requires IsStepEvent(p)
  {
    && (p.StepCompleted? ==> p.output.Some?)
    && exists s :: s in def.steps && p.step == s.Label(p.caseValue) && p.branch == s.BranchName()
  }

  ghost predicate Allowed(c: Config, p: Payload) {
    || IsDirect(c, p)
    || (IsStepEvent(p) && FromStep(c.def, p))
    || (p.WorkflowStarted? && InputOf(c.Past()).None?)
  }

  ghost predicate AllAllowed(c: Config, ps: seq<Payload>) {
    forall p :: p in ps ==> Allowed(c, p)
  }

  /** One workflow.completed at the very end of a replay that completes, and none elsewhere. */
  ghost predicate KindsPost(c: Config, o: ReplayOutput) {
    if o.result.ReplayCompleted? then
      o.emitted != [] && o.emitted[|o.emitted| - 1].WorkflowCompleted? && AllAllowed(c, o.emitted[..|o.emitted| - 1])
    else AllAllowed(c, o.emitted)
  }

  ghost predicate OutputsGiven(t: Task) {
    forall p :: p in t.events && p.StepCompleted? ==> p.output.Some?
  }

  lemma {:induction false} RunOutputsGiven(c: Config, w: Wave, ticks: seq<Tick>)
    requires forall i :: 0 <= i < |w.tasks| ==> OutputsGiven(w.tasks[i])
    ensures forall i :: 0 <= i < |Run(c, w, ticks).tasks| ==> OutputsGiven(Run(c, w, ticks).tasks[i])
  {
    if ticks != [] {
      RunOutputsGiven(c, w, ticks[..|ticks| - 1]);
    }
  }

  lemma WaveAllowed(c: Config, l: Loop, env: Environment)
    requires AllAllowed(c, l.sh.emitted)
    ensures AllAllowed(c, Settle(StartWave(c, l, FindReady(c, l.completed), env)).emitted)
  {
    hide FindReady, Grammar;
    var ready := FindReady(c, l.completed);
    var w := StartWave(c, l, ready, env);
    WaveFacts(c, l, ready, env);
    RunOutputsGiven(c, Wave(l.sh.(groupDone := false), NewTasks(ready)), env.schedule(l.waves));
    forall p | p in Settle(w).emitted ensures Allowed(c, p) {
      if p in Gather(w.tasks) {
        GatherMember(w.tasks, p);
        var i :| 0 <= i < |w.tasks| && p in w.tasks[i].events;
        assert ready[i] in ready;
        ReadyMember(c, l.completed, ready[i]);
        assert OutputsGiven(w.tasks[i]);
      } else {
        var i :| 0 <= i < |w.sh.emitted| && w.sh.emitted[i] == p;
        assert i < |l.sh.emitted| ==> l.sh.emitted[i] == p;
      }
    }
  }

  lemma WavesKinds(c: Config, l: Loop, env: Environment)
    requires AllAllowed(c, l.sh.emitted)
    ensures Waves(c, l, env).Some? ==> KindsPost(c, Waves(c, l, env).value)
    decreases Names(c.def.steps) - l.completed
  {
    hide StartWave, Settle, FindReady, Allowed;
    WaveAllowed(c, l, env);
    match WaveTurn(c, l, env)
    case Again(next) =>
      TurnShrinks(c, l, env);
      WavesKinds(c, next, env);
    case Out(o) =>
      if o.result.ReplayCompleted? {
        assert o.emitted[..|o.emitted| - 1] == l.sh.emitted;
      }
    case Dead =>
  }

  /** Whatever the ending, a replay emits only events of the allowed kinds. */
  lemma ReplayKinds(c: Config, env: Environment)
    requires Replay(c, env).Some?
    ensures var o := Replay(c, env).value;
            if IsCompleted(c.Past()) then o.emitted == [] else KindsPost(c, o)
  {
    hide Waves;
    assert AllAllowed(c, Opening(c));
    if Runnable(c) {
      WavesKinds(c, FirstLoop(c, env), env);
    }
  }

  // ---------------------------------------------------------------------------------------------
  // Branch choices

  function EvaluatedAs(branch: string): Payload -> bool {
    (p: Payload) => p.BranchEvaluated? && p.branch == branch
  }

  lemma EvaluatedIffChosen(ps: seq<Payload>, branch: string)
    ensures Count(EvaluatedAs(branch), ps) == 0 <==> ChoiceOf(ps, branch).None?
  {
    FilterNone(EvaluatedAs(branch), ps);
    LastNone(ps, ChoiceView(branch));
    forall p ensures EvaluatedAs(branch)(p) <==> ChoiceView(branch)(p).Some? {}
  }

  /**
    A branch is evaluated at most once, and all events of its executions carry that choice. The events
    of a branch without a name do not tell that they are a branch's.
  */
  ghost predicate Decided(ps: seq<Payload>, branch: string) {
    && Count(EvaluatedAs(branch), ps) <= 1
    && (branch != "" ==>
          forall p :: p in ps && IsStepEvent(p) && p.branch == branch ==> ChoiceOf(ps, branch) == Some(p.caseValue))
  }

  /** From `a` to `b` a choice, once made, has stayed, and was not made twice. */
  ghost predicate ChoiceKept(a: seq<Payload>, b: seq<Payload>, branch: string) {
    && (ChoiceOf(a, branch).Some? ==> ChoiceOf(b, branch) == ChoiceOf(a, branch))
    && (ChoiceOf(a, branch).Some? ==> Count(EvaluatedAs(branch), b) == Count(EvaluatedAs(branch), a))
    && (Count(EvaluatedAs(branch), a) <= 1 ==> Count(EvaluatedAs(branch), b) <= 1)
  }

  lemma ChoiceKeptPush(a: seq<Payload>, p: Payload, branch: string)
    requires p.BranchEvaluated? ==> ChoiceOf(a, p.branch).None?
    ensures ChoiceKept(a, a + [p], branch)
  {
    LastPush(a, p, ChoiceView(branch));
    FilterPush(EvaluatedAs(branch), a, p);
    EvaluatedIffChosen(a, branch);
  }

  /** A goroutine past its entry holds the recorded choice of its branch. */
  ghost predicate HoldsChoice(c: Config, emitted: seq<Payload>, t: Task) {
    t.step.Branch? && (t.events != [] || t.phase.Starting? || t.phase.Running? || t.phase.BackingOff?) ==>
      ChoiceOf(c.Past() + emitted, t.step.name) == Some(t.choice)
  }

  lemma AdvanceKeepsChoice(c: Config, sh: Shared, t: Task, now: int, answer: Json, branch: string)
    ensures var (sh', t') := Advance(c, sh, t, now, answer);
            && ChoiceKept(c.Past() + sh.emitted, c.Past() + sh'.emitted, branch)
            && (HoldsChoice(c, sh.emitted, t) && (t.phase.Entering? ==> t.events == []) ==>
                HoldsChoice(c, sh'.emitted, t'))
  {
    hide ChoiceOf, Count;
    var (sh', t') := Advance(c, sh, t, now, answer);
    var x := c.Past() + sh.emitted;
    if sh'.emitted != sh.emitted {
      var p := sh'.emitted[|sh.emitted|];
      assert sh'.emitted == sh.emitted + [p];
      assert c.Past() + sh'.emitted == x + [p];
      ChoiceKeptPush(x, p, branch);
      ChoiceKeptPush(x, p, t.step.name);
      if p.BranchEvaluated? {
        EvaluatedIsChosen(x, p);
      }
    }
  }

  lemma EvaluatedIsChosen(x: seq<Payload>, p: Payload)
    requires p.BranchEvaluated?
    ensures ChoiceOf(x + [p], p.branch) == Some(p.choice)
  {
    LastPush(x, p, ChoiceView(p.branch));
  }

  /** All goroutines of the wave hold their choices, and the branch in question kept its own. */
  ghost predicate WaveChoices(c: Config, start: seq<Payload>, w: Wave, branch: string) {
    && ChoiceKept(c.Past() + start, c.Past() + w.sh.emitted, branch)
    && forall i :: 0 <= i < |w.tasks| && w.tasks[i].step.name == branch ==>
         HoldsChoice(c, w.sh.emitted, w.tasks[i]) && (w.tasks[i].phase.Entering? ==> w.tasks[i].events == [])
  }

  lemma {:induction false} RunKeepsChoices(c: Config, w: Wave, ticks: seq<Tick>, branch: string)
    requires forall i :: 0 <= i < |w.tasks| ==> w.tasks[i].events == [] && w.tasks[i].phase.Entering?
    ensures WaveChoices(c, w.sh.emitted, Run(c, w, ticks), branch)
  {
    hide ChoiceOf, Count, Advance;
    if ticks != [] {
      var init, tick := ticks[..|ticks| - 1], ticks[|ticks| - 1];
      RunKeepsChoices(c, w, init, branch);
      var v := Run(c, w, init);
      if tick.Move? && tick.task < |v.tasks| {
        AdvanceKeepsChoice(c, v.sh, v.tasks[tick.task], tick.now, tick.answer, branch);
        AdvanceStays(c, v.sh, v.tasks[tick.task], tick.now, tick.answer);
      }
    }
  }

  lemma AdvanceStays(c: Config, sh: Shared, t: Task, now: int, answer: Json)
    ensures Advance(c, sh, t, now, answer).1.step == t.step
    ensures !Advance(c, sh, t, now, answer).1.phase.Entering?
  {}

  lemma NoChoicesAdded(a: seq<Payload>, b: seq<Payload>, branch: string)
    requires forall p :: p in b ==> !p.BranchEvaluated?
    ensures ChoiceOf(a + b, branch) == ChoiceOf(a, branch)
    ensures Count(EvaluatedAs(branch), a + b) == Count(EvaluatedAs(branch), a)
  {
    LastAppend(a, b, ChoiceView(branch));
    LastNone(b, ChoiceView(branch));
    FilterAppend(EvaluatedAs(branch), a, b);
    FilterNone(EvaluatedAs(branch), b);
  }

  lemma WaveDecides(c: Config, l: Loop, env: Environment, branch: string)
    requires Decided(c.Past() + l.sh.emitted, branch)
    ensures var after := c.Past() + Settle(StartWave(c, l, FindReady(c, l.completed), env)).emitted;
            Decided(after, branch) && ChoiceKept(c.Past() + l.sh.emitted, after, branch)
  {
    hide FindReady, Run, ChoiceOf, Count, Grammar;
    var ready := FindReady(c, l.completed);
    var w := StartWave(c, l, ready, env);
    WaveFacts(c, l, ready, env);
    RunKeepsChoices(c, Wave(l.sh.(groupDone := false), NewTasks(ready)), env.schedule(l.waves), branch);
    var x, y, after := c.Past() + l.sh.emitted, c.Past() + w.sh.emitted, c.Past() + Settle(w).emitted;
    assert after == y + Gather(w.tasks);
    forall p | p in Gather(w.tasks)
      ensures IsStepEvent(p) && (branch != "" && p.branch == branch ==> ChoiceOf(y, branch) == Some(p.caseValue))
    {
      GatherMember(w.tasks, p);
      var i :| 0 <= i < |w.tasks| && p in w.tasks[i].events;
    }
    NoChoicesAdded(y, Gather(w.tasks), branch);
    forall p | branch != "" && p in after && IsStepEvent(p) && p.branch == branch
      ensures ChoiceOf(after, branch) == Some(p.caseValue)
    {
      if p !in Gather(w.tasks) {
        OnlyOldSteps(c, l.sh.emitted, w.sh.emitted, p);
      }
    }
  }

  /** Step events are only emitted once a wave is over. */
  lemma OnlyOldSteps(c: Config, before: seq<Payload>, now: seq<Payload>, p: Payload)
    requires Extends(c, before, now) && p in c.Past() + now && IsStepEvent(p)
    ensures p in c.Past() + before
  {
    if p !in c.Past() {
      var i :| 0 <= i < |now| && now[i] == p;
      assert i < |before| && before[i] == p;
    }
  }

  lemma WavesDecide(c: Config, l: Loop, env: Environment, branch: string)
    requires Decided(c.Past() + l.sh.emitted, branch)
    ensures Waves(c, l, env).Some? ==>
              var after := c.Past() + Waves(c, l, env).value.emitted;
              Decided(after, branch) && ChoiceKept(c.Past() + l.sh.emitted, after, branch)
    decreases Names(c.def.steps) - l.completed
  {
    hide StartWave, Settle, FindReady, ChoiceOf, Count;
    WaveDecides(c, l, env, branch);
    match WaveTurn(c, l, env)
    case Again(next) =>
      TurnShrinks(c, l, env);
      WavesDecide(c, next, env, branch);
    case Out(o) =>
      if o.result.ReplayCompleted? {
        CompletedDecides(c.Past(), l.sh.emitted, WorkflowCompleted(l.finalOutput), branch);
      }
    case Dead =>
  }

  lemma CompletedDecides(past: seq<Payload>, emitted: seq<Payload>, p: Payload, branch: string)
    requires Decided(past + emitted, branch) && !p.BranchEvaluated? && !IsStepEvent(p)
    ensures Decided(past + (emitted + [p]), branch) && ChoiceKept(past + emitted, past + (emitted + [p]), branch)
  {
    assert past + (emitted + [p]) == past + emitted + [p];
    NoChoicesAdded(past + emitted, [p], branch);
  }

  lemma OpeningDecides(c: Config, branch: string)
    requires Decided(c.Past(), branch)
    ensures Decided(c.Past() + Opening(c), branch) && ChoiceKept(c.Past(), c.Past() + Opening(c), branch)
  {
    assert c.Past() + [] == c.Past();
    if Opening(c) != [] {
      assert Opening(c) == [] + Opening(c);
      CompletedDecides(c.Past(), [], Opening(c)[0], branch);
    }
  }

  /**
    Branch decisions are immutable: a replay evaluates no branch whose choice is in the log, at
    most once any other, and every event it records for a branch carries the one recorded choice.
  */
  lemma BranchesDecidedOnce(c: Config, env: Environment, branch: string)
    requires Replay(c, env).Some? && Decided(c.Past(), branch)
    ensures var after := c.Past() + Replay(c, env).value.emitted;
            && Decided(after, branch) && ChoiceKept(c.Past(), after, branch)
            && (ChoiceOf(c.Past(), branch).Some? ==> forall p :: p in Replay(c, env).value.emitted ==>
                !EvaluatedAs(branch)(p))
  {
    hide Waves, Count, ChoiceOf, FirstFatal, Opening, Decided;
    var past, o := c.Past(), Replay(c, env).value;
    assert past + [] == past;
    OpeningDecides(c, branch);
    if Runnable(c) {
      WavesDecide(c, FirstLoop(c, env), env, branch);
    }
    NoneEvaluated(past, o.emitted, branch);
  }

  lemma NoneEvaluated(past: seq<Payload>, emitted: seq<Payload>, branch: string)
    ensures Count(EvaluatedAs(branch), past + emitted) == Count(EvaluatedAs(branch), past) ==>
              forall p :: p in emitted ==> !EvaluatedAs(branch)(p)
  {
    FilterAppend(EvaluatedAs(branch), past, emitted);
    FilterNone(EvaluatedAs(branch), emitted);
  }
}
