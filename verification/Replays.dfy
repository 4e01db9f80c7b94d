/** What a whole replay does to the events of each step, and how fast it gets there. */
module Replays {
  import opened Events
  import opened Scans
  import opened Queries
  import opened Definitions
  import opened Engine
  import opened Executions

  lemma WaveFacts(c: Config, l: Loop, ready: seq<Step>, env: Environment)
    ensures TasksFor(StartWave(c, l, ready, env), ready)
    ensures Extends(c, l.sh.emitted, StartWave(c, l, ready, env).sh.emitted)
  {
    var w := Wave(l.sh.(groupDone := false), NewTasks(ready));
    assert TasksFor(w, ready);
    RunKeepsTasks(c, w, ready, env.schedule(l.waves));
    RunExtends(c, w, env.schedule(l.waves));
  }

  /** Without a failure or a wait, every goroutine of a finished wave succeeded. */
  lemma {:induction false} AllSucceeded(tasks: seq<Task>)
    requires forall i :: 0 <= i < |tasks| ==> tasks[i].phase.Done? && tasks[i].phase != Done(Waiting)
    requires FirstFailure(tasks).None?
    ensures forall i :: 0 <= i < |tasks| ==> tasks[i].phase.ending.Succeeded?
  {
    if tasks != [] {
      AllSucceeded(tasks[..|tasks| - 1]);
    }
  }

  lemma {:induction false} NoneFatal(c: Config, steps: seq<Step>, s: Step)
    requires FirstFatal(c, steps).None? && s in steps
    ensures FatalOf(c.Past(), s.name).None?
  {
    if s != steps[0] {
      NoneFatal(c, steps[1..], s);
    }
  }

  /** Progress: with no fatal error recorded, nothing is ready exactly when everything is done. */
  lemma ReadyEmptyIffAllDone(c: Config, completed: set<string>)
    requires WellDefined(c.def) && FirstFatal(c, c.def.steps).None?
    ensures FindReady(c, completed) == [] <==> Names(c.def.steps) <= completed
  {
    var steps := c.def.steps;
    if Names(steps) <= completed {
      if FindReady(c, completed) != [] {
        ReadyMember(c, completed, FindReady(c, completed)[0]);
      }
    } else {
      var n :| n in Names(steps) && n !in completed;
      var i :| 0 <= i < |steps| && steps[i].name == n;
      var k := LeastUndone(steps, completed, i);
      assert IsReady(c, steps[k], completed) by {
        NoneFatal(c, steps, steps[k]);
        forall d | d in steps[k].deps ensures d in completed {
          var j :| 0 <= j < k && steps[j].name == d;
        }
      }
      ReadyMember(c, completed, steps[k]);
    }
  }

  lemma {:induction false} LeastUndone(steps: seq<Step>, completed: set<string>, i: nat) returns (k: nat)
    requires i < |steps| && steps[i].name !in completed
    ensures k <= i && steps[k].name !in completed
    ensures forall j :: 0 <= j < k ==> steps[j].name in completed
  {
    if j :| 0 <= j < i && steps[j].name !in completed {
      k := LeastUndone(steps, completed, j);
    } else {
      k := i;
    }
  }

  ghost predicate Ran(s: Step, events: seq<Payload>) {
    exists ending :: Execution(s, events, ending)
  }

  ghost predicate RanWell(s: Step, events: seq<Payload>) {
    exists output :: Execution(s, events, Succeeded(output))
  }

  function NodeEvents(s: Step, emitted: seq<Payload>): seq<Payload> {
    Filter(OfNode(s.name), emitted)
  }

  /** Before a wave: a step has run in this replay just if it is done and was not done before. */
  ghost predicate NodeInv(c: Config, l: Loop, s: Step) {
    && CompletedBefore(c) <= l.completed
    && if s.name in l.completed && s.name !in CompletedBefore(c) then RanWell(s, NodeEvents(s, l.sh.emitted))
       else NodeEvents(s, l.sh.emitted) == []
  }

  ghost predicate NodePost(c: Config, o: ReplayOutput, s: Step) {
    && (NodeEvents(s, o.emitted) == [] || (s.name !in CompletedBefore(c) && Ran(s, NodeEvents(s, o.emitted))))
    && (o.result.ReplayCompleted? ==> s.name in CompletedBefore(c) || RanWell(s, NodeEvents(s, o.emitted)))
  }

  lemma RanWellRan(s: Step, events: seq<Payload>)
    requires RanWell(s, events)
    ensures Ran(s, events)
  {
    var output :| Execution(s, events, Succeeded(output));
  }

  lemma DoneTaskRan(t: Task)
    requires Grammar(t) && t.phase.Done?
    ensures Ran(t.step, t.events)
    ensures t.phase.ending.Succeeded? ==> RanWell(t.step, t.events)
  {
    assert Execution(t.step, t.events, t.phase.ending);
  }

  predicate CleanEnd(w: Wave) {
    w.AllDone() && !AnyWaiting(w.tasks) && FirstFailure(w.tasks).None?
  }

  /** The steps of a wave: distinct names, all from the definition, and none to be mistaken for the node. */
  ghost predicate ReadySteps(c: Config, ready: seq<Step>, node: string) {
    && DistinctNames(ready) && Apart(ready, node)
    && forall i :: 0 <= i < |ready| ==> ready[i] in c.def.steps
  }

  lemma ReadyIsReadySteps(c: Config, completed: set<string>, node: string)
    requires DistinctNames(c.def.steps) && Apart(c.def.steps, node)
    ensures ReadySteps(c, FindReady(c, completed), node)
  {
    hide ApartFrom;
    var ready := FindReady(c, completed);
    ReadyDistinct(c, completed);
    forall i | 0 <= i < |ready| ensures ready[i] in c.def.steps && ApartFrom(ready[i], node) {
      ReadyMember(c, completed, ready[i]);
    }
  }

  lemma WaveAbsent(c: Config, w: Wave, ready: seq<Step>, before: seq<Payload>, s: Step)
    requires TasksFor(w, ready) && ReadySteps(c, ready, s.name) && Extends(c, before, w.sh.emitted)
    requires forall i :: 0 <= i < |ready| ==> ready[i].name != s.name
    ensures NodeEvents(s, Settle(w).emitted) == NodeEvents(s, before)
  {
    DirectAddsNoStepEvents(c, before, w.sh.emitted, OfNode(s.name));
    FilterAppend(OfNode(s.name), w.sh.emitted, Gather(w.tasks));
    GatherAbsent(w.tasks, s.name);
  }

  lemma WavePresent(c: Config, w: Wave, ready: seq<Step>, before: seq<Payload>, k: nat)
    requires k < |ready| && TasksFor(w, ready) && ReadySteps(c, ready, ready[k].name)
    requires Extends(c, before, w.sh.emitted)
    ensures NodeEvents(ready[k], Settle(w).emitted) == NodeEvents(ready[k], before) + w.tasks[k].events
  {
    hide Grammar, ApartFrom;
    DirectAddsNoStepEvents(c, before, w.sh.emitted, OfNode(ready[k].name));
    FilterAppend(OfNode(ready[k].name), w.sh.emitted, Gather(w.tasks));
    GatherNode(w.tasks, k);
  }

  /** A wave adds to a step's events those of its one goroutine, if it was ready. */
  lemma WaveNode(c: Config, l: Loop, ready: seq<Step>, env: Environment, s: Step)
    requires DistinctNames(c.def.steps) && Apart(c.def.steps, s.name) && s in c.def.steps
    requires ready == FindReady(c, l.completed)
    ensures var w := StartWave(c, l, ready, env);
            var before, after := NodeEvents(s, l.sh.emitted), NodeEvents(s, Settle(w).emitted);
            && (s !in ready ==> after == before)
            && (s in ready && before == [] && w.AllDone() ==> Ran(s, after))
            && (s in ready && before == [] && CleanEnd(w) ==> RanWell(s, after))
  {
    hide StartWave, Run, FindReady, Settle, Grammar, Tagged, Extends;
    var w := StartWave(c, l, ready, env);
    WaveFacts(c, l, ready, env);
    ReadyIsReadySteps(c, l.completed, s.name);
    if s in ready {
      var k :| 0 <= k < |ready| && ready[k] == s;
      WavePresent(c, w, ready, l.sh.emitted, k);
      assert [] + w.tasks[k].events == w.tasks[k].events;
      if w.AllDone() {
        DoneTaskRan(w.tasks[k]);
        if CleanEnd(w) {
          AllSucceeded(w.tasks);
        }
      }
    } else {
      forall i | 0 <= i < |ready| ensures ready[i].name != s.name {
        if ready[i].name == s.name {
          SameName(c.def.steps, ready[i], s);
        }
      }
      WaveAbsent(c, w, ready, l.sh.emitted, s);
    }
  }

  lemma SameName(steps: seq<Step>, a: Step, b: Step)
    requires DistinctNames(steps) && a in steps && b in steps && a.name == b.name
    ensures a == b
  {}

  predicate Runnable(c: Config) {
    !IsCancelled(c.Past()) && !IsCompleted(c.Past()) && FirstFatal(c, c.def.steps).None?
  }

  /** What one turn of the loop does to the set of steps done. */
  lemma TurnShrinks(c: Config, l: Loop, env: Environment)
    requires WaveTurn(c, l, env).Again?
    ensures FindReady(c, l.completed) != []
    ensures WaveTurn(c, l, env).next.completed == l.completed + Names(FindReady(c, l.completed))
    ensures Names(c.def.steps) - WaveTurn(c, l, env).next.completed < Names(c.def.steps) - l.completed
    ensures WaveTurn(c, l, env).next.waves == l.waves + 1
  {
    ReadyShrinks(c, l.completed);
  }

  lemma TurnKeepsNode(c: Config, l: Loop, env: Environment, s: Step)
    requires WellDefined(c.def) && Apart(c.def.steps, s.name) && s in c.def.steps && FirstFatal(c, c.def.steps).None?
    requires NodeInv(c, l, s)
    ensures WaveTurn(c, l, env).Again? ==> NodeInv(c, WaveTurn(c, l, env).next, s)
    ensures WaveTurn(c, l, env).Out? ==> NodePost(c, WaveTurn(c, l, env).output, s)
  {
    hide StartWave, Settle, FindReady, DistinctNames, DependenciesFirst, Apart, FirstFatal, Ran, RanWell,
        NodeEvents, Gather;
    var ready := FindReady(c, l.completed);
    assert s.name in Names(c.def.steps);
    if NodeInv(c, l, s) && s.name in l.completed && s.name !in CompletedBefore(c) {
      RanWellRan(s, NodeEvents(s, l.sh.emitted));
    }
    if l.sh.ctxDone {
    } else if ready == [] {
      ReadyEmptyIffAllDone(c, l.completed);
      CompletedIsNoStepEvent(s, l.sh.emitted, l.finalOutput);
    } else {
      ReadyMember(c, l.completed, s);
      ReadyNames(c, l.completed, s);
      WaveNode(c, l, ready, env, s);
    }
  }

  lemma CompletedIsNoStepEvent(s: Step, emitted: seq<Payload>, output: Option<Json>)
    ensures NodeEvents(s, emitted + [WorkflowCompleted(output)]) == NodeEvents(s, emitted)
  {
    FilterPush(OfNode(s.name), emitted, WorkflowCompleted(output));
  }

  lemma NothingIsNoStepEvent(s: Step)
    ensures NodeEvents(s, []) == []
  {}

  lemma OpeningIsNoStepEvent(c: Config, s: Step)
    ensures NodeEvents(s, Opening(c)) == []
  {
    FilterNone(OfNode(s.name), Opening(c));
  }

  lemma ReadyNames(c: Config, completed: set<string>, s: Step)
    requires DistinctNames(c.def.steps) && s in c.def.steps
    ensures s.name in Names(FindReady(c, completed)) <==> s in FindReady(c, completed)
  {
    var ready := FindReady(c, completed);
    if s.name in Names(ready) {
      var i :| 0 <= i < |ready| && ready[i].name == s.name;
      ReadyMember(c, completed, ready[i]);
      SameName(c.def.steps, ready[i], s);
    }
  }

  lemma WavesNode(c: Config, l: Loop, env: Environment, s: Step)
    requires WellDefined(c.def) && Apart(c.def.steps, s.name) && s in c.def.steps && FirstFatal(c, c.def.steps).None?
    requires NodeInv(c, l, s)
    ensures Waves(c, l, env).Some? ==> NodePost(c, Waves(c, l, env).value, s)
    decreases Names(c.def.steps) - l.completed
  {
    hide WaveTurn, NodeInv, NodePost, WellDefined, FirstFatal, Apart, FindReady;
    TurnKeepsNode(c, l, env, s);
    match WaveTurn(c, l, env)
    case Again(next) =>
      TurnShrinks(c, l, env);
      WavesNode(c, next, env, s);
    case _ =>
  }

  /**
    In one replay a step is executed at most once, not at all if its output was recorded before,
    and its events form one execution of the grammar. If the replay ends completed on a run that
    was not, every step's output was recorded before or its execution here succeeded.
  */
  lemma ReplayExecutesOnce(c: Config, env: Environment, s: Step)
    requires WellDefined(c.def) && Apart(c.def.steps, s.name) && s in c.def.steps
    requires Replay(c, env).Some?
    ensures var o := Replay(c, env).value;
            if Runnable(c) then NodePost(c, o, s) else NodeEvents(s, o.emitted) == []
  {
    hide Waves, Opening, CompletedBefore, WellDefined, Apart, FirstFatal, NodePost, NodeEvents, Ran, RanWell,
        Names;
    OpeningIsNoStepEvent(c, s);
    NothingIsNoStepEvent(s);
    if Runnable(c) {
      WavesNode(c, FirstLoop(c, env), env, s);
    }
  }

  // ---------------------------------------------------------------------------------------------
  // Completions are never dropped

  /** The events that a turn of the wave loop hands on, to the next turn or to the caller. */
  function EmittedBy(turn: Turn): seq<Payload> {
    match turn
    case Again(next) => next.sh.emitted
    case Out(output) => output.emitted
    case Dead => []
  }

  /** A wave was run and is over. */
  predicate WaveRan(c: Config, l: Loop, env: Environment) {
    !l.sh.ctxDone && FindReady(c, l.completed) != [] && StartWave(c, l, FindReady(c, l.completed), env).AllDone()
  }

  /**
    An execution that succeeds leaves its completion in the new events of its turn, even when a
    sibling in the wave fails, waits or is cancelled and the replay ends there.
  */
  lemma SuccessIsEmitted(c: Config, l: Loop, env: Environment, i: nat, output: Json)
    requires WaveRan(c, l, env)
    requires var w := StartWave(c, l, FindReady(c, l.completed), env);
             i < |w.tasks| && w.tasks[i].phase == Done(Succeeded(output))
    ensures var t := StartWave(c, l, FindReady(c, l.completed), env).tasks[i];
            t.Finished(output) in EmittedBy(WaveTurn(c, l, env))
  {
    hide FindReady, StartWave, Grammar, Tagged;
    var ready := FindReady(c, l.completed);
    var w := StartWave(c, l, ready, env);
    WaveFacts(c, l, ready, env);
    HoldsCompletion(w.tasks[i], output);
    GatherMember(w.tasks, w.tasks[i].Finished(output));
  }

  lemma HoldsCompletion(t: Task, output: Json)
    requires Grammar(t) && t.phase == Done(Succeeded(output))
    ensures t.Finished(output) in t.events
  {
    hide Retried;
    var k :| EndedAt(t.step, t.choice, t.events, Succeeded(output), k);
    assert t.events[2 * k + 1] == t.Finished(output);
  }

  /** Later turns only add to the events. */
  lemma WavesExtend(c: Config, l: Loop, env: Environment)
    ensures Waves(c, l, env).Some? ==> l.sh.emitted <= Waves(c, l, env).value.emitted
    decreases Names(c.def.steps) - l.completed
  {
    hide FindReady, StartWave;
    var ready := FindReady(c, l.completed);
    WaveFacts(c, l, ready, env);
    match WaveTurn(c, l, env)
    case Again(next) =>
      TurnShrinks(c, l, env);
      WavesExtend(c, next, env);
    case _ =>
  }

  /** So the completion is among the events that the whole replay returns, however it ends. */
  lemma SuccessIsReturned(c: Config, l: Loop, env: Environment, i: nat, output: Json)
    requires WaveRan(c, l, env) && Waves(c, l, env).Some?
    requires var w := StartWave(c, l, FindReady(c, l.completed), env);
             i < |w.tasks| && w.tasks[i].phase == Done(Succeeded(output))
    ensures var t := StartWave(c, l, FindReady(c, l.completed), env).tasks[i];
            t.Finished(output) in Waves(c, l, env).value.emitted
  {
    SuccessIsEmitted(c, l, env, i, output);
    hide WaveTurn, StartWave, FindReady, WaveRan;
    match WaveTurn(c, l, env)
    case Again(next) =>
      TurnShrinks(c, l, env);
      WavesExtend(c, next, env);
    case _ =>
  }

  // ---------------------------------------------------------------------------------------------
  // The number of waves

  /** The length of the longest dependency chain that ends in the i-th step. */
  function Depth(steps: seq<Step>, i: nat): nat
    requires i < |steps|
    decreases i, 1
  {
    1 + DepthBelow(steps, i, i)
  }

  /** The greatest depth of the first `k` steps on which step `i` depends. */
  function DepthBelow(steps: seq<Step>, i: nat, k: nat): nat
    requires i < |steps| && k <= i
    decreases i, 0, k
  {
    if k == 0 then 0
    else
      var rest := DepthBelow(steps, i, k - 1);
      if steps[k - 1].name in steps[i].deps && Depth(steps, k - 1) > rest then Depth(steps, k - 1) else rest
  }

  function Height(steps: seq<Step>, k: nat): nat
    requires k <= |steps|
  {
    if k == 0 then 0
    else if Depth(steps, k - 1) > Height(steps, k - 1) then Depth(steps, k - 1) else Height(steps, k - 1)
  }

  lemma {:induction false} DepthOfDependency(steps: seq<Step>, i: nat, k: nat, j: nat)
    requires i < |steps| && j < k <= i && steps[j].name in steps[i].deps
    ensures Depth(steps, j) <= DepthBelow(steps, i, k)
  {
    if j < k - 1 {
      DepthOfDependency(steps, i, k - 1, j);
    }
  }

  lemma {:induction false} DepthAtMostHeight(steps: seq<Step>, k: nat, i: nat)
    requires i < k <= |steps|
    ensures Depth(steps, i) <= Height(steps, k)
  {
    if i < k - 1 {
      DepthAtMostHeight(steps, k - 1, i);
    }
  }

  /** After `n` waves every step of depth at most `n` is done. */
  ghost predicate DoneToDepth(c: Config, completed: set<string>, n: nat) {
    forall i :: 0 <= i < |c.def.steps| && Depth(c.def.steps, i) <= n ==> c.def.steps[i].name in completed
  }

  lemma WaveDeepens(c: Config, l: Loop)
    requires WellDefined(c.def) && FirstFatal(c, c.def.steps).None? && DoneToDepth(c, l.completed, l.waves)
    ensures DoneToDepth(c, l.completed + Names(FindReady(c, l.completed)), l.waves + 1)
    ensures FindReady(c, l.completed) != [] ==> l.waves < Height(c.def.steps, |c.def.steps|)
  {
    var steps, ready := c.def.steps, FindReady(c, l.completed);
    forall i | 0 <= i < |steps| && Depth(steps, i) <= l.waves + 1
      ensures steps[i].name in l.completed + Names(ready)
    {
      forall d | d in steps[i].deps ensures d in l.completed {
        var j :| 0 <= j < i && steps[j].name == d;
        DepthOfDependency(steps, i, i, j);
      }
      NoneFatal(c, steps, steps[i]);
      ReadyMember(c, l.completed, steps[i]);
      if steps[i].name !in l.completed {
        assert steps[i] in ready;
      }
    }
    if ready != [] {
      ReadyMember(c, l.completed, ready[0]);
      var i :| 0 <= i < |steps| && steps[i] == ready[0];
      DepthAtMostHeight(steps, |steps|, i);
    }
  }

  lemma WavesBounded(c: Config, l: Loop, env: Environment)
    requires WellDefined(c.def) && FirstFatal(c, c.def.steps).None? && DoneToDepth(c, l.completed, l.waves)
    requires l.waves <= Height(c.def.steps, |c.def.steps|)
    ensures Waves(c, l, env).Some? ==> Waves(c, l, env).value.waves <= Height(c.def.steps, |c.def.steps|)
    decreases Names(c.def.steps) - l.completed
  {
    hide StartWave, Settle, WellDefined, DoneToDepth, Height, FindReady;
    WaveDeepens(c, l);
    match WaveTurn(c, l, env)
    case Again(next) =>
      TurnShrinks(c, l, env);
      WavesBounded(c, next, env);
    case _ =>
  }

  /** A replay runs no more waves than the longest dependency chain has steps. */
  lemma WavesAtMostHeight(c: Config, env: Environment)
    requires WellDefined(c.def) && Replay(c, env).Some?
    ensures Replay(c, env).value.waves <= Height(c.def.steps, |c.def.steps|)
  {
    if Runnable(c) {
      assert forall i :: 0 <= i < |c.def.steps| ==> Depth(c.def.steps, i) >= 1;
      WavesBounded(c, FirstLoop(c, env), env);
    }
  }
}
