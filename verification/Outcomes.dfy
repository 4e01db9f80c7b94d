/** How turns and replays end, told from the goroutines' endings and from the events. */
module Outcomes {
  import opened Events
  import opened Scans
  import opened Queries
  import opened Definitions
  import opened Engine
  import opened Executions
  import opened Replays
  import opened Decisions

  // ----- The final output -----

  function CompletionView(): Payload -> Option<Json> {
    (p: Payload) => if p.StepCompleted? then p.output else None
  }

  /** The output of the last completion among the events. */
  function LastCompletion(ps: seq<Payload>): Option<Json> {
    Last(ps, CompletionView())
  }

  lemma SucceededEndsCompleted(t: Task)
    requires Grammar(t) && t.phase.Done? && t.phase.ending.Succeeded?
    ensures LastCompletion(t.events) == Some(t.phase.ending.output)
  {
    hide Retried;
    var k :| EndedAt(t.step, t.choice, t.events, t.phase.ending, k);
    assert t.events == t.events[..2 * k + 1] + [t.events[2 * k + 1]];
    LastPush(t.events[..2 * k + 1], t.events[2 * k + 1], CompletionView());
  }

  /** Of a wave in which all succeeded, the output kept is that of the last completion gathered. */
  lemma {:induction false} GatherLast(tasks: seq<Task>, before: Option<Json>)
    requires forall i :: 0 <= i < |tasks| ==>
               Grammar(tasks[i]) && tasks[i].phase.Done? && tasks[i].phase.ending.Succeeded?
    ensures LastOutput(tasks, before) == if tasks == [] then before else LastCompletion(Gather(tasks))
  {
    if tasks != [] {
      hide Grammar, Last;
      var n := |tasks| - 1;
      SucceededEndsCompleted(tasks[n]);
      LastAppend(Gather(tasks[..n]), tasks[n].events, CompletionView());
    }
  }

  lemma DirectCompletesNothing(c: Config, a: seq<Payload>, b: seq<Payload>)
    requires Extends(c, a, b)
    ensures LastCompletion(b) == LastCompletion(a)
  {
    assert b == a + b[|a|..];
    LastAppend(a, b[|a|..], CompletionView());
    LastNone(b[|a|..], CompletionView());
    forall p | p in b[|a|..] ensures CompletionView()(p).None? {
      var i :| 0 <= i < |b[|a|..]| && b[|a|..][i] == p;
      assert IsDirect(c, b[|a| + i]);
    }
  }

  lemma TurnKeepsFinal(c: Config, l: Loop, env: Environment)
    requires l.finalOutput == LastCompletion(l.sh.emitted) && WaveTurn(c, l, env).Again?
    ensures var next := WaveTurn(c, l, env).next; next.finalOutput == LastCompletion(next.sh.emitted)
  {
    hide FindReady, StartWave, Grammar, Tagged, Last;
    var ready := FindReady(c, l.completed);
    var w := StartWave(c, l, ready, env);
    WaveFacts(c, l, ready, env);
    AllSucceeded(w.tasks);
    GatherLast(w.tasks, l.finalOutput);
    DirectCompletesNothing(c, l.sh.emitted, w.sh.emitted);
    LastAppend(w.sh.emitted, Gather(w.tasks), CompletionView());
    if w.tasks != [] {
      var n := |w.tasks| - 1;
      SucceededEndsCompleted(w.tasks[n]);
      LastAppend(Gather(w.tasks[..n]), w.tasks[n].events, CompletionView());
    }
  }

  ghost predicate FinalPost(o: ReplayOutput) {
    if o.result.ReplayCompleted? then
      && o.emitted != [] && o.emitted[|o.emitted| - 1] == WorkflowCompleted(o.finalOutput)
      && o.finalOutput == LastCompletion(o.emitted)
    else o.finalOutput.None?
  }

  lemma WavesFinal(c: Config, l: Loop, env: Environment)
    requires l.finalOutput == LastCompletion(l.sh.emitted)
    ensures Waves(c, l, env).Some? ==> FinalPost(Waves(c, l, env).value)
    decreases Names(c.def.steps) - l.completed
  {
    hide FindReady, StartWave, LastCompletion;
    match WaveTurn(c, l, env)
    case Again(next) =>
      TurnKeepsFinal(c, l, env);
      TurnShrinks(c, l, env);
      WavesFinal(c, next, env);
    case Out(o) =>
      CompletedAdds(l.sh.emitted, l.finalOutput);
    case Dead =>
  }

  lemma CompletedAdds(ps: seq<Payload>, output: Option<Json>)
    ensures LastCompletion(ps + [WorkflowCompleted(output)]) == LastCompletion(ps)
  {
    LastPush(ps, WorkflowCompleted(output), CompletionView());
  }

  lemma {:induction false} OpeningCompletesNothing(c: Config)
    ensures LastCompletion(Opening(c)).None?
  {
    LastNone(Opening(c), CompletionView());
  }

  /**
    The final output. A replay that ends completed on a run that was open ends with
    workflow.completed, and what it records there and returns is the output of the last step
    completed in this replay, or none if it completed no step. Other replays return no output.
  */
  lemma FinalIsLastCompletion(c: Config, env: Environment)
    requires Replay(c, env).Some?
    ensures var o := Replay(c, env).value;
            && (Runnable(c) && o.result.ReplayCompleted? ==>
                  o.emitted != [] && o.emitted[|o.emitted| - 1] == WorkflowCompleted(o.finalOutput))
            && (forall i :: 0 <= i < |o.emitted| && o.emitted[i].StepCompleted? && o.result.ReplayCompleted?
                            && (forall j :: i < j < |o.emitted| ==> !o.emitted[j].StepCompleted?) ==>
                  o.finalOutput == o.emitted[i].output)
            && ((forall p :: p in o.emitted ==> !p.StepCompleted?) || !o.result.ReplayCompleted? ==>
                  o.finalOutput.None?)
  {
    hide Waves, LastCompletion;
    OpeningCompletesNothing(c);
    if Runnable(c) {
      WavesFinal(c, FirstLoop(c, env), env);
      var o := Replay(c, env).value;
      ReplayKinds(c, env);
      LastCompletionAt(c, o);
    }
  }

  /** Every completion that a replay records has an output, so the last one decides. */
  lemma LastCompletionAt(c: Config, o: ReplayOutput)
    requires KindsPost(c, o)
    ensures forall i :: 0 <= i < |o.emitted| && o.emitted[i].StepCompleted?
                        && (forall j :: i < j < |o.emitted| ==> !o.emitted[j].StepCompleted?) ==>
                          LastCompletion(o.emitted) == o.emitted[i].output
    ensures (forall p :: p in o.emitted ==> !p.StepCompleted?) ==> LastCompletion(o.emitted).None?
  {
    hide LastCompletion;
    var ps := o.emitted;
    if forall p :: p in ps ==> !p.StepCompleted? { NoCompletion(ps); }
    forall i | 0 <= i < |ps| && ps[i].StepCompleted? && (forall j :: i < j < |ps| ==> !ps[j].StepCompleted?)
      ensures LastCompletion(ps) == ps[i].output
    {
      assert o.result.ReplayCompleted? ==> ps[..|ps| - 1][i] == ps[i];
      assert Allowed(c, ps[i]);
      LastCompletionIs(ps, i);
    }
  }

  lemma NoCompletion(ps: seq<Payload>)
    requires forall p :: p in ps ==> !p.StepCompleted?
    ensures LastCompletion(ps).None?
  {
    LastNone(ps, CompletionView());
  }

  lemma LastCompletionIs(ps: seq<Payload>, i: nat)
    requires i < |ps| && ps[i].StepCompleted? && ps[i].output.Some?
    requires forall j :: i < j < |ps| ==> !ps[j].StepCompleted?
    ensures LastCompletion(ps) == ps[i].output
  {
    assert ps == ps[..i] + [ps[i]] + ps[i + 1..];
    LastPush(ps[..i], ps[i], CompletionView());
    LastAppend(ps[..i] + [ps[i]], ps[i + 1..], CompletionView());
    LastNone(ps[i + 1..], CompletionView());
  }

  // ----- The end of a turn -----

  /** A goroutine that ended in an error other than the waiting sentinel. */
  predicate Broke(t: Task) {
    t.phase.Done? && (t.phase.ending.Failed? || t.phase.ending.Cancelled?)
  }

  function Complaint(t: Task): string
    requires Broke(t)
  {
    if t.phase.ending.Failed? then t.step.name + " failed: " + t.phase.ending.error
    else t.step.name + " failed: context canceled"
  }

  /** The first goroutine, in the order of names, that broke. */
  predicate FirstBroken(tasks: seq<Task>, i: int) {
    0 <= i < |tasks| && Broke(tasks[i]) && forall j :: 0 <= j < i ==> !Broke(tasks[j])
  }

  lemma {:induction false} FirstFailureAt(tasks: seq<Task>)
    ensures FirstFailure(tasks).None? <==> forall i :: 0 <= i < |tasks| ==> !Broke(tasks[i])
    ensures FirstFailure(tasks).Some? ==>
              exists i :: FirstBroken(tasks, i) && FirstFailure(tasks) == Some(Complaint(tasks[i]))
  {
    if tasks != [] {
      var n := |tasks| - 1;
      var init := tasks[..n];
      FirstFailureAt(init);
      LastFailure(tasks);
      hide FirstFailure, Complaint, Broke;
      assert forall i :: 0 <= i < n ==> tasks[i] == init[i];
      if FirstFailure(init).Some? {
        var i :| FirstBroken(init, i) && FirstFailure(init) == Some(Complaint(init[i]));
        assert FirstBroken(tasks, i);
      } else if Broke(tasks[n]) {
        assert FirstBroken(tasks, n);
      }
    }
  }

  lemma LastFailure(tasks: seq<Task>)
    requires tasks != []
    ensures var before, t := FirstFailure(tasks[..|tasks| - 1]), tasks[|tasks| - 1];
            FirstFailure(tasks) == if before.Some? || !Broke(t) then before else Some(Complaint(t))
  {}

  /**
    How a turn with a finished wave ends, by the endings of its goroutines: it waits iff one of them
    waits, whatever the others did; else it fails iff one broke, with the complaint of the first of
    them in the order of names; else the loop goes on. Each way the events are those of the shared
    list, then those of the goroutines in that order.
  */
  lemma TurnEndsAs(c: Config, l: Loop, env: Environment)
    requires WaveRan(c, l, env)
    ensures var w := StartWave(c, l, FindReady(c, l.completed), env);
            var turn := WaveTurn(c, l, env);
            var waits := exists i :: 0 <= i < |w.tasks| && w.tasks[i].phase == Done(Waiting);
            var breaks := exists i :: 0 <= i < |w.tasks| && Broke(w.tasks[i]);
            && EmittedBy(turn) == w.sh.emitted + Gather(w.tasks)
            && (turn.Out? && turn.output.result.ReplayWaiting? <==> waits)
            && (turn.Out? && turn.output.result.ReplayFailed? <==> !waits && breaks)
            && (turn.Again? <==> !waits && !breaks)
            && (turn.Out? && turn.output.result.ReplayWaiting? ==> turn.output.waitingFor == w.sh.waiting)
            && (turn.Out? && turn.output.result.ReplayFailed? ==>
                  exists i :: FirstBroken(w.tasks, i) && turn.output.result.error == Complaint(w.tasks[i]))
  {
    hide FindReady, StartWave, Complaint;
    FirstFailureAt(StartWave(c, l, FindReady(c, l.completed), env).tasks);
  }

  /** A turn without a wave: suspended if the context is over, else completed because nothing is ready. */
  lemma IdleTurnEndsAs(c: Config, l: Loop, env: Environment)
    ensures l.sh.ctxDone ==>
              WaveTurn(c, l, env) == Out(ReplayOutput(ReplaySuspended, None, [], l.sh.emitted, l.waves))
    ensures WaveTurn(c, l, env).Out? && WaveTurn(c, l, env).output.result.ReplaySuspended? ==> l.sh.ctxDone
    ensures WaveTurn(c, l, env).Out? && WaveTurn(c, l, env).output.result.ReplayCompleted? <==>
              !l.sh.ctxDone && FindReady(c, l.completed) == []
  {
    hide FindReady, StartWave;
  }

  // ----- Replays that run no wave, and the beginning of those that do -----

  lemma {:induction false} FirstFatalAt(c: Config, steps: seq<Step>)
    ensures FirstFatal(c, steps).None? ==> forall j :: 0 <= j < |steps| ==> FatalOf(c.Past(), steps[j].name).None?
    ensures FirstFatal(c, steps).Some? ==>
              exists i :: 0 <= i < |steps| && FatalOf(c.Past(), steps[i].name).Some?
                          && FirstFatal(c, steps).value ==
                             steps[i].name + " failed: " + FatalOf(c.Past(), steps[i].name).value
                          && forall j :: 0 <= j < i ==> FatalOf(c.Past(), steps[j].name).None?
  {
    if steps != [] && FatalOf(c.Past(), steps[0].name).None? {
      FirstFatalAt(c, steps[1..]);
      assert forall j :: 0 < j < |steps| ==> steps[j] == steps[1..][j - 1];
      if FirstFatal(c, steps).Some? {
        var i :| 0 <= i < |steps[1..]| && FatalOf(c.Past(), steps[1..][i].name).Some?
                 && FirstFatal(c, steps).value ==
                    steps[1..][i].name + " failed: " + FatalOf(c.Past(), steps[1..][i].name).value
                 && forall j :: 0 <= j < i ==> FatalOf(c.Past(), steps[1..][j].name).None?;
        assert steps[i + 1] == steps[1..][i];
        forall j | 0 <= j < i + 1 ensures FatalOf(c.Past(), steps[j].name).None? {
          assert j > 0 ==> steps[j] == steps[1..][j - 1];
        }
      }
    }
  }

  /** A failure of the step that is not to be retried; unnamed steps have none. */
  predicate IsFatal(p: Payload, name: string) {
    p.StepFailed? && p.step == name && name != "" && !p.willRetry
  }

  /** The last such failure on record. */
  predicate FatalAt(ps: seq<Payload>, k: int, name: string) {
    0 <= k < |ps| && IsFatal(ps[k], name) && forall j :: k < j < |ps| ==> !IsFatal(ps[j], name)
  }

  lemma FatalSeen(ps: seq<Payload>, name: string)
    ensures FatalOf(ps, name).None? <==> forall p :: p in ps ==> !IsFatal(p, name)
    ensures FatalOf(ps, name).Some? ==> exists k :: FatalAt(ps, k, name) && FatalOf(ps, name) == Some(ps[k].error)
  {
    LastNone(ps, FatalView(name));
    if FatalOf(ps, name).Some? {
      var k := LastAt(ps, FatalView(name));
      assert FatalAt(ps, k, name);
    }
  }

  /** The complaint of the first step of the definition that failed for good on record. */
  ghost predicate FirstFatalError(ps: seq<Payload>, steps: seq<Step>, error: string) {
    exists i, k :: 0 <= i < |steps| && FatalAt(ps, k, steps[i].name)
                   && error == steps[i].name + " failed: " + ps[k].error
                   && forall j, p :: 0 <= j < i && p in ps ==> !IsFatal(p, steps[j].name)
  }

  lemma FirstFatalSeen(c: Config)
    ensures var ps, steps := c.Past(), c.def.steps;
            && (FirstFatal(c, steps).None? ==>
                  forall j, p :: 0 <= j < |steps| && p in ps ==> !IsFatal(p, steps[j].name))
            && (FirstFatal(c, steps).Some? ==> FirstFatalError(ps, steps, FirstFatal(c, steps).value))
  {
    var ps, steps := c.Past(), c.def.steps;
    FirstFatalAt(c, steps);
    hide FirstFatal, FatalOf;
    forall j, p | 0 <= j < |steps| && p in ps && FatalOf(ps, steps[j].name).None?
      ensures !IsFatal(p, steps[j].name)
    {
      FatalSeen(ps, steps[j].name);
    }
    if FirstFatal(c, steps).Some? {
      var i :| 0 <= i < |steps| && FatalOf(ps, steps[i].name).Some?
               && FirstFatal(c, steps).value == steps[i].name + " failed: " + FatalOf(ps, steps[i].name).value
               && forall j :: 0 <= j < i ==> FatalOf(ps, steps[j].name).None?;
      FatalSeen(ps, steps[i].name);
      var k :| FatalAt(ps, k, steps[i].name) && FatalOf(ps, steps[i].name) == Some(ps[k].error);
      assert forall j, p :: 0 <= j < i && p in ps ==> !IsFatal(p, steps[j].name);
      assert FirstFatalError(ps, steps, steps[i].name + " failed: " + ps[k].error);
    }
  }

  /**
    A replay of a cancelled or completed run emits nothing. One that finds a final failure on record
    fails with that of the first such step of the definition, after at most workflow.started. Every
    replay of an open run begins with workflow.started exactly if the log has none.
  */
  lemma ReplayBegins(c: Config, env: Environment)
    requires Replay(c, env).Some?
    ensures var o, ps := Replay(c, env).value, c.Past();
            var cancelled := exists p :: p in ps && p.WorkflowCancelled?;
            var completed := exists p :: p in ps && p.WorkflowCompleted?;
            var start := if exists p :: p in ps && p.WorkflowStarted? then []
                         else [WorkflowStarted(c.def.name, c.def.version, c.input)];
            if cancelled then o.result == ReplayFailed("workflow cancelled") && o.emitted == []
            else if completed then o.result.ReplayCompleted? && o.emitted == []
            else
              && start <= o.emitted
              && ((exists s, p :: s in c.def.steps && p in ps && IsFatal(p, s.name)) ==>
                    o.emitted == start && o.result.ReplayFailed? && FirstFatalError(ps, c.def.steps, o.result.error))
  {
    hide Waves, FirstFatalError, IsFatal, FirstFatal;
    LastNone(c.Past(), CancelledView());
    LastNone(c.Past(), CompletedView());
    LastNone(c.Past(), InputView());
    FirstFatalSeen(c);
    if Runnable(c) {
      WavesExtend(c, FirstLoop(c, env), env);
    }
  }

  // ----- Failing fast -----

  function Starts(): Payload -> bool {
    (p: Payload) => p.StepStarted?
  }

  lemma AdvanceStopped(c: Config, sh: Shared, t: Task, now: int, answer: Json)
    requires sh.Stopped()
    ensures var (sh', t') := Advance(c, sh, t, now, answer);
            && sh'.Stopped() && Count(Starts(), t'.events) == Count(Starts(), t.events)
            && forall p :: p in sh'.emitted && p.BranchEvaluated? ==> p in sh.emitted
  {
    hide Count, ChoiceOf, OutputMap, SignalOf, Visible;
    var t' := Advance(c, sh, t, now, answer).1;
    if t'.events != t.events {
      CountPush(Starts(), t.events, t'.events[|t.events|]);
      assert t'.events == t.events + [t'.events[|t.events|]];
    }
  }

  lemma CountPush(keep: Payload -> bool, ps: seq<Payload>, p: Payload)
    ensures Count(keep, ps + [p]) == Count(keep, ps) + if keep(p) then 1 else 0
  {
    FilterPush(keep, ps, p);
  }

  /** Once the wave is stopped, no goroutine starts another attempt and no selector runs. */
  lemma {:induction false} StoppedStartsNothing(c: Config, w: Wave, ticks: seq<Tick>)
    requires w.sh.Stopped()
    ensures var v := Run(c, w, ticks);
            && v.sh.Stopped() && |v.tasks| == |w.tasks|
            && (forall i :: 0 <= i < |w.tasks| ==>
                  Count(Starts(), v.tasks[i].events) == Count(Starts(), w.tasks[i].events))
            && forall p :: p in v.sh.emitted && p.BranchEvaluated? ==> p in w.sh.emitted
  {
    hide Count, Advance;
    if ticks != [] {
      var init, tick := ticks[..|ticks| - 1], ticks[|ticks| - 1];
      StoppedStartsNothing(c, w, init);
      var v := Run(c, w, init);
      if tick.Move? && tick.task < |v.tasks| {
        AdvanceStopped(c, v.sh, v.tasks[tick.task], tick.now, tick.answer);
      }
    }
  }

  predicate GaveUp(t: Task) {
    t.phase.Done? && !t.phase.ending.Succeeded?
  }

  ghost predicate GroupTold(w: Wave) {
    forall t :: t in w.tasks && GaveUp(t) ==> w.sh.groupDone
  }

  /** A goroutine that is done without success has cancelled the group. */
  lemma {:induction false} FailureStops(c: Config, w: Wave, ticks: seq<Tick>)
    requires forall i :: 0 <= i < |w.tasks| ==> w.tasks[i].phase.Entering?
    ensures GroupTold(Run(c, w, ticks))
  {
    if ticks != [] {
      hide Advance;
      var init, tick := ticks[..|ticks| - 1], ticks[|ticks| - 1];
      FailureStops(c, w, init);
      var v := Run(c, w, init);
      if tick.Move? && tick.task < |v.tasks| {
        AdvanceGroup(c, v.sh, v.tasks[tick.task], tick.now, tick.answer);
      }
      var u := Run(c, w, ticks);
      forall t | t in u.tasks && GaveUp(t) ensures u.sh.groupDone {
        var i :| 0 <= i < |u.tasks| && u.tasks[i] == t;
        assert v.tasks[i] in v.tasks;
      }
    }
  }

  lemma AdvanceGroup(c: Config, sh: Shared, t: Task, now: int, answer: Json)
    ensures var (sh', t') := Advance(c, sh, t, now, answer);
            && (sh.groupDone ==> sh'.groupDone)
            && (GaveUp(t') ==> GaveUp(t) || sh'.groupDone)
  {
    hide ChoiceOf, OutputMap, Visible, SignalOf;
  }

  lemma {:induction false} RunInTwo(c: Config, w: Wave, a: seq<Tick>, b: seq<Tick>)
    ensures Run(c, w, a + b) == Run(c, Run(c, w, a), b)
  {
    hide Take;
    if b == [] {
      assert a + b == a;
    } else {
      assert (a + b)[..|a + b| - 1] == a + b[..|b| - 1];
      RunInTwo(c, w, a, b[..|b| - 1]);
    }
  }

  /**
    Failing fast: from the moment one goroutine of a wave is done without success, no goroutine of
    the wave starts another attempt, under any schedule.
  */
  lemma FailsFast(c: Config, w: Wave, a: seq<Tick>, b: seq<Tick>, k: nat)
    requires forall i :: 0 <= i < |w.tasks| ==> w.tasks[i].phase.Entering?
    requires var v := Run(c, w, a); k < |v.tasks| && GaveUp(v.tasks[k])
    ensures var v, u := Run(c, w, a), Run(c, w, a + b);
            |u.tasks| == |v.tasks| && forall i :: 0 <= i < |v.tasks| ==>
              Count(Starts(), u.tasks[i].events) == Count(Starts(), v.tasks[i].events)
  {
    hide Count, Run;
    FailureStops(c, w, a);
    RunInTwo(c, w, a, b);
    StoppedStartsNothing(c, Run(c, w, a), b);
  }

  // ----- What code asks for -----

  /** The goroutine's next call, made at a moment of a wave and followed by the rest of it. */
  ghost predicate Asks(c: Config, w: Wave, i: nat, call: Call) {
    && i < |w.tasks| && w.tasks[i].phase.Running?
    && w.tasks[i].step.Next(c.input, w.tasks[i].choice, w.tasks[i].phase.replies) == call
  }

  lemma MoveInTwo(c: Config, w: Wave, a: seq<Tick>, tick: Tick, b: seq<Tick>)
    ensures Run(c, w, a + [tick] + b) == Run(c, Take(c, Run(c, w, a), tick), b)
  {
    hide Take;
    assert (a + [tick])[..|a + [tick]| - 1] == a;
    RunInTwo(c, w, a + [tick], b);
  }

  lemma {:induction false} RunKeepsWaiting(c: Config, w: Wave, ticks: seq<Tick>)
    ensures w.sh.waiting <= Run(c, w, ticks).sh.waiting
    ensures forall p :: p in w.sh.emitted ==> p in Run(c, w, ticks).sh.emitted
  {
    if ticks != [] {
      hide Advance;
      RunKeepsWaiting(c, w, ticks[..|ticks| - 1]);
      var v, tick := Run(c, w, ticks[..|ticks| - 1]), ticks[|ticks| - 1];
      if tick.Move? && tick.task < |v.tasks| {
        AdvanceKeepsWaiting(c, v.sh, v.tasks[tick.task], tick.now, tick.answer);
      }
    }
  }

  lemma AdvanceKeepsWaiting(c: Config, sh: Shared, t: Task, now: int, answer: Json)
    ensures sh.waiting <= Advance(c, sh, t, now, answer).0.waiting
    ensures forall p :: p in sh.emitted ==> p in Advance(c, sh, t, now, answer).0.emitted
  {
    hide ChoiceOf, OutputMap, Visible, SignalOf;
  }

  /**
    Whatever a child workflow or a map call records while a wave runs is among the events of the
    turn, and other events handed in are not.
  */
  lemma ChildEventsAreEmitted(c: Config, w: Wave, a: seq<Tick>, i: nat, now: int, answer: Json, b: seq<Tick>,
      e: Payload)
    requires Asks(c, Run(c, w, a), i, Record(e))
    ensures var v, u := Run(c, w, a), Run(c, w, a + [Move(i, now, answer)] + b);
            && (IsChildEvent(e) ==> e in u.sh.emitted && e in Settle(u).emitted)
            && (!IsChildEvent(e) ==> Run(c, w, a + [Move(i, now, answer)]).sh == v.sh)
  {
    hide Run;
    MoveInTwo(c, w, a, Move(i, now, answer), b);
    MoveInTwo(c, w, a, Move(i, now, answer), []);
    assert a + [Move(i, now, answer)] + [] == a + [Move(i, now, answer)];
    NoMoreTicks(c, Take(c, Run(c, w, a), Move(i, now, answer)));
    RunKeepsWaiting(c, Take(c, Run(c, w, a), Move(i, now, answer)), b);
  }

  lemma NoMoreTicks(c: Config, w: Wave)
    ensures Run(c, w, []) == w
  {}

  /**
    A wait for a signal that nothing settled puts the signal on the list with which the turn ends,
    and a first wait records signal.waiting with the deadline counted from the moment of the call.
  */
  lemma WaitsAreRecorded(c: Config, w: Wave, a: seq<Tick>, i: nat, now: int, answer: Json, b: seq<Tick>,
      signal: string, timeout: int)
    requires Asks(c, Run(c, w, a), i, Await(signal, timeout))
    requires forall p :: p in c.Past() ==> !(p.SignalReceived? && p.signal == signal)
                                           && !(p.SignalTimeout? && p.signal == signal)
    ensures var u := Run(c, w, a + [Move(i, now, answer)] + b);
            && (exists x :: x in u.sh.waiting && x.signal == signal)
            && ((forall p :: p in c.Past() ==> !(p.SignalWaiting? && p.signal == signal)) ==>
                  SignalWaiting(signal, now + timeout) in u.sh.emitted)
  {
    hide Run;
    LastNone(c.Past(), ReceivedView(signal));
    LastNone(c.Past(), TimeoutView(signal));
    LastNone(c.Past(), WaitingView(signal));
    var v := Take(c, Run(c, w, a), Move(i, now, answer));
    MoveInTwo(c, w, a, Move(i, now, answer), b);
    Listed(c, Run(c, w, a).sh, signal, timeout, now);
    RunKeepsWaiting(c, v, b);
    var x :| x in v.sh.waiting && x.signal == signal;
  }

  lemma Listed(c: Config, sh: Shared, signal: string, timeout: int, now: int)
    requires Last(c.Past(), ReceivedView(signal)).None? && Last(c.Past(), TimeoutView(signal)).None?
    ensures exists x :: x in Wait(c, sh, signal, timeout, now).0.waiting && x.signal == signal
  {
    if !exists x :: x in sh.waiting && x.signal == signal {
      var waiting := Wait(c, sh, signal, timeout, now).0.waiting;
      assert waiting[|sh.waiting|] in waiting;
    }
  }
}
