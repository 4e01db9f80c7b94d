/** The replayer with its mutable fields, proved against the replay function. */
module Replayers {
  import opened Events
  import opened Scans
  import opened Queries
  import opened Histories
  import opened EventLogs
  import opened Definitions
  import opened Engine
  import opened Executions
  import opened Replays
  import opened Protocol

  /** The steps done once the results of a wave are in. */
  function Successes(tasks: seq<Task>, before: set<string>): set<string> {
    if tasks == [] then before
    else
      var t := tasks[|tasks| - 1];
      Successes(tasks[..|tasks| - 1], before) + if t.phase.Done? && t.phase.ending.Succeeded? then {t.step.name} else {}
  }

  lemma NamesPush(steps: seq<Step>, s: Step)
    ensures Names(steps + [s]) == Names(steps) + {s.name}
  {
    var all := steps + [s];
    assert all[|steps|] == s;
    forall n | n in Names(steps) ensures n in Names(all) {
      var i :| 0 <= i < |steps| && steps[i].name == n;
      assert all[i].name == n;
    }
  }

  /** One more event, with the next number and the next ID. */
  lemma NumberPush(events: seq<Event>, run: string, last: int, ids: nat -> string, p: Payload)
    requires events == Number(Payloads(events), run, last, ids)
    ensures var more := events + [Event(ids(|events|), run, last + 1 + |events|, p)];
            Payloads(more) == Payloads(events) + [p] && more == Number(Payloads(more), run, last, ids)
  {
    var e := Event(ids(|events|), run, last + 1 + |events|, p);
    PayloadsAppend(events, [e]);
  }

  lemma WaitingPush(tasks: seq<Task>, t: Task)
    ensures AnyWaiting(tasks + [t]) <==> AnyWaiting(tasks) || t.phase == Done(Waiting)
  {
    var more := tasks + [t];
    assert more[|tasks|] == t;
    if AnyWaiting(tasks) {
      var i :| 0 <= i < |tasks| && tasks[i].phase == Done(Waiting);
      assert more[i] == tasks[i];
    }
  }

  class Replayer {
    const config: Config
    const history: History
    const newID: nat -> string
    var nextSequence: int
    var outputCache: map<string, Json>
    var newEvents: seq<Event>
    var waitingSignals: seq<WaitingSignal>
    var ctxDone: bool
    var groupDone: bool

    /** What the goroutines share, as a value. */
    function View(): Shared
      reads this
    {
      Shared(Payloads(newEvents), outputCache, waitingSignals, ctxDone, groupDone)
    }

    /** New events are numbered consecutively after the history, and nextSequence follows. */
    ghost predicate NumberedOn()
      reads this
    {
      && newEvents == Number(Payloads(newEvents), config.runID, LastSequence(config.log), newID)
      && nextSequence == LastSequence(config.log) + 1 + |newEvents|
    }

    ghost predicate Valid()
      reads this, history
    {
      && NumberedOn()
      && history.events == config.log && history.Valid(Payloads(newEvents))
    }

    constructor (config: Config, history: History, newID: nat -> string)
      requires history.events == config.log && history.Valid([])
      ensures this.config == config && this.history == history && this.newID == newID
      ensures Valid() && View() == Shared([], map[], [], false, false)
    {
      this.config, this.history, this.newID := config, history, newID;
      nextSequence := history.lastSequence + 1;
      outputCache := map[];
      newEvents := [];
      waitingSignals := [];
      ctxDone, groupDone := false, false;
    }

    /** emitEvent: the one place where events get their ID and sequence number. */
    method EmitEvent(p: Payload)
      requires NumberedOn()
      modifies this`newEvents, this`nextSequence
      ensures NumberedOn() && Payloads(newEvents) == old(Payloads(newEvents)) + [p]
    {
      var e := Event(newID(|newEvents|), config.runID, nextSequence, p);
      NumberPush(newEvents, config.runID, LastSequence(config.log), newID, p);
      newEvents := newEvents + [e];
      nextSequence := nextSequence + 1;
    }

    method Emit(p: Payload)
      requires Valid() && !p.BranchEvaluated?
      modifies this`newEvents, this`nextSequence
      ensures Valid() && Payloads(newEvents) == old(Payloads(newEvents)) + [p]
    {
      history.OtherEventRecorded(Payloads(newEvents), p);
      EmitEvent(p);
    }

    method RecordBranchEvaluated(branch: string, choice: string)
      requires Valid()
      modifies this`newEvents, this`nextSequence, history`branches
      ensures Valid() && Payloads(newEvents) == old(Payloads(newEvents)) + [BranchEvaluated(branch, choice)]
    {
      history.RecordBranchChoice(branch, choice, Payloads(newEvents));
      EmitEvent(BranchEvaluated(branch, choice));
    }

    /** GetOutput: the cache of this replay first, then the history. */
    function GetOutput(step: string): (output: Option<Json>)
      requires Valid()
      reads this, history
      ensures output == Visible(config, View(), step)
    {
      if step in outputCache then Some(outputCache[step]) else history.GetOutput(step)
    }

    method AddWaitingSignal(signal: string, timeoutAt: int)
      modifies this`waitingSignals
      ensures waitingSignals == AddWaiting(old(waitingSignals), signal, timeoutAt)
    {
      for i := 0 to |waitingSignals|
        invariant waitingSignals == old(waitingSignals)
        invariant forall k :: 0 <= k < i ==> waitingSignals[k].signal != signal
      {
        if waitingSignals[i].signal == signal {
          assert waitingSignals[i] in waitingSignals;
          return;
        }
      }
      waitingSignals := waitingSignals + [WaitingSignal(signal, timeoutAt)];
    }

    method WaitForSignal(signal: string, timeout: int, now: int) returns (reply: Reply)
      requires Valid()
      modifies this
      ensures Valid() && (View(), reply) == Wait(config, old(View()), signal, timeout, now)
    {
      var state := history.GetSignalState(signal);
      if state.Some? {
        if state.value.received {
          return Delivered(state.value.message);
        }
        if state.value.timeout {
          return TimedOut;
        }
        assert state.value.waiting;
        AddWaitingSignal(signal, state.value.timeoutAt);
        return StillWaiting;
      }
      var timeoutAt := now + timeout;
      Emit(SignalWaiting(signal, timeoutAt));
      AddWaitingSignal(signal, timeoutAt);
      return StillWaiting;
    }

    /** Before the retry loop: the context check, and for branches the choice. */
    method EnterStep(t: Task, answer: Json) returns (u: Task)
      requires Valid()
      modifies this, history
      ensures Valid() && (View(), u) == Enter(config, old(View()), t, answer)
    {
      if ctxDone || groupDone {
        return t.(phase := Leaving(Cancelled));
      }
      if t.step.Plain? {
        return t.(phase := Starting(1));
      }
      var recorded := history.GetBranchChoice(t.step.name, Payloads(newEvents));
      if recorded.Some? {
        return t.(choice := recorded.value, phase := Starting(1));
      }
      history.OutputsAreMap();
      var choice := t.step.selector(config.input, history.outputs + outputCache, answer);
      RecordBranchEvaluated(t.step.name, choice);
      return t.(choice := choice, phase := Starting(1));
    }

    /** One call of the step's code and the engine's reaction to it. */
    method WorkStep(t: Task, now: int, answer: Json) returns (u: Task)
      requires Valid() && t.phase.Running?
      modifies this
      ensures Valid() && (View(), u) == Work(config, old(View()), t, now, answer)
    {
      var Running(attempt, replies) := t.phase;
      match t.step.Next(config.input, t.choice, replies) {
        case Return(output) =>
          outputCache := outputCache[t.CacheKey() := output];
          u := t.(events := t.events + [t.Finished(output)], phase := Leaving(Succeeded(output)));
        case Fail(error) =>
          var willRetry := t.step.ShouldRetry(attempt);
          u := t.(events := t.events + [t.Faulted(error, attempt, willRetry)],
                  phase := if willRetry then BackingOff(attempt) else Leaving(Failed(error)));
        case Pause =>
          u := t.(phase := Leaving(Waiting));
        case Read(step) =>
          u := t.(phase := Running(attempt, replies + [Output(GetOutput(step))]));
        case Await(signal, timeout) =>
          var reply := WaitForSignal(signal, timeout, now);
          u := t.(phase := Running(attempt, replies + [reply]));
        case Ask =>
          u := t.(phase := Running(attempt, replies + [Answer(answer)]));
        case Record(event) =>
          if IsChildEvent(event) {
            Emit(event);
          }
          u := t.(phase := Running(attempt, replies + [Recorded]));
      }
    }

    /** executeStepWithEvents, one atomic move at a time. */
    method AdvanceTask(t: Task, now: int, answer: Json) returns (u: Task)
      requires Valid()
      modifies this, history
      ensures Valid() && (View(), u) == Advance(config, old(View()), t, now, answer)
    {
      hide Enter, Work;
      match t.phase {
        case Entering =>
          u := EnterStep(t, answer);
        case Starting(attempt) =>
          if ctxDone || groupDone {
            u := t.(phase := Leaving(Cancelled));
          } else {
            u := t.(events := t.events + [t.Started(attempt)], phase := Running(attempt, []));
          }
        case Running(_, _) =>
          u := WorkStep(t, now, answer);
        case BackingOff(attempt) =>
          u := t.(phase := if ctxDone || groupDone then Leaving(Cancelled) else Starting(attempt + 1));
        case Leaving(ending) =>
          if !ending.Succeeded? {
            groupDone := true;
          }
          u := t.(phase := Done(ending));
        case Done(_) =>
          u := t;
      }
    }

    /** executeParallel: the goroutines of a wave, interleaved as the schedule says. */
    method ExecuteParallel(ready: seq<Step>, ticks: seq<Tick>) returns (tasks: seq<Task>)
      requires Valid()
      modifies this, history
      ensures Valid()
      ensures Wave(View(), tasks) == Run(config, Wave(old(View()).(groupDone := false), NewTasks(ready)), ticks)
    {
      hide Advance;
      ghost var start := Wave(View().(groupDone := false), NewTasks(ready));
      groupDone := false;
      tasks := NewTasks(ready);
      for k := 0 to |ticks|
        invariant Valid()
        invariant Wave(View(), tasks) == Run(config, start, ticks[..k])
      {
        assert ticks[..k + 1][..k] == ticks[..k];
        match ticks[k] {
          case Cancel =>
            ctxDone := true;
          case Move(i, now, answer) =>
            if i < |tasks| {
              var t := AdvanceTask(tasks[i], now, answer);
              tasks := tasks[i := t];
            }
        }
      }
      assert ticks[..|ticks|] == ticks;
    }

    method FindReadySteps(completed: set<string>) returns (ready: seq<Step>)
      requires Valid()
      ensures ready == FindReady(config, completed)
    {
      var steps := config.def.steps;
      ready := [];
      for i := 0 to |steps|
        invariant ready == Unsorted(config, steps[..i], completed)
      {
        assert steps[..i + 1][..i] == steps[..i];
        var fatal := history.GetFatalError(steps[i].name);
        if steps[i].name !in completed && fatal.None? {
          var allDepsComplete := true;
          for k := 0 to |steps[i].deps|
            invariant allDepsComplete <==> forall l :: 0 <= l < k ==> steps[i].deps[l] in completed
          {
            if steps[i].deps[k] !in completed {
              allDepsComplete := false;
              break;
            }
          }
          if allDepsComplete {
            ready := ready + [steps[i]];
          }
        }
      }
      assert steps[..|steps|] == steps;
      ready := SortByName(ready);
    }

    method EmitAll(events: seq<Payload>)
      requires Valid() && forall p :: p in events ==> !p.BranchEvaluated?
      modifies this`newEvents, this`nextSequence
      ensures Valid() && Payloads(newEvents) == old(Payloads(newEvents)) + events
    {
      ghost var before := Payloads(newEvents);
      for k := 0 to |events|
        invariant Valid() && Payloads(newEvents) == before + events[..k]
      {
        Emit(events[k]);
        assert events[..k + 1] == events[..k] + [events[k]];
      }
      assert events[..|events|] == events;
    }

    static lemma TaggedEmits(t: Task)
      requires Tagged(t)
      ensures forall p :: p in t.events ==> !p.BranchEvaluated?
    {}

    /** Sort one more result into the verdict on a wave. */
    static method JudgeResult(ghost before: seq<Task>, t: Task, ghost completed0: set<string>,
                              ghost finalOutput0: Option<Json>, completed: set<string>, finalOutput: Option<Json>,
                              failed: Option<string>, isWaiting: bool)
      returns (completed': set<string>, finalOutput': Option<Json>, failed': Option<string>, isWaiting': bool)
      requires t.phase.Done?
      requires completed == Successes(before, completed0) && finalOutput == LastOutput(before, finalOutput0)
      requires failed == FirstFailure(before) && isWaiting == AnyWaiting(before)
      ensures completed' == Successes(before + [t], completed0) && finalOutput' == LastOutput(before + [t],
              finalOutput0)
      ensures failed' == FirstFailure(before + [t]) && isWaiting' == AnyWaiting(before + [t])
    {
      completed', finalOutput', failed', isWaiting' := completed, finalOutput, failed, isWaiting;
      hide AnyWaiting;
      ghost var after := before + [t];
      assert after[..|before|] == before && after[|before|] == t;
      WaitingPush(before, t);
      match t.phase.ending {
        case Waiting =>
          isWaiting' := true;
        case Failed(error) =>
          if failed.None? {
            failed' := Some(t.step.name + " failed: " + error);
          }
        case Cancelled =>
          if failed.None? {
            failed' := Some(t.step.name + " failed: context canceled");
          }
        case Succeeded(output) =>
          completed' := completed + {t.step.name};
          finalOutput' := Some(output);
      }
    }

    /** After a wave: emit the kept-back events in task order, and sort the results. */
    method CollectResults(tasks: seq<Task>, completed0: set<string>, finalOutput0: Option<Json>)
      returns (completed: set<string>, finalOutput: Option<Json>, failed: Option<string>, isWaiting: bool)
      requires Valid() && Wave(View(), tasks).AllDone()
      requires forall i :: 0 <= i < |tasks| ==> Tagged(tasks[i])
      modifies this`newEvents, this`nextSequence
      ensures Valid() && View() == Settle(Wave(old(View()), tasks))
      ensures failed == FirstFailure(tasks) && isWaiting == AnyWaiting(tasks) &&
              finalOutput == LastOutput(tasks, finalOutput0)
      ensures completed == Successes(tasks, completed0)
    {
      hide Tagged, Valid, AnyWaiting, FirstFailure;
      completed, finalOutput, failed, isWaiting := completed0, finalOutput0, None, false;
      ghost var before := View();
      NothingToJudge(completed0, finalOutput0);
      for i := 0 to |tasks|
        invariant Valid() && View() == before.(emitted := before.emitted + Gather(tasks[..i]))
        invariant failed == FirstFailure(tasks[..i]) && finalOutput == LastOutput(tasks[..i], finalOutput0)
        invariant isWaiting == AnyWaiting(tasks[..i]) && completed == Successes(tasks[..i], completed0)
      {
        var t := tasks[i];
        assert tasks[..i + 1] == tasks[..i] + [t] && tasks[..i + 1][..i] == tasks[..i];
        assert before.emitted + (Gather(tasks[..i]) + t.events) == before.emitted + Gather(tasks[..i]) + t.events;
        TaggedEmits(t);
        EmitAll(t.events);
        completed, finalOutput, failed, isWaiting :=
          JudgeResult(tasks[..i], t, completed0, finalOutput0, completed, finalOutput, failed, isWaiting);
      }
      assert tasks[..|tasks|] == tasks;
    }

    static lemma NothingToJudge(completed: set<string>, finalOutput: Option<Json>)
      ensures FirstFailure([]).None? && !AnyWaiting([]) && LastOutput([], finalOutput) == finalOutput &&
              Successes([], completed) == completed
    {}

    /** One turn of the wave loop. */
    method Turn(completed0: set<string>, finalOutput0: Option<Json>, waves: nat, env: Environment)
      returns (out: Option<ReplayOutput>, dead: bool, completed: set<string>, finalOutput: Option<Json>)
      requires Valid()
      modifies this, history
      ensures Valid()
      ensures var turn := WaveTurn(config, Loop(old(View()), completed0, finalOutput0, waves), env);
              && dead == turn.Dead? && (out.Some? <==> turn.Out?)
              && (turn.Out? ==> out.value == turn.output && Payloads(newEvents) == turn.output.emitted)
              && (turn.Again? ==> turn.next == Loop(View(), completed, finalOutput, waves + 1))
    {
      hide FindReady, Run, Grammar, Gather, FirstFailure, LastOutput;
      out, dead, completed, finalOutput := None, false, completed0, finalOutput0;
      if ctxDone {
        out := Some(ReplayOutput(ReplaySuspended, None, [], Payloads(newEvents), waves));
        return;
      }
      var ready := FindReadySteps(completed0);
      if |ready| == 0 {
        Emit(WorkflowCompleted(finalOutput0));
        out := Some(ReplayOutput(ReplayCompleted, finalOutput0, [], Payloads(newEvents), waves));
        return;
      }
      ghost var l := Loop(View(), completed0, finalOutput0, waves);
      var tasks := ExecuteParallel(ready, env.schedule(waves));
      assert Wave(View(), tasks) == StartWave(config, l, ready, env);
      WaveFacts(config, l, ready, env);
      if !Wave(View(), tasks).AllDone() {
        dead := true;
        return;
      }
      var failed, isWaiting;
      completed, finalOutput, failed, isWaiting := CollectResults(tasks, completed0, finalOutput0);
      if isWaiting {
        out := Some(ReplayOutput(ReplayWaiting, None, waitingSignals, Payloads(newEvents), waves + 1));
      } else if failed.Some? {
        out := Some(ReplayOutput(ReplayFailed(failed.value), None, [], Payloads(newEvents), waves + 1));
      } else {
        AllSucceeded(tasks);
        CompletedAreReady(ready, tasks, completed0);
      }
    }

    static lemma {:induction false} CompletedAreReady(ready: seq<Step>, tasks: seq<Task>, completed0: set<string>)
      requires |tasks| == |ready| && forall i :: 0 <= i < |ready| ==> tasks[i].step == ready[i]
      requires forall i :: 0 <= i < |ready| ==> tasks[i].phase.Done? && tasks[i].phase.ending.Succeeded?
      ensures Successes(tasks, completed0) == completed0 + Names(ready)
    {
      if tasks != [] {
        var n := |tasks| - 1;
        CompletedAreReady(ready[..n], tasks[..n], completed0);
        NamesPush(ready[..n], ready[n]);
        assert ready == ready[..n] + [ready[n]];
      }
    }

    /** The steps whose output the history holds. */
    method CompletedSteps() returns (completed: set<string>)
      requires Valid()
      ensures completed == CompletedBefore(config)
    {
      var steps := config.def.steps;
      completed := {};
      for i := 0 to |steps|
        invariant forall n :: n in completed <==>
                    (exists k :: 0 <= k < i && steps[k].name == n) && OutputOf(config.Past(), n).Some?
      {
        var output := history.GetOutput(steps[i].name);
        if output.Some? {
          completed := completed + {steps[i].name};
        }
      }
    }

    /** The first step, in definition order, that failed for good. */
    method FatalStep() returns (fatal: Option<string>)
      requires Valid()
      ensures fatal == FirstFatal(config, config.def.steps)
    {
      var steps := config.def.steps;
      var i := 0;
      while i < |steps|
        invariant i <= |steps| && FirstFatal(config, steps) == FirstFatal(config, steps[i..])
      {
        var error := history.GetFatalError(steps[i].name);
        if error.Some? {
          return Some(steps[i].name + " failed: " + error.value);
        }
        assert steps[i..][1..] == steps[i + 1..];
        i := i + 1;
      }
      return None;
    }

    /** Replay a run: the outcome and the new events are those of the replay function. */
    method Replay(env: Environment) returns (out: Option<ReplayOutput>)
      requires Valid() && View() == Shared([], map[], [], false, false)
      modifies this, history
      ensures Valid() && out == Engine.Replay(config, env)
      ensures out.Some? ==> newEvents == Number(out.value.emitted, config.runID, LastSequence(config.log), newID)
      ensures out.Some? ==> nextSequence == LastSequence(config.log) + 1 + |out.value.emitted|
    {
      hide WaveTurn, FirstFatal;
      if history.cancelled {
        return Some(ReplayOutput(ReplayFailed("workflow cancelled"), None, [], Payloads(newEvents), 0));
      }
      if history.completed {
        return Some(ReplayOutput(ReplayCompleted, None, [], Payloads(newEvents), 0));
      }
      if history.workflowInput.None? && |newEvents| == 0 {
        Emit(WorkflowStarted(config.def.name, config.def.version, config.input));
      }
      assert Payloads(newEvents) == Opening(config);
      var completed := CompletedSteps();
      var fatal := FatalStep();
      if fatal.Some? {
        return Some(ReplayOutput(ReplayFailed(fatal.value), None, [], Payloads(newEvents), 0));
      }
      ctxDone := env.cancelledEarly;
      var finalOutput, waves := None, 0;
      while true
        invariant Valid()
        invariant Engine.Replay(config, env) == Waves(config, Loop(View(), completed, finalOutput, waves), env)
        decreases Names(config.def.steps) - completed
      {
        ghost var l := Loop(View(), completed, finalOutput, waves);
        if WaveTurn(config, l, env).Again? {
          TurnShrinks(config, l, env);
        }
        var dead;
        out, dead, completed, finalOutput := Turn(completed, finalOutput, waves, env);
        waves := waves + 1;
        if out.Some? {
          return;
        }
        if dead {
          return None;
        }
      }
    }
  }
}
