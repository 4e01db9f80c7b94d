/** Steps that a resumed run executes again: those whose completion is not found under their own name. */
module Resumes {
  import opened Events
  import opened EventLogs
  import opened Scans
  import opened Queries
  import opened Definitions
  import opened Engine
  import opened Replays
  import opened Decisions
  import opened Settling
  import opened Protocol
  import opened Growth
  import opened Safety
  import opened Completion
  import opened LostWakeups

  // ----- One job, worked without conflict -----

  predicate GoesOn(o: ReplayOutput) {
    o.result.ReplaySuspended? || o.result.ReplayCompleted?
  }

  /** The log grows by what the replay gives; a suspended replay leaves the run a new job. */
  lemma WorkedJob(registry: Registry, actions: seq<Action>, job: nat, op: nat, env: Environment, ids: nat -> string)
    requires var s := After(registry, actions);
             && job in s.pending && job < |s.jobs| && s.jobs[job].WorkflowJob? && s.inflight == map[]
             && Open(Payloads(s.store.Of(s.jobs[job].run))) && s.jobs[job].workflow in registry
             && var c := ConfigOf(registry[s.jobs[job].workflow], s.jobs[job].run, s.store.Of(s.jobs[job].run));
                Replay(c, env).Some? && GoesOn(Replay(c, env).value)
                && FreshFor(s.store, ids, |Replay(c, env).value.emitted| + 1)
    ensures var s, t := After(registry, actions), After(registry, actions + [Fetch(op, job), Commit(op, env, ids)]);
            var WorkflowJob(run, workflow) := s.jobs[job];
            var o := Replay(ConfigOf(registry[workflow], run, s.store.Of(run)), env).value;
            && Payloads(t.store.Of(run)) == Payloads(s.store.Of(run)) + o.emitted && t.inflight == map[]
            && (o.result.ReplaySuspended? ==> t.jobs == s.jobs + [WorkflowJob(run, workflow)] && |s.jobs| in t.pending)
            && forall id :: id in t.store.ids ==> id in s.store.ids || exists i: nat :: id == ids(i)
  {
    hide FreshFor, AppendWork, Replay, Consistent, CommitWork, After, LastSequence, Payloads;
    var s := After(registry, actions);
    var WorkflowJob(run, workflow) := s.jobs[job];
    var log := s.store.Of(run);
    RunsAreConsistent(registry, actions);
    assert Sound(s.store) by { JobKnowsRun(s, job); }
    var o := Replay(ConfigOf(registry[workflow], run, log), env).value;
    FreshWorkIsAccepted(s.store, o, run, ids);
    NewIds(s.store, Number(o.emitted, run, LastSequence(log), ids), ids);
    TwoMore(registry, actions, Fetch(op, job), Commit(op, env, ids));
    var u := Act(registry, s, Fetch(op, job));
    assert u == s.(inflight := map[op := Working(job, run, workflow, log)]);
    assert u.(inflight := u.inflight - {op}) == s;
    WorkedCommit(registry, s, Working(job, run, workflow, log), env, ids);
  }

  lemma WorkedCommit(registry: Registry, s: System, op: Op, env: Environment, ids: nat -> string)
    requires op.Working? && Open(Payloads(op.log)) && op.workflow in registry && op.log == s.store.Of(op.run)
    requires var replay := Replay(ConfigOf(registry[op.workflow], op.run, op.log), env);
             && replay.Some? && GoesOn(replay.value)
             && AppendWork(s.store, replay.value, op.run, LastSequence(op.log), ids).Some?
    ensures var o := Replay(ConfigOf(registry[op.workflow], op.run, op.log), env).value;
            var t := CommitWork(registry, s, op, env, ids);
            && t.store == AppendWork(s.store, o, op.run, LastSequence(op.log), ids).value && t.inflight == s.inflight
            && t.store == AppendAll(s.store, Number(o.emitted, op.run, LastSequence(op.log), ids)).1
            && (o.result.ReplaySuspended? ==>
                  t.jobs == s.jobs + [WorkflowJob(op.run, op.workflow)] && |s.jobs| in t.pending)
  {
    hide Replay, AppendAll, LastSequence, Payloads;
  }

  lemma NewIds(store: Logs, es: seq<Event>, ids: nat -> string)
    requires forall i :: 0 <= i < |es| ==> es[i].id == ids(i)
    ensures forall id :: id in AppendAll(store, es).1.ids ==> id in store.ids || exists i: nat :: id == ids(i)
  {
    if es != [] {
      NewIds(store, es[..|es| - 1], ids);
      assert es[|es| - 1].id == ids(|es| - 1);
    }
  }

  // ----- One step that returns at once -----

  /** Nobody cancels until the goroutine is done; then the context ends. */
  const SUSPENDING := Environment(false, (n: nat) => [TURN, TURN, TURN, TURN, Cancel])

  predicate Chooses(s: Step, input: Json, choice: string) {
    if s.Plain? then choice == "" else s.selector(input, map[], "") == choice
  }

  /** Returns at once, and under a name other than its own, or under none. */
  predicate Overlooked(s: Step, input: Json, choice: string, output: Json) {
    && s.deps == [] && Chooses(s, input, choice) && s.Next(input, choice, []) == Return(output)
    && (s.name == "" || s.Label(choice) != s.name)
  }

  function Evaluation(s: Step, choice: string): seq<Payload> {
    if s.Branch? then [BranchEvaluated(s.name, choice)] else []
  }

  /** The events of one execution. */
  function Executed(s: Step, choice: string, output: Json): seq<Payload> {
    [StepStarted(s.Label(choice), 1, s.BranchName(), choice),
     StepCompleted(s.Label(choice), Some(output), s.BranchName(), choice)]
  }

  function Fresh(s: Step): Task {
    Task(s, "", [], Entering)
  }

  /** The wave of the one step, when it is over. */
  function Returned(s: Step, choice: string, output: Json, e: seq<Payload>): Wave {
    var t := Task(s, choice, Executed(s, choice, output), Done(Succeeded(output)));
    Wave(IDLE.(emitted := e, cache := map[t.CacheKey() := output]), [t])
  }

  lemma WaveReturns(c: Config, s: Step, choice: string, output: Json, e: seq<Payload>)
    requires s.Next(c.input, choice, []) == Return(output)
    requires Enter(c, IDLE, Fresh(s), "") == (IDLE.(emitted := e), Fresh(s).(choice := choice, phase := Starting(1)))
    ensures Run(c, Wave(IDLE, NewTasks([s])), FOUR_TURNS.schedule(0)) == Returned(s, choice, output, e)
  {
    hide Run, NewTasks, Enter;
    assert [] + [TURN] == [TURN] && [TURN] + [TURN] == [TURN, TURN] && [TURN, TURN] + [TURN] == [TURN, TURN, TURN];
    assert [TURN, TURN, TURN] + [TURN] == FOUR_TURNS.schedule(0);
    var t := Fresh(s).(choice := choice);
    NoTurn(c, s);
    OneTurn(c, Fresh(s), IDLE, []);
    var sh := IDLE.(emitted := e);
    OneTurn(c, t.(phase := Starting(1)), sh, [TURN]);
    var started := t.(events := [t.Started(1)]);
    assert Start(sh, t.(phase := Starting(1))).1 == started.(phase := Running(1, []));
    OneTurn(c, started.(phase := Running(1, [])), sh, [TURN, TURN]);
    var done := t.(events := Executed(s, choice, output), phase := Leaving(Succeeded(output)));
    assert started.events + [started.Finished(output)] == done.events;
    var after := sh.(cache := sh.cache[t.CacheKey() := output]);
    assert Work(c, sh, started.(phase := Running(1, [])), 0, "") == (after, done);
    OneTurn(c, done, after, [TURN, TURN, TURN]);
  }

  /** Where the loop then stands: the step is done, and the context too if it was cancelled meanwhile. */
  function NextLoop(s: Step, choice: string, output: Json, e: seq<Payload>, env: Environment): Loop {
    var sh := Returned(s, choice, output, e).sh;
    Loop(sh.(emitted := e + Executed(s, choice, output), ctxDone := |env.schedule(0)| == 5), {s.name}, Some(output), 1)
  }

  /** A turn of the wave loop with this one step to run, in either environment. */
  lemma TurnReturns(c: Config, s: Step, choice: string, output: Json, e: seq<Payload>, env: Environment)
    requires env == FOUR_TURNS || env == SUSPENDING
    requires c.def.steps == [s] && s.deps == [] && FatalOf(c.Past(), s.name).None?
    requires s.Next(c.input, choice, []) == Return(output)
    requires Enter(c, IDLE, Fresh(s), "") == (IDLE.(emitted := e), Fresh(s).(choice := choice, phase := Starting(1)))
    ensures WaveTurn(c, Loop(IDLE, {}, None, 0), env) == Again(NextLoop(s, choice, output, e, env))
  {
    hide Run, FindReady, Enter, Executed;
    SleeperReady(c, s);
    WaveReturns(c, s, choice, output, e);
    ThenCancelled(c, Wave(IDLE, NewTasks([s])));
    var w := StartWave(c, Loop(IDLE, {}, None, 0), [s], env);
    assert w.tasks == [Task(s, choice, Executed(s, choice, output), Done(Succeeded(output)))];
    assert w.tasks[..0] == [] && Gather(w.tasks) == Executed(s, choice, output);
    assert w.tasks[0].phase == Done(Succeeded(output)) && w.AllDone() && FirstFailure(w.tasks).None?;
    assert !AnyWaiting(w.tasks) && LastOutput(w.tasks, None) == Some(output);
    assert {} + Names([s]) == {s.name} by { assert [s][0].name == s.name; }
  }

  lemma ThenCancelled(c: Config, w: Wave)
    ensures Run(c, w, SUSPENDING.schedule(0)) ==
            var v := Run(c, w, FOUR_TURNS.schedule(0)); v.(sh := v.sh.(ctxDone := true))
  {
    var ticks := SUSPENDING.schedule(0);
    assert ticks[..|ticks| - 1] == FOUR_TURNS.schedule(0);
  }

  lemma NoneReady(c: Config, s: Step)
    requires c.def.steps == [s]
    ensures FindReady(c, {s.name}) == []
  {
    if FindReady(c, {s.name}) != [] {
      ReadyMember(c, {s.name}, FindReady(c, {s.name})[0]);
    }
  }

  /** Suspended with the events when the context ended, else completed. */
  predicate Outcome(o: ReplayOutput, env: Environment, events: seq<Payload>, output: Json) {
    if |env.schedule(0)| == 5 then o.result.ReplaySuspended? && o.emitted == events
    else o.result.ReplayCompleted? && o.emitted == events + [WorkflowCompleted(Some(output))]
  }

  /** The whole replay: suspended after the step, or completed. */
  lemma ReplayReturns(c: Config, s: Step, choice: string, output: Json, e: seq<Payload>, env: Environment)
    requires env == FOUR_TURNS || env == SUSPENDING
    requires c.def.steps == [s] && s.deps == [] && Runnable(c)
    requires InputOf(c.Past()).Some? && OutputOf(c.Past(), s.name).None?
    requires s.Next(c.input, choice, []) == Return(output)
    requires Enter(c, IDLE, Fresh(s), "") == (IDLE.(emitted := e), Fresh(s).(choice := choice, phase := Starting(1)))
    ensures var events := e + Executed(s, choice, output);
            Replay(c, env).Some? && Outcome(Replay(c, env).value, env, events, output)
  {
    NoneFatal(c, c.def.steps, s);
    assert CompletedBefore(c) == {};
    TurnReturns(c, s, choice, output, e, env);
    hide StartWave, FindReady, Enter, Executed, IsCancelled, IsCompleted, FirstFatal, CompletedBefore, Waves, NextLoop;
    var l, next := Loop(IDLE, {}, None, 0), NextLoop(s, choice, output, e, env);
    assert FirstLoop(c, env) == l;
    OneTurnMore(c, l, next, env);
    LastTurn(c, s, choice, output, e, env);
  }

  lemma OneTurnMore(c: Config, l: Loop, next: Loop, env: Environment)
    requires WaveTurn(c, l, env) == Again(next)
    ensures Waves(c, l, env) == Waves(c, next, env)
  {
    hide WaveTurn;
  }

  lemma LastTurn(c: Config, s: Step, choice: string, output: Json, e: seq<Payload>, env: Environment)
    requires (env == FOUR_TURNS || env == SUSPENDING) && c.def.steps == [s]
    ensures var events, o := e + Executed(s, choice, output), Waves(c, NextLoop(s, choice, output, e, env), env);
            o.Some? && Outcome(o.value, env, events, output)
  {
    hide FindReady, StartWave, Executed;
    NoneReady(c, s);
  }

  // ----- The logs -----

  function FirstLog(name: string, input: Json): seq<Payload> {
    [WorkflowStarted(name, "1", input)]
  }

  function SecondLog(name: string, input: Json, s: Step, choice: string, output: Json): seq<Payload> {
    FirstLog(name, input) + Evaluation(s, choice) + Executed(s, choice, output)
  }

  /** An event that the index does not take for the end of the run or of the step. */
  predicate SaysNothing(p: Payload, step: string) {
    && CompletedView()(p).None? && CancelledView()(p).None? && InputView()(p).None?
    && OutputView(step)(p).None? && FatalView(step)(p).None?
  }

  /** What the index makes of a log in which nothing is recorded under the step's name. */
  lemma NothingSaid(first: Payload, rest: seq<Payload>, step: string)
    requires first.WorkflowStarted? && forall p :: p in rest ==> SaysNothing(p, step)
    ensures var ps := [first] + rest;
            && Open(ps) && InputOf(ps) == Some(first.input) && OutputOf(ps, step).None? && FatalOf(ps, step).None?
            && !IsCancelled(ps) && !IsCompleted(ps)
  {
    hide Last;
    var ps := [first] + rest;
    LastNone(ps, CompletedView());
    LastNone(ps, CancelledView());
    LastNone(ps, OutputView(step));
    LastNone(ps, FatalView(step));
    LastAppend([first], rest, InputView());
    LastNone(rest, InputView());
    LastPush([], first, InputView());
    assert [] + [first] == [first];
  }

  lemma NothingFound(ps: seq<Payload>, name: string, input: Json, s: Step, choice: string, output: Json)
    requires Overlooked(s, input, choice, output)
    requires ps == FirstLog(name, input) || ps == SecondLog(name, input, s, choice, output)
    ensures Open(ps) && InputOf(ps) == Some(input) && OutputOf(ps, s.name).None? && FatalOf(ps, s.name).None?
    ensures !IsCancelled(ps) && !IsCompleted(ps)
  {
    var first, rest := WorkflowStarted(name, "1", input), Evaluation(s, choice) + Executed(s, choice, output);
    assert forall p :: p in rest ==> SaysNothing(p, s.name);
    hide SaysNothing, Overlooked, Evaluation, Executed, IsCancelled, IsCompleted, InputOf, OutputOf, FatalOf;
    NothingSaid(first, rest, s.name);
    NothingSaid(first, [], s.name);
    assert [first] + [] == FirstLog(name, input);
    assert [first] + rest == SecondLog(name, input, s, choice, output);
  }

  lemma ChoiceFound(ps: seq<Payload>, name: string, input: Json, s: Step, choice: string, output: Json)
    requires s.Branch?
    ensures ps == FirstLog(name, input) ==> ChoiceOf(ps, s.name).None?
    ensures ps == SecondLog(name, input, s, choice, output) ==> ChoiceOf(ps, s.name) == Some(choice)
  {
    if ps == FirstLog(name, input) {
      LastNone(ps, ChoiceView(s.name));
    } else if ps == SecondLog(name, input, s, choice, output) {
      var i := FirstLog(name, input) + Evaluation(s, choice);
      assert i == FirstLog(name, input) + [BranchEvaluated(s.name, choice)];
      LastPush(FirstLog(name, input), BranchEvaluated(s.name, choice), ChoiceView(s.name));
      LastAppend(i, Executed(s, choice, output), ChoiceView(s.name));
      LastNone(Executed(s, choice, output), ChoiceView(s.name));
    }
  }

  /** The goroutine enters with the choice: evaluated in the first replay, found on record in the second. */
  lemma Enters(c: Config, name: string, s: Step, choice: string, output: Json)
    requires c.def.steps == [s] && Overlooked(s, c.input, choice, output)
    requires c.Past() == FirstLog(name, c.input) || c.Past() == SecondLog(name, c.input, s, choice, output)
    ensures var e := if c.Past() == FirstLog(name, c.input) then Evaluation(s, choice) else [];
            Enter(c, IDLE, Fresh(s), "") == (IDLE.(emitted := e), Fresh(s).(choice := choice, phase := Starting(1)))
  {
    assert |FirstLog(name, c.input)| != |SecondLog(name, c.input, s, choice, output)|;
    if s.Branch? {
      ChoiceFound(c.Past(), name, c.input, s, choice, output);
      assert c.Past() + [] == c.Past();
      if c.Past() == FirstLog(name, c.input) {
        assert c.Past()[..0] == [];
        assert OutputMap(c.Past()) + IDLE.cache == map[];
        assert IDLE.emitted + [BranchEvaluated(s.name, choice)] == Evaluation(s, choice);
      }
    }
  }

  // ----- The run -----

  function Letters(c: char): nat -> string {
    (i: nat) => seq(i + 1, _ => c)
  }

  /** Start the workflow, work the first job until the context ends, then work the next one to the end. */
  function TwoJobs(run: string, name: string, input: Json): seq<Action> {
    [StartWorkflow(run, name, input, "start")] + [Fetch(0, 0), Commit(0, SUSPENDING, Letters('a'))]
    + [Fetch(0, 1), Commit(0, FOUR_TURNS, Letters('b'))]
  }

  lemma LettersDiffer(c: char)
    ensures forall i: nat, j: nat :: i != j ==> Letters(c)(i) != Letters(c)(j)
    ensures forall i: nat :: |Letters(c)(i)| > 0 && Letters(c)(i)[0] == c
  {
    forall i: nat, j: nat | i != j ensures Letters(c)(i) != Letters(c)(j) {
      assert |Letters(c)(i)| == i + 1 && |Letters(c)(j)| == j + 1;
    }
  }

  lemma FreshLetters(store: Logs, c: char, count: nat)
    requires forall id :: id in store.ids && id != "" ==> id[0] != c
    ensures FreshFor(store, Letters(c), count)
  {
    LettersDiffer(c);
  }

  lemma AfterStart(registry: Registry, run: string, name: string, input: Json)
    requires name in registry && registry[name].version == "1"
    ensures After(registry, [StartWorkflow(run, name, input, "start")]) ==
            Once(run, name, LostWakeups.Begun(run, name, input), {"start"})
    ensures Payloads(LostWakeups.Begun(run, name, input)) == FirstLog(name, input)
  {
    hide Act;
    StartedOnce(registry, run, name, input);
    assert [StartWorkflow(run, name, input, "start")][..0] == [];
  }

  lemma NotFatal(c: Config, s: Step)
    requires c.def.steps == [s] && FatalOf(c.Past(), s.name).None?
    ensures FirstFatal(c, c.def.steps).None?
  {
    assert c.def.steps[1..] == [];
  }

  /** The replay of one of the two jobs, from its log. */
  lemma ReplayOverlooks(conf: Config, name: string, s: Step, choice: string, output: Json, env: Environment)
    requires conf.def.steps == [s] && Overlooked(s, conf.input, choice, output)
    requires env == FOUR_TURNS || env == SUSPENDING
    requires conf.Past() == FirstLog(name, conf.input) || conf.Past() == SecondLog(name, conf.input, s, choice, output)
    ensures var e := if conf.Past() == FirstLog(name, conf.input) then Evaluation(s, choice) else [];
            var events := e + Executed(s, choice, output);
            Replay(conf, env).Some? && Outcome(Replay(conf, env).value, env, events, output)
  {
    hide Enter, Replay, FirstLog, SecondLog, Executed, Evaluation, IsCancelled, IsCompleted;
    NothingFound(conf.Past(), name, conf.input, s, choice, output);
    NotFatal(conf, s);
    Enters(conf, name, s, choice, output);
    var e := if conf.Past() == FirstLog(name, conf.input) then Evaluation(s, choice) else [];
    ReplayReturns(conf, s, choice, output, e, env);
  }

  /** One of the two jobs, from its log to the next. */
  lemma WorkedReturn(registry: Registry, actions: seq<Action>, job: nat, run: string, name: string, s: Step,
                     input: Json, choice: string, output: Json, env: Environment, c: char)
    requires registry == map[name := Definition(name, "1", [s])] && Overlooked(s, input, choice, output)
    requires env == FOUR_TURNS || env == SUSPENDING
    requires var now := After(registry, actions);
             && job in now.pending && job < |now.jobs| && now.jobs[job] == WorkflowJob(run, name)
             && now.inflight == map[]
             && forall id :: id in now.store.ids && id != "" ==> id[0] != c
    requires var ps := Payloads(After(registry, actions).store.Of(run));
             ps == FirstLog(name, input) || ps == SecondLog(name, input, s, choice, output)
    ensures var now := After(registry, actions);
            var next := After(registry, actions + [Fetch(0, job), Commit(0, env, Letters(c))]);
            var ps := Payloads(now.store.Of(run));
            var e := (if ps == FirstLog(name, input) then Evaluation(s, choice) else []) + Executed(s, choice, output);
            && (env == SUSPENDING ==> Payloads(next.store.Of(run)) == ps + e)
            && (env == FOUR_TURNS ==> Payloads(next.store.Of(run)) == ps + (e + [WorkflowCompleted(Some(output))]))
            && next.inflight == map[]
            && (env == SUSPENDING ==> next.jobs == now.jobs + [WorkflowJob(run, name)] && |now.jobs| in next.pending)
            && forall id :: id in next.store.ids ==> id in now.store.ids || exists i: nat :: id == Letters(c)(i)
  {
    hide Replay, After, FirstLog, SecondLog, Executed, Evaluation, Letters, FreshFor, Overlooked, InputOf, IsCancelled,
      IsCompleted;
    var now := After(registry, actions);
    var log := now.store.Of(run);
    var conf := ConfigOf(registry[name], run, log);
    NothingFound(Payloads(log), name, input, s, choice, output);
    assert conf.Past() == Payloads(log) && conf.input == input && conf.def.steps == [s];
    ReplayOverlooks(conf, name, s, choice, output, env);
    FreshLetters(now.store, c, |Replay(conf, env).value.emitted| + 1);
    WorkedJob(registry, actions, job, 0, env, Letters(c));
  }

  function OneJob(run: string, name: string, input: Json): seq<Action> {
    [StartWorkflow(run, name, input, "start")] + [Fetch(0, 0), Commit(0, SUSPENDING, Letters('a'))]
  }

  /** Where the first worker leaves the run: suspended, with a job to go on. */
  lemma AfterFirstJob(name: string, s: Step, run: string, input: Json, choice: string, output: Json)
    requires Overlooked(s, input, choice, output)
    ensures var now := After(map[name := Definition(name, "1", [s])], OneJob(run, name, input));
            && Payloads(now.store.Of(run)) == SecondLog(name, input, s, choice, output)
            && 1 in now.pending && 1 < |now.jobs| && now.jobs[1] == WorkflowJob(run, name) && now.inflight == map[]
            && forall id :: id in now.store.ids && id != "" ==> id[0] != 'b'
  {
    hide Overlooked, After, Executed, Evaluation, Letters;
    var registry := map[name := Definition(name, "1", [s])];
    AfterStart(registry, run, name, input);
    var start := [StartWorkflow(run, name, input, "start")];
    WorkedReturn(registry, start, 0, run, name, s, input, choice, output, SUSPENDING, 'a');
    LettersDiffer('a');
    assert FirstLog(name, input) + (Evaluation(s, choice) + Executed(s, choice, output)) ==
           SecondLog(name, input, s, choice, output);
  }

  /**
    A step whose completion is not found under its own name is executed again by the worker that
    resumes the run: here the log of one such run in full.
  */
  lemma OverlookedRunsAgain(name: string, s: Step, run: string, input: Json, choice: string, output: Json)
    requires Overlooked(s, input, choice, output)
    ensures var done := WorkflowCompleted(Some(output));
            Payloads(After(map[name := Definition(name, "1", [s])], TwoJobs(run, name, input)).store.Of(run)) ==
            SecondLog(name, input, s, choice, output) + (Executed(s, choice, output) + [done])
  {
    AfterFirstJob(name, s, run, input, choice, output);
    SecondIsLonger(name, input, s, choice, output);
    hide Overlooked, After, Executed, Evaluation, Letters, FirstLog, SecondLog;
    var registry := map[name := Definition(name, "1", [s])];
    assert [] + Executed(s, choice, output) == Executed(s, choice, output);
    WorkedReturn(registry, OneJob(run, name, input), 1, run, name, s, input, choice, output, FOUR_TURNS, 'b');
  }

  function Bit(b: bool): nat {
    if b then 1 else 0
  }

  lemma CountPair(keep: Payload -> bool, a: Payload, b: Payload)
    ensures Count(keep, [a, b]) == Bit(keep(a)) + Bit(keep(b))
  {
    FilterPush(keep, [], a);
    FilterPush(keep, [a], b);
    assert [] + [a] == [a] && [a] + [b] == [a, b];
  }

  lemma CountSingle(keep: Payload -> bool, a: Payload)
    ensures Count(keep, [a]) == Bit(keep(a))
  {
    FilterPush(keep, [], a);
    assert [] + [a] == [a];
  }

  /** Counting in the log of the two jobs: each execution counts, the rest counts once. */
  lemma CountTwice(keep: Payload -> bool, start: seq<Payload>, e: seq<Payload>, run: seq<Payload>, done: seq<Payload>)
    ensures Count(keep, start + e + run + (run + done)) ==
            Count(keep, start) + Count(keep, e) + 2 * Count(keep, run) + Count(keep, done)
  {
    FilterAppend(keep, start + e + run, run + done);
    FilterAppend(keep, run, done);
    FilterAppend(keep, start + e, run);
    FilterAppend(keep, start, e);
  }

  /** How often the log of the two jobs holds a choice and a completion. */
  lemma LogCounts(name: string, s: Step, run: string, input: Json, choice: string, output: Json, keep: Payload -> bool)
    requires Overlooked(s, input, choice, output)
    ensures var x := Executed(s, choice, output);
            var ps := Payloads(After(map[name := Definition(name, "1", [s])], TwoJobs(run, name, input)).store.Of(run));
            Count(keep, ps) ==
            Bit(keep(WorkflowStarted(name, "1", input))) + Count(keep, Evaluation(s, choice))
            + 2 * (Bit(keep(x[0])) + Bit(keep(x[1]))) + Bit(keep(WorkflowCompleted(Some(output))))
  {
    hide After, Overlooked, Count, Executed, Evaluation, SecondLog;
    OverlookedRunsAgain(name, s, run, input, choice, output);
    TwoJobsCount(name, s, input, choice, output, keep);
  }

  lemma TwoJobsCount(name: string, s: Step, input: Json, choice: string, output: Json, keep: Payload -> bool)
    ensures var x, done := Executed(s, choice, output), WorkflowCompleted(Some(output));
            Count(keep, SecondLog(name, input, s, choice, output) + (x + [done])) ==
            Bit(keep(WorkflowStarted(name, "1", input))) + Count(keep, Evaluation(s, choice))
            + 2 * (Bit(keep(x[0])) + Bit(keep(x[1]))) + Bit(keep(done))
  {
    var x, done := Executed(s, choice, output), WorkflowCompleted(Some(output));
    CountPair(keep, x[0], x[1]);
    assert x == [x[0], x[1]];
    CountSingle(keep, WorkflowStarted(name, "1", input));
    CountSingle(keep, done);
    hide Count, Executed, Evaluation;
    CountTwice(keep, FirstLog(name, input), Evaluation(s, choice), x, [done]);
  }

  /** A reachable log in which a plain step completed twice. */
  lemma UnnamedStepCompletesTwice(name: string, body: Body, run: string, input: Json, output: Json)
    requires body(input, []) == Return(output)
    ensures var registry := map[name := Definition(name, "1", [Plain("", [], None, body)])];
            Count(SettlesStep(""), Payloads(After(registry, TwoJobs(run, name, input)).store.Of(run))) == 2
  {
    hide After, Count;
    LogCounts(name, Plain("", [], None, body), run, input, "", output, SettlesStep(""));
    assert Count(SettlesStep(""), []) == 0 by { FilterNone(SettlesStep(""), []); EmptyCount(SettlesStep("")); }
  }

  lemma EmptyCount(keep: Payload -> bool)
    ensures Count(keep, []) == 0
  {}

  /** A reachable log in which a branch, evaluated once, executed its case twice. */
  lemma BranchExecutesTwice(name: string, s: Step, run: string, input: Json, choice: string, output: Json)
    requires s.Branch? && Overlooked(s, input, choice, output)
    ensures var ps := Payloads(After(map[name := Definition(name, "1", [s])], TwoJobs(run, name, input)).store.Of(run));
            Count(EvaluatedAs(s.name), ps) == 1 && Count(SettlesStep(s.Label(choice)), ps) == 2
  {
    hide After, Count;
    LogCounts(name, s, run, input, choice, output, EvaluatedAs(s.name));
    LogCounts(name, s, run, input, choice, output, SettlesStep(s.Label(choice)));
    CountSingle(EvaluatedAs(s.name), BranchEvaluated(s.name, choice));
    CountSingle(SettlesStep(s.Label(choice)), BranchEvaluated(s.name, choice));
  }

  lemma SecondIsLonger(name: string, input: Json, s: Step, choice: string, output: Json)
    ensures SecondLog(name, input, s, choice, output) != FirstLog(name, input)
  {
    assert |SecondLog(name, input, s, choice, output)| > |FirstLog(name, input)|;
  }
}
