/** Which replay loses its run: one that ends waiting without naming a signal. */
module LostWakeups {
  import opened Events
  import opened EventLogs
  import opened Scans
  import opened Queries
  import opened Definitions
  import opened Engine
  import opened Decisions
  import opened Signals
  import opened Protocol
  import opened Growth
  import opened Safety
  import opened Wakeups

  /** Some job other than the worker's own already stood ready to wake the run. */
  ghost predicate OtherJob(s: System, job: nat, run: string) {
    exists j: nat :: j != job && Wakes(s, j, run)
  }

  /** A waiting replay that names nothing inserts nothing, and settles nothing others wait for. */
  lemma SilentWaitKeepsJobs(registry: Registry, s: System, op: Op, env: Environment, ids: nat -> string, j: nat)
    requires Accountable(s) && op.Working? && OpFits(s, op) && SilentCommit(registry, s, op, env, ids)
    ensures Wakes(CommitWork(registry, s, op, env, ids), j, op.run) <==> j != op.job && Wakes(s, j, op.run)
  {
    hide Sound, AllHeaded, Fits, Replay, LastSequence, AppendWork, Awaited, Unsettled;
    var c := ConfigOf(registry[op.workflow], op.run, op.log);
    var o := Replay(c, env).value;
    var t := CommitWork(registry, s, op, env, ids);
    WorkAppend(s.store, o, op.run, op.log, ids);
    WaitsAreListed(false, c, env);
    assert WorkBatch(o) == o.emitted;
    assert t.jobs == s.jobs && t.pending == s.pending - {op.job};
    if j < |s.jobs| && s.jobs[j].run == op.run && s.jobs[j].TimeoutJob? {
      var signal := s.jobs[j].signal;
      SettledInSnapshot(op.log, t.store.Of(op.run), signal);
      AwaitedStays(op.log, t.store.Of(op.run), signal);
      if Unsettled(c.Past(), signal) {
        WaitsStayUnsettled(c, env, signal);
      }
    }
  }

  /** A silent commit leaves its run awake only through a job that stood ready before. */
  lemma SilentCommitIff(registry: Registry, s: System, op: Op, env: Environment, ids: nat -> string)
    requires Accountable(s) && op.Working? && OpFits(s, op) && SilentCommit(registry, s, op, env, ids)
    ensures Awake(CommitWork(registry, s, op, env, ids), op.run) <==> OtherJob(s, op.job, op.run)
  {
    hide Accountable, CommitWork, OpFits, SilentCommit, Wakes;
    var t := CommitWork(registry, s, op, env, ids);
    forall j: nat ensures Wakes(t, j, op.run) <==> j != op.job && Wakes(s, j, op.run) {
      SilentWaitKeepsJobs(registry, s, op, env, ids, j);
    }
  }

  /** The worker's job of the operation that the action commits. */
  function JobOf(s: System, a: Action): nat {
    if a.Commit? && a.op in s.inflight && s.inflight[a.op].Working? then s.inflight[a.op].job else 0
  }

  /**
    Exactly when a live run that was awake stays awake, for every registry, every reachable state and
    every action: unless the action commits a replay of the run that waits and names no signal, while
    no job but the worker's own stands ready.
  */
  lemma StaysAwakeIff(registry: Registry, actions: seq<Action>, a: Action, run: string)
    requires RunAwake(After(registry, actions), run)
    requires Live(Payloads(After(registry, actions + [a]).store.Of(run)))
    ensures var s := After(registry, actions);
            Awake(After(registry, actions + [a]), run) <==>
              !SilentlyWaits(registry, s, a, run) || OtherJob(s, JobOf(s, a), run)
  {
    hide Act, Accountable, RunAwake, SilentlyWaits, Live, Awake, OtherJob;
    var s := After(registry, actions);
    RunsAreAccountable(registry, actions);
    OneMore(registry, actions, a);
    if SilentlyWaits(registry, s, a, run) {
      SilentActIff(registry, s, a, run);
    } else {
      ActKeepsAwake(registry, s, a, run);
      RunAwakeIsAwake(After(registry, actions + [a]), run);
    }
  }

  lemma OneMore(registry: Registry, actions: seq<Action>, a: Action)
    ensures After(registry, actions + [a]) == Act(registry, After(registry, actions), a)
  {
    hide Act;
    assert (actions + [a])[..|actions|] == actions;
  }

  lemma RunAwakeIsAwake(s: System, run: string)
    requires RunAwake(s, run) && Live(Payloads(s.store.Of(run)))
    ensures Awake(s, run)
  {}

  lemma SilentActIff(registry: Registry, s: System, a: Action, run: string)
    requires Accountable(s) && SilentlyWaits(registry, s, a, run)
    ensures Awake(Act(registry, s, a), run) <==> OtherJob(s, JobOf(s, a), run)
  {
    hide Accountable, CommitWork, OpFits, OpHasJob;
    DropKeeps(s, a.op);
    var u, op := Dropped(s, a.op), s.inflight[a.op];
    SilentCommitIff(registry, u, op, a.env, a.ids);
    forall j: nat ensures Wakes(u, j, run) <==> Wakes(s, j, run) {}
  }

  /** Every live run is awake at every moment of a run of the protocol. */
  ghost predicate AlwaysAwake(registry: Registry, actions: seq<Action>) {
    forall n, run {:trigger RunAwake(After(registry, actions[..n]), run)} :: 0 <= n <= |actions| ==>
      RunAwake(After(registry, actions[..n]), run)
  }

  /** The `n`-th action commits a silent wait that leaves the run live and without a job. */
  ghost predicate LosesAt(registry: Registry, actions: seq<Action>, n: nat, run: string)
    requires n < |actions|
  {
    var s := After(registry, actions[..n]);
    && SilentlyWaits(registry, s, actions[n], run) && !OtherJob(s, JobOf(s, actions[n]), run)
    && Live(Payloads(After(registry, actions[..n + 1]).store.Of(run)))
  }

  /**
    The exact condition for no wake-up to be lost, over whole runs of the protocol and for any user
    code: no action commits a wait that names no signal and leaves a live run without another job.
  */
  lemma NoLostWakeupIff(registry: Registry, actions: seq<Action>)
    ensures AlwaysAwake(registry, actions) <==>
              forall n, run :: 0 <= n < |actions| ==> !LosesAt(registry, actions, n, run)
  {
    hide After, RunAwake, Live, Awake, SilentlyWaits, OtherJob;
    if AlwaysAwake(registry, actions) {
      forall n, run | 0 <= n < |actions| ensures !LosesAt(registry, actions, n, run) {
        assert RunAwake(After(registry, actions[..n]), run) && RunAwake(After(registry, actions[..n + 1]), run);
        AwakeStep(registry, actions, n, run);
      }
    }
    if forall n, run :: 0 <= n < |actions| ==> !LosesAt(registry, actions, n, run) {
      forall n, run | 0 <= n <= |actions| ensures RunAwake(After(registry, actions[..n]), run) {
        AwakeSoFar(registry, actions, n, run);
      }
    }
  }

  lemma AwakeStep(registry: Registry, actions: seq<Action>, n: nat, run: string)
    requires n < |actions| && RunAwake(After(registry, actions[..n]), run)
    ensures RunAwake(After(registry, actions[..n + 1]), run) <==> !LosesAt(registry, actions, n, run)
  {
    hide After, Live, Awake, SilentlyWaits, OtherJob;
    assert actions[..n + 1] == actions[..n] + [actions[n]];
    if Live(Payloads(After(registry, actions[..n + 1]).store.Of(run))) {
      StaysAwakeIff(registry, actions[..n], actions[n], run);
    }
  }

  lemma {:induction false} AwakeSoFar(registry: Registry, actions: seq<Action>, n: nat, run: string)
    requires n <= |actions| && forall k, r :: 0 <= k < |actions| ==> !LosesAt(registry, actions, k, r)
    ensures RunAwake(After(registry, actions[..n]), run)
  {
    hide RunAwake, LosesAt, After;
    if n == 0 {
      assert actions[..0] == [];
      NothingLive(registry, run);
    } else {
      AwakeSoFar(registry, actions, n - 1, run);
      AwakeStep(registry, actions, n - 1, run);
    }
  }

  lemma NothingLive(registry: Registry, run: string)
    ensures RunAwake(After(registry, []), run)
  {}

  // ----- Runs that are lost -----

  /** A workflow of one step without retries. */
  function Sleeper(name: string, step: string, body: Body): Definition {
    Definition(name, "1", [Plain(step, [], None, body)])
  }

  const TURN := Move(0, 0, "")

  /** Nobody cancels, and the one goroutine takes its four moves. */
  const FOUR_TURNS := Environment(false, (n: nat) => [TURN, TURN, TURN, TURN])

  const IDLE := Shared([], map[], [], false, false)

  lemma OneTurn(c: Config, t: Task, sh: Shared, ticks: seq<Tick>)
    requires Run(c, Wave(IDLE, NewTasks([t.step])), ticks) == Wave(sh, [t])
    ensures var (sh', t') := Advance(c, sh, t, 0, "");
            Run(c, Wave(IDLE, NewTasks([t.step])), ticks + [TURN]) == Wave(sh', [t'])
  {
    assert (ticks + [TURN])[..|ticks|] == ticks;
  }

  /** The goroutine starts its step, which pauses at once. */
  lemma SleeperWave(c: Config, s: Step)
    requires s.Plain? && s.body(c.input, []) == Pause
    ensures Run(c, Wave(IDLE, NewTasks([s])), FOUR_TURNS.schedule(0)) ==
            Wave(IDLE.(groupDone := true), [Task(s, "", [StepStarted(s.name, 1, "", "")], Done(Waiting))])
  {
    hide Run, NewTasks;
    assert [] + [TURN] == [TURN] && [TURN] + [TURN] == [TURN, TURN] && [TURN, TURN] + [TURN] == [TURN, TURN, TURN];
    assert [TURN, TURN, TURN] + [TURN] == FOUR_TURNS.schedule(0);
    var t := Task(s, "", [], Entering);
    assert Run(c, Wave(IDLE, NewTasks([s])), []) == Wave(IDLE, [t]) by { NoTurn(c, s); }
    OneTurn(c, t, IDLE, []);
    OneTurn(c, t.(phase := Starting(1)), IDLE, [TURN]);
    var started := t.(events := [StepStarted(s.name, 1, "", "")]);
    assert Start(IDLE, t.(phase := Starting(1))).1 == started.(phase := Running(1, []));
    OneTurn(c, started.(phase := Running(1, [])), IDLE, [TURN, TURN]);
    OneTurn(c, started.(phase := Leaving(Waiting)), IDLE, [TURN, TURN, TURN]);
  }

  lemma NoTurn(c: Config, s: Step)
    ensures Run(c, Wave(IDLE, NewTasks([s])), []) == Wave(IDLE, [Task(s, "", [], Entering)])
  {}

  lemma SleeperReady(c: Config, s: Step)
    requires c.def.steps == [s] && s.deps == [] && FatalOf(c.Past(), s.name).None?
    ensures FindReady(c, {}) == [s]
  {
    assert c.def.steps[..0] == [];
    assert Unsorted(c, [s], {}) == [s];
    assert SortByName([s]) == [s];
  }

  /** A log that holds only the start of the workflow. */
  lemma FreshPast(c: Config, p: Payload, step: string)
    requires p.WorkflowStarted? && c.Past() == [p] && c.def.steps != [] && c.def.steps[1..] == [] &&
             c.def.steps[0].name == step
    ensures !IsCancelled(c.Past()) && !IsCompleted(c.Past()) && InputOf(c.Past()) == Some(p.input)
    ensures FatalOf(c.Past(), step).None? && FirstFatal(c, c.def.steps).None? && CompletedBefore(c) == {}
  {
    assert [p] == [] + [p];
    LastPush([], p, CompletedView());
    LastPush([], p, CancelledView());
    LastPush([], p, InputView());
    LastPush([], p, FatalView(step));
    LastPush([], p, OutputView(step));
    assert OutputOf([p], step).None?;
  }

  /** Its replay ends waiting for nothing. */
  lemma SleeperWaitsForNothing(c: Config, p: Payload)
    requires p.WorkflowStarted? && c.Past() == [p] && c.input == p.input && |c.def.steps| == 1
    requires var s := c.def.steps[0]; s.Plain? && s.deps == [] && s.body(p.input, []) == Pause
    ensures Replay(c, FOUR_TURNS) == Some(ReplayOutput(ReplayWaiting, None, [],
            [StepStarted(c.def.steps[0].name, 1, "", "")], 1))
  {
    hide Run, FindReady, IsCancelled, IsCompleted, FirstFatal, CompletedBefore;
    var s := c.def.steps[0];
    assert c.def.steps == [s] && c.def.steps[1..] == [];
    FreshPast(c, p, s.name);
    SleeperReady(c, s);
    SleeperWave(c, s);
    var l := FirstLoop(c, FOUR_TURNS);
    assert l == Loop(IDLE, {}, None, 0);
    var w := StartWave(c, l, [s], FOUR_TURNS);
    assert w.tasks == [Task(s, "", [StepStarted(s.name, 1, "", "")], Done(Waiting))];
    assert w.tasks[0].phase == Done(Waiting) && AnyWaiting(w.tasks) && w.AllDone();
    assert w.tasks[..0] == [] && Gather(w.tasks) == [StepStarted(s.name, 1, "", "")];
    assert WaveTurn(c, l, FOUR_TURNS).Out?;
  }

  lemma OneEvent(s: Logs, e: Event)
    ensures AppendAll(s, [e]) == AppendOne(s, e)
  {
    assert [e][..0] == [];
    assert AppendInTurn(s, []) == (Appended, s);
  }

  function Once(run: string, name: string, log: seq<Event>, ids: set<string>): System {
    System(Logs(map[run := log], ids), [WorkflowJob(run, name)], {0}, map[])
  }

  function Begun(run: string, name: string, input: Json): seq<Event> {
    [Event("start", run, 1, WorkflowStarted(name, "1", input))]
  }

  lemma StartedOnce(registry: Registry, run: string, name: string, input: Json)
    requires name in registry && registry[name].version == "1"
    ensures Act(registry, INITIAL, StartWorkflow(run, name, input, "start")) == Once(run, name,
            Begun(run, name, input), {"start"})
  {
    OneEvent(INITIAL.store, Begun(run, name, input)[0]);
    assert [] + Begun(run, name, input) == Begun(run, name, input);
  }

  /** The worker's commit appends the step's start and is done; nothing is left pending. */
  lemma CommittedOnce(registry: Registry, run: string, name: string, input: Json, ids: nat -> string)
    requires name in registry && |registry[name].steps| == 1 && ids(0) != "start"
    requires var s := registry[name].steps[0]; s.Plain? && s.deps == [] && s.body(input, []) == Pause
    ensures var log := Begun(run, name, input);
            var e := Event(ids(0), run, 2, StepStarted(registry[name].steps[0].name, 1, "", ""));
            CommitWork(registry, Once(run, name, log, {"start"}), Working(0, run, name, log), FOUR_TURNS, ids) ==
            Once(run, name, log + [e], {"start", ids(0)}).(pending := {})
  {
    hide Replay, IsCancelled, IsCompleted, ConfigOf;
    var log := Begun(run, name, input);
    var s, c := Once(run, name, log, {"start"}), ConfigOf(registry[name], run, log);
    ConfigOnce(registry[name], run, log);
    SleeperWaitsForNothing(c, log[0].payload);
    var o := Replay(c, FOUR_TURNS).value;
    assert LastSequence(log) == 1;
    var e := Event(ids(0), run, 2, o.emitted[0]);
    assert Number(o.emitted, run, 1, ids) == [e];
    OneEvent(s.store, e);
    assert s.store.events[run := log + [e]] == map[run := log + [e]];
    assert s.store.ids + {ids(0)} == {"start", ids(0)};
  }

  lemma ConfigOnce(def: Definition, run: string, log: seq<Event>)
    requires |log| == 1 && log[0].payload.WorkflowStarted?
    ensures var c := ConfigOf(def, run, log);
            c.def == def && c.Past() == [log[0].payload] && c.input == log[0].payload.input
    ensures !IsCancelled(Payloads(log)) && !IsCompleted(Payloads(log))
  {
    var p := log[0].payload;
    assert Payloads(log) == [] + [p];
    LastPush([], p, CompletedView());
    LastPush([], p, CancelledView());
    LastPush([], p, InputView());
  }

  lemma TwoEventsLive(ps: seq<Payload>)
    requires |ps| == 2 && ps[0].WorkflowStarted? && ps[1].StepStarted?
    ensures Live(ps)
  {
    LastNone(ps, CompletedView());
    LastNone(ps, CancelledView());
  }

  /**
    The wake-up is lost without the condition: whatever the body does later, if its first call is to
    return the sentinel, then starting the workflow and letting one worker finish leaves the run
    live with no job at all.
  */
  lemma PauseAloneLosesTheRun(name: string, step: string, body: Body, run: string, input: Json, ids: nat -> string)
    requires body(input, []) == Pause && ids(0) != "start"
    ensures var registry := map[name := Sleeper(name, step, body)];
            var s := After(registry, [StartWorkflow(run, name, input, "start"), Fetch(0, 0),
                Commit(0, FOUR_TURNS, ids)]);
            Live(Payloads(s.store.Of(run))) && !Awake(s, run) && s.pending == {}
  {
    hide Act, CommitWork, Live, Begun;
    var registry := map[name := Sleeper(name, step, body)];
    var start, fetch, commit := StartWorkflow(run, name, input, "start"), Fetch(0, 0), Commit(0, FOUR_TURNS, ids);
    var log := Begun(run, name, input);
    Thrice(registry, start, fetch, commit);
    StartedOnce(registry, run, name, input);
    FetchedOnce(registry, run, name, log, ids);
    CommittedOnce(registry, run, name, input, ids);
    var s := Act(registry, Act(registry, Act(registry, INITIAL, start), fetch), commit);
    assert |Begun(run, name, input)| == 1 && Begun(run, name, input)[0].payload.WorkflowStarted? by { BegunShape(run,
           name, input); }
    TwoEventsLive(Payloads(s.store.Of(run)));
  }

  lemma BegunShape(run: string, name: string, input: Json)
    ensures |Begun(run, name, input)| == 1 && Begun(run, name, input)[0].payload.WorkflowStarted?
  {}

  lemma FetchedOnce(registry: Registry, run: string, name: string, log: seq<Event>, ids: nat -> string)
    ensures var s := Once(run, name, log, {"start"});
            Act(registry, Act(registry, s, Fetch(0, 0)), Commit(0, FOUR_TURNS, ids)) ==
            CommitWork(registry, s, Working(0, run, name, log), FOUR_TURNS, ids)
  {
    hide CommitWork;
    var s, op := Once(run, name, log, {"start"}), Working(0, run, name, log);
    assert Act(registry, s, Fetch(0, 0)) == s.(inflight := map[0 := op]);
    assert map[0 := op] - {0} == map[];
  }

  lemma Thrice(registry: Registry, a: Action, b: Action, c: Action)
    ensures After(registry, [a, b, c]) == Act(registry, Act(registry, Act(registry, INITIAL, a), b), c)
  {
    hide Act;
    assert [a][..0] == [] && After(registry, [a]) == Act(registry, INITIAL, a);
    assert [a, b][..1] == [a] && After(registry, [a, b]) == Act(registry, After(registry, [a]), b);
    assert [a, b, c][..2] == [a, b];
  }
}
