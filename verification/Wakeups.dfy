/** No lost wake-up: a run that is not over always has a job that will move it on. */
module Wakeups {
  import opened Events
  import opened EventLogs
  import opened Scans
  import opened Queries
  import opened Definitions
  import opened Engine
  import opened Executions
  import opened Decisions
  import opened Signals
  import opened Protocol
  import opened Growth
  import opened Safety

  predicate HasFailed(ps: seq<Payload>) {
    exists p :: p in ps && p.WorkflowFailed?
  }

  /** Started, and neither completed nor cancelled nor failed. */
  predicate Live(ps: seq<Payload>) {
    Open(ps) && !HasFailed(ps)
  }

  /** A job that moves the run on: a workflow job, or the timeout of a signal still awaited and unsettled. */
  predicate Wakes(s: System, j: nat, run: string) {
    && j in s.pending && j < |s.jobs| && s.jobs[j].run == run
    && (s.jobs[j].TimeoutJob? ==>
          var ps := Payloads(s.store.Of(run)); Unsettled(ps, s.jobs[j].signal) && Awaited(ps, s.jobs[j].signal))
  }

  ghost predicate Awake(s: System, run: string) {
    exists j: nat :: Wakes(s, j, run)
  }

  /** Timeout jobs exist only for signals that are awaited in their run's log. */
  ghost predicate TimeoutsAwaited(s: System) {
    forall j :: 0 <= j < |s.jobs| && s.jobs[j].TimeoutJob? ==> Awaited(Payloads(s.store.Of(s.jobs[j].run)),
        s.jobs[j].signal)
  }

  /** An operation started by a job works on that job's run, from a log loaded after the job was inserted. */
  ghost predicate OpHasJob(s: System, op: Op) {
    && (op.Working? ==> op.job < |s.jobs| && s.jobs[op.job] == WorkflowJob(op.run, op.workflow))
    && (op.TimingOut? ==> op.job < |s.jobs| && s.jobs[op.job] == TimeoutJob(op.run, op.signal))
    && (op.TimingOut? ==> Awaited(Payloads(op.log), op.signal))
  }

  ghost predicate OpsHaveJobs(s: System) {
    forall op :: op in s.inflight ==> OpHasJob(s, s.inflight[op])
  }

  /** The bookkeeping of jobs and operations, which holds whatever user code does. */
  ghost predicate Accountable(s: System) {
    Consistent(s) && TimeoutsAwaited(s) && OpsHaveJobs(s)
  }

  ghost predicate RunAwake(s: System, run: string) {
    Live(Payloads(s.store.Of(run))) ==> Awake(s, run)
  }

  ghost predicate Wakeful(s: System) {
    Accountable(s) && forall run :: RunAwake(s, run)
  }

  ghost predicate AllPauseOnSignals(registry: Registry) {
    forall workflow :: workflow in registry ==> PausesOnSignals(registry[workflow])
  }

  // ---------------------------------------------------------------------------------------------
  // Frames

  /** From `s` to `t` only the log of `run` and the jobs of `run` were touched. */
  ghost predicate OnlyRun(s: System, t: System, run: string) {
    && |s.jobs| <= |t.jobs| && t.jobs[..|s.jobs|] == s.jobs
    && (forall other :: other != run ==> t.store.Of(other) == s.store.Of(other))
    && (forall j :: j in s.pending && j < |s.jobs| && s.jobs[j].run != run ==> j in t.pending)
  }

  lemma OtherStaysAwake(s: System, t: System, run: string, other: string)
    requires OnlyRun(s, t, run) && other != run && RunAwake(s, other)
    ensures RunAwake(t, other)
  {
    hide Live;
    if Live(Payloads(t.store.Of(other))) {
      var j: nat :| Wakes(s, j, other);
      assert t.jobs[j] == s.jobs[j];
      assert Wakes(t, j, other);
    }
  }

  lemma AwaitedStays(a: seq<Event>, b: seq<Event>, signal: string)
    requires a <= b && Awaited(Payloads(a), signal)
    ensures Awaited(Payloads(b), signal)
  {
    assert b == a + b[|a|..];
    PayloadsAppend(a, b[|a|..]);
    LastAppend(Payloads(a), Payloads(b[|a|..]), WaitingView(signal));
  }

  /** What is settled or closed in a snapshot is so in the log. */
  lemma SettledInSnapshot(a: seq<Event>, b: seq<Event>, signal: string)
    requires a <= b
    ensures Unsettled(Payloads(b), signal) ==> Unsettled(Payloads(a), signal)
    ensures Open(Payloads(b)) && a != [] ==> Open(Payloads(a))
  {
    assert b == a + b[|a|..];
    PayloadsAppend(a, b[|a|..]);
    LastAppend(Payloads(a), Payloads(b[|a|..]), ReceivedView(signal));
    LastAppend(Payloads(a), Payloads(b[|a|..]), TimeoutView(signal));
    LastAppend(Payloads(a), Payloads(b[|a|..]), CompletedView());
    LastAppend(Payloads(a), Payloads(b[|a|..]), CancelledView());
  }

  /** The bookkeeping of jobs and operations survives any growth of the logs. */
  lemma BookkeepingStays(registry: Registry, s: System, t: System)
    requires Consistent(s) && TimeoutsAwaited(s) && OpsHaveJobs(s) && Follows(registry, s, t)
    requires forall j :: |s.jobs| <= j < |t.jobs| && t.jobs[j].TimeoutJob? ==>
             Awaited(Payloads(t.store.Of(t.jobs[j].run)), t.jobs[j].signal)
    ensures TimeoutsAwaited(t) && OpsHaveJobs(t)
  {
    hide Sound, Awaited, Fits, Grown;
    forall j | 0 <= j < |t.jobs| && t.jobs[j].TimeoutJob? ensures Awaited(Payloads(t.store.Of(t.jobs[j].run)),
        t.jobs[j].signal) {
      if j < |s.jobs| {
        assert t.jobs[j] == s.jobs[j];
        var run := t.jobs[j].run;
        assert Headed(Payloads(s.store.Of(run)));
        GrownKeepsHead(registry, run, s.store.Of(run), t.store.Of(run));
        AwaitedStays(s.store.Of(run), t.store.Of(run), t.jobs[j].signal);
      }
    }
    forall op | op in t.inflight ensures OpHasJob(t, t.inflight[op]) {
      assert OpHasJob(s, s.inflight[op]);
      assert t.inflight[op].Working? || t.inflight[op].TimingOut? ==>
             t.jobs[t.inflight[op].job] == s.jobs[t.inflight[op].job];
    }
  }

  // ---------------------------------------------------------------------------------------------
  // Commits

  lemma CompletedIsOver(ps: seq<Payload>, p: Payload)
    ensures p in ps && (p.WorkflowCompleted? || p.WorkflowCancelled? || p.WorkflowFailed?) ==> !Live(ps)
  {
    LastNone(ps, CompletedView());
    LastNone(ps, CancelledView());
    assert p.WorkflowCompleted? ==> CompletedView()(p).Some?;
    assert p.WorkflowCancelled? ==> CancelledView()(p).Some?;
  }

  /** A replay settles no signal, so what it waits for is still unsettled once its events are appended. */
  lemma WaitsStayUnsettled(c: Config, env: Environment, signal: string)
    requires Replay(c, env).Some? && !Replay(c, env).value.result.ReplayCompleted?
    requires Unsettled(c.Past(), signal)
    ensures Unsettled(c.Past() + Replay(c, env).value.emitted, signal)
  {
    hide Replay;
    ReplayKinds(c, env);
    var emitted := Replay(c, env).value.emitted;
    LastAppend(c.Past(), emitted, ReceivedView(signal));
    LastAppend(c.Past(), emitted, TimeoutView(signal));
    forall p | p in emitted ensures ReceivedView(signal)(p).None? && TimeoutView(signal)(p).None? {
      assert Allowed(c, p);
    }
    LastNone(emitted, ReceivedView(signal));
    LastNone(emitted, TimeoutView(signal));
  }

  /** A replay that ends waiting names at least one signal: there is something to schedule a timeout for. */
  predicate NamesItsWait(o: ReplayOutput) {
    o.result.ReplayWaiting? ==> o.waitingFor != []
  }

  /** After the worker's commit its run is over, or awake through a job the commit inserted. */
  lemma WorkWakes(registry: Registry, s: System, op: Op, env: Environment, ids: nat -> string)
    requires Consistent(s) && op.Working? && OpFits(s, op) && OpHasJob(s, op)
    requires Open(Payloads(op.log)) && op.workflow in registry
    requires Replay(ConfigOf(registry[op.workflow], op.run, op.log), env).Some?
    requires AppendWork(s.store, Replay(ConfigOf(registry[op.workflow], op.run, op.log), env).value, op.run,
             LastSequence(op.log), ids).Some?
    ensures var t := CommitWork(registry, s, op, env, ids);
            && OnlyRun(s, t, op.run)
            && (Live(Payloads(t.store.Of(op.run))) &&
                NamesItsWait(Replay(ConfigOf(registry[op.workflow], op.run, op.log), env).value)
                ==> Awake(t, op.run))
            && forall j :: |s.jobs| <= j < |t.jobs| && t.jobs[j].TimeoutJob? ==>
                Awaited(Payloads(t.store.Of(t.jobs[j].run)), t.jobs[j].signal)
  {
    hide Sound, AllHeaded, Fits, Replay, LastSequence, AppendWork, Awaited, Unsettled, Live;
    var c := ConfigOf(registry[op.workflow], op.run, op.log);
    var o := Replay(c, env).value;
    var store := AppendWork(s.store, o, op.run, LastSequence(op.log), ids).value;
    var mid := Finish(s.(store := store), op.job);
    var t := CommitWork(registry, s, op, env, ids);
    WorkAppend(s.store, o, op.run, op.log, ids);
    NextInserted(mid, op, o);
    assert t == InsertNext(mid, op, o);
    assert OnlyRun(s, t, op.run);
    var n, ps := |s.jobs|, Payloads(store.Of(op.run));
    match o.result
    case ReplayCompleted =>
      ReplayKinds(c, env);
      CompletedIsOver(ps, o.emitted[|o.emitted| - 1]);
    case ReplayFailed(error) =>
      CompletedIsOver(ps, WorkflowFailed(error));
    case ReplaySuspended =>
      assert t.jobs[n] == WorkflowJob(op.run, op.workflow);
      assert Wakes(t, n, op.run);
    case ReplayWaiting =>
      WaitsAreListed(false, c, env);
      forall i | 0 <= i < |o.waitingFor|
        ensures Unsettled(ps, o.waitingFor[i].signal) && Awaited(ps, o.waitingFor[i].signal)
      {
        WaitsStayUnsettled(c, env, o.waitingFor[i].signal);
        assert WorkBatch(o) == o.emitted;
      }
      TimeoutsWake(mid, op.run, o.waitingFor);
  }

  /** Timeout jobs for signals that are awaited and unsettled keep the run awake. */
  lemma TimeoutsWake(s: System, run: string, waiting: seq<WaitingSignal>)
    requires var ps := Payloads(s.store.Of(run));
             forall i :: 0 <= i < |waiting| ==> Unsettled(ps, waiting[i].signal) && Awaited(ps, waiting[i].signal)
    ensures var t := InsertTimeouts(s, run, waiting);
            && t.store == s.store && (waiting != [] ==> Awake(t, run))
            && forall j :: |s.jobs| <= j < |t.jobs| && t.jobs[j].TimeoutJob? ==>
                Awaited(Payloads(t.store.Of(t.jobs[j].run)), t.jobs[j].signal)
  {
    hide Unsettled, Awaited, InsertTimeouts;
    var n, t := |s.jobs|, InsertTimeouts(s, run, waiting);
    TimeoutsInserted(s, run, waiting);
    forall j | n <= j < |t.jobs| ensures t.jobs[j] == TimeoutJob(run, waiting[j - n].signal) {
      assert t.jobs[n + (j - n)] == TimeoutJob(run, waiting[j - n].signal);
    }
    assert waiting != [] ==> Wakes(t, n, run);
  }

  lemma PausesIn(registry: Registry, workflow: string)
    requires AllPauseOnSignals(registry) && workflow in registry
    ensures PausesOnSignals(registry[workflow])
  {}

  /** The commit of a worker's operation succeeds: the replay is over and its events are accepted. */
  ghost predicate Accepts(registry: Registry, s: System, op: Op, env: Environment, ids: nat -> string)
    requires op.Working?
  {
    && Open(Payloads(op.log)) && op.workflow in registry
    && var replay := Replay(ConfigOf(registry[op.workflow], op.run, op.log), env);
       replay.Some? && AppendWork(s.store, replay.value, op.run, LastSequence(op.log), ids).Some?
  }

  /** A worker's commit that succeeds with a replay that waits and names no signal. */
  ghost predicate SilentCommit(registry: Registry, s: System, op: Op, env: Environment, ids: nat -> string) {
    op.Working? && Accepts(registry, s, op, env, ids)
    && !NamesItsWait(Replay(ConfigOf(registry[op.workflow], op.run, op.log), env).value)
  }

  /** A commit that does not succeed changes no log; the job is done only if the run is over. */
  lemma RefusedWork(registry: Registry, s: System, op: Op, env: Environment, ids: nat -> string)
    requires op.Working? && !Accepts(registry, s, op, env, ids) && OpFits(s, op) && OpHasJob(s, op)
    ensures var t := CommitWork(registry, s, op, env, ids);
            t.store == s.store && t.jobs == s.jobs && OnlyRun(s, t, op.run) &&
            (t == s || !Live(Payloads(t.store.Of(op.run))))
  {
    hide Sound, AllHeaded, Fits, Replay, LastSequence, AppendWork, InsertNext;
    SettledInSnapshot(op.log, s.store.Of(op.run), "");
  }

  lemma WorkKeepsAccountable(registry: Registry, s: System, op: Op, env: Environment, ids: nat -> string)
    requires Accountable(s) && op.Working? && OpFits(s, op) && OpHasJob(s, op)
    ensures Accountable(CommitWork(registry, s, op, env, ids))
  {
    hide Consistent, Replay, LastSequence, AppendWork, Awaited, CommitWork, OpFits, OpHasJob, TimeoutsAwaited,
      OpsHaveJobs, Live, Follows, NamesItsWait;
    var t := CommitWork(registry, s, op, env, ids);
    WorkFollows(registry, s, op, env, ids);
    FollowsKeeps(registry, s, t);
    if Accepts(registry, s, op, env, ids) {
      WorkWakes(registry, s, op, env, ids);
    } else {
      RefusedWork(registry, s, op, env, ids);
    }
    BookkeepingStays(registry, s, t);
  }

  lemma WorkKeepsAwake(registry: Registry, s: System, op: Op, env: Environment, ids: nat -> string, run: string)
    requires Accountable(s) && op.Working? && OpFits(s, op) && OpHasJob(s, op) && RunAwake(s, run)
    requires run == op.run ==> !SilentCommit(registry, s, op, env, ids)
    ensures RunAwake(CommitWork(registry, s, op, env, ids), run)
  {
    hide Consistent, Replay, LastSequence, AppendWork, CommitWork, OpFits, OpHasJob, TimeoutsAwaited, OpsHaveJobs, Live,
      NamesItsWait, OnlyRun, Wakes;
    var t := CommitWork(registry, s, op, env, ids);
    if Accepts(registry, s, op, env, ids) {
      WorkWakes(registry, s, op, env, ids);
    } else {
      RefusedWork(registry, s, op, env, ids);
    }
    if run != op.run {
      OtherStaysAwake(s, t, op.run, run);
    }
  }

  /** Appending with a resume job leaves the run awake. */
  lemma ResumeWakes(registry: Registry, s: System, run: string, log: seq<Event>, p: Payload, id: string)
    requires Consistent(s) && log <= s.store.Of(run) && AppendAndResume(s, run, log, p, id).Some?
    ensures var t := AppendAndResume(s, run, log, p, id).value;
            && OnlyRun(s, t, run) && Awake(t, run)
            && |t.jobs| == |s.jobs| + 1 && t.jobs[|s.jobs|].WorkflowJob? && t.jobs[|s.jobs|].run == run
            && |s.jobs| in t.pending
  {
    hide Sound, Fits, AllHeaded, LastSequence, AppendAll, Live, NameOf;
    var t := AppendAndResume(s, run, log, p, id).value;
    SingleAppend(s.store, run, log, p, id);
    assert Wakes(t, |s.jobs|, run);
  }

  lemma TimeoutKeepsAwake(registry: Registry, s: System, op: Op, id: string, run: string)
    requires Accountable(s) && op.TimingOut? && OpFits(s, op) && OpHasJob(s, op) && RunAwake(s, run)
    ensures RunAwake(CommitTimeout(s, op, id), run)
  {
    hide Consistent, LastSequence, Live, NameOf, TimeoutsAwaited, OpsHaveJobs, AppendAndResume;
    var t := CommitTimeout(s, op, id);
    var state := SignalOf(Payloads(op.log), op.signal);
    if state.Some? && !state.value.received && !state.value.timeout {
      if AppendAndResume(s, op.run, op.log, SignalTimeout(op.signal), id).Some? {
        ResumeWakes(registry, s, op.run, op.log, SignalTimeout(op.signal), id);
        assert Wakes(t, |s.jobs|, op.run);
        if run != op.run { OtherStaysAwake(s, t, op.run, run); }
      }
    } else {
      SettledInSnapshot(op.log, s.store.Of(op.run), op.signal);
      if run != op.run {
        OtherStaysAwake(s, t, op.run, run);
      } else if Live(Payloads(t.store.Of(run))) {
        var j: nat :| Wakes(s, j, run);
        assert Wakes(t, j, run);
      }
    }
  }

  lemma CancelKeepsAwake(s: System, op: Op, id: string, run: string)
    requires Consistent(s) && op.Cancelling? && OpFits(s, op) && RunAwake(s, run)
    ensures RunAwake(CommitCancel(s, op, id), run)
  {
    hide Sound, Fits, AllHeaded, LastSequence, AppendAll, Live;
    SingleAppend(s.store, op.run, op.log, WorkflowCancelled(op.reason), id);
    var t := CommitCancel(s, op, id);
    if t != s {
      CompletedIsOver(Payloads(t.store.Of(op.run)), WorkflowCancelled(op.reason));
      if run != op.run { OtherStaysAwake(s, t, op.run, run); }
    }
  }

  lemma SignalKeepsAwake(registry: Registry, s: System, op: Op, id: string, run: string)
    requires Consistent(s) && op.Signalling? && OpFits(s, op) && RunAwake(s, run)
    ensures RunAwake(CommitSignal(s, op, id), run)
  {
    hide AppendAndResume, Consistent, Live;
    if AppendAndResume(s, op.run, op.log, SignalReceived(op.signal, op.message), id).Some? {
      ResumeWakes(registry, s, op.run, op.log, SignalReceived(op.signal, op.message), id);
      if run != op.run { OtherStaysAwake(s, CommitSignal(s, op, id), op.run, run); }
    }
  }

  /** Signals, timeouts and cancels insert workflow jobs only. */
  lemma SingleInserts(registry: Registry, s: System, op: Op, env: Environment, ids: nat -> string)
    requires !op.Working?
    ensures var t := CommitOp(registry, s, op, env, ids);
            forall j :: |s.jobs| <= j < |t.jobs| ==> t.jobs[j].WorkflowJob?
  {
    hide AppendAll, SignalOf, NameOf, LastSequence;
  }

  lemma CommitKeepsAccountable(registry: Registry, s: System, op: Op, env: Environment, ids: nat -> string)
    requires Accountable(s) && OpFits(s, op) && OpHasJob(s, op)
    ensures Accountable(CommitOp(registry, s, op, env, ids))
  {
    hide Consistent, TimeoutsAwaited, OpsHaveJobs, OpFits, OpHasJob, CommitWork, CommitTimeout, CommitSignal,
      CommitCancel, Judge, Follows;
    if op.Working? {
      WorkKeepsAccountable(registry, s, op, env, ids);
    } else {
      CommitFollows(registry, s, op, env, ids);
      FollowsKeeps(registry, s, CommitOp(registry, s, op, env, ids));
      SingleInserts(registry, s, op, env, ids);
      BookkeepingStays(registry, s, CommitOp(registry, s, op, env, ids));
    }
  }

  lemma CommitKeepsAwake(registry: Registry, s: System, op: Op, env: Environment, ids: nat -> string, run: string)
    requires Accountable(s) && OpFits(s, op) && OpHasJob(s, op) && RunAwake(s, run)
    requires run == op.run ==> !SilentCommit(registry, s, op, env, ids)
    ensures RunAwake(CommitOp(registry, s, op, env, ids), run)
  {
    hide Consistent, TimeoutsAwaited, OpsHaveJobs, OpFits, OpHasJob, CommitWork, CommitTimeout, CommitSignal,
      CommitCancel, Judge, RunAwake, SilentCommit;
    match op
    case Working(_, _, _, _) => WorkKeepsAwake(registry, s, op, env, ids, run);
    case TimingOut(_, _, _, _) => TimeoutKeepsAwake(registry, s, op, ids(0), run);
    case Signalling(_, _, _, _) => SignalKeepsAwake(registry, s, op, ids(0), run);
    case Cancelling(_, _, _) => CancelKeepsAwake(s, op, ids(0), run);
  }

  // ---------------------------------------------------------------------------------------------
  // All actions

  /** Loading, crashing and redelivering touch no log and take no job away. */
  lemma LoadKeeps(registry: Registry, s: System, a: Action)
    requires Accountable(s) && !a.StartWorkflow? && !a.Commit?
    ensures Accountable(Act(registry, s, a))
    ensures forall run :: RunAwake(s, run) ==> RunAwake(Act(registry, s, a), run)
  {
    hide Consistent, Live, Awaited;
    var t := Act(registry, s, a);
    LoadFits(registry, s, a);
    forall run | RunAwake(s, run) && Live(Payloads(t.store.Of(run))) ensures Awake(t, run) {
      var j: nat :| Wakes(s, j, run);
      assert Wakes(t, j, run);
    }
    forall op | op in t.inflight ensures OpHasJob(t, t.inflight[op]) {
      if op in s.inflight {
        assert OpHasJob(s, s.inflight[op]);
      }
    }
  }

  lemma StartKeeps(registry: Registry, s: System, a: Action)
    requires Accountable(s) && a.StartWorkflow?
    ensures Accountable(Act(registry, s, a))
    ensures forall run :: RunAwake(s, run) ==> RunAwake(Act(registry, s, a), run)
  {
    hide Consistent, AppendAll, TimeoutsAwaited, OpsHaveJobs, RunAwake;
    var StartWorkflow(run, workflow, input, id) := a;
    StartFollows(registry, s, a);
    if workflow in registry {
      var p := WorkflowStarted(workflow, registry[workflow].version, input);
      var (r, store) := AppendAll(s.store, [Event(id, run, 1, p)]);
      if r.Appended? {
        StartedWakes(s, store, run, p, id, WorkflowJob(run, workflow));
      }
    }
  }

  /** The start of a run is appended and its job inserted. */
  lemma StartedWakes(s: System, store: Logs, run: string, p: Payload, id: string, job: Job)
    requires Accountable(s) && AppendAll(s.store, [Event(id, run, 1, p)]) == (Appended, store)
    requires job.WorkflowJob? && job.run == run
    ensures var t := Protocol.Insert(s.(store := store), job);
            TimeoutsAwaited(t) && OpsHaveJobs(t) && forall other :: RunAwake(s, other) ==> RunAwake(t, other)
  {
    hide AppendAll, Live, Sound, Awaited, Unsettled, OpsHaveJobs, RunAwake;
    var t := Protocol.Insert(s.(store := store), job);
    ConsistentSound(s);
    SingleAppend(s.store, run, [], p, id);
    NothingAwaited(s, run);
    InsertKeepsOps(s, t, job);
    assert Wakes(t, |s.jobs|, run);
    forall other | RunAwake(s, other) ensures RunAwake(t, other) {
      if other != run {
        OtherStaysAwake(s, t, run, other);
      } else {
        AwakeIsRunAwake(t, run);
      }
    }
  }

  lemma AwakeIsRunAwake(s: System, run: string)
    requires Awake(s, run)
    ensures RunAwake(s, run)
  {}

  lemma InsertKeepsOps(s: System, t: System, job: Job)
    requires OpsHaveJobs(s) && t.jobs == s.jobs + [job] && t.inflight == s.inflight
    ensures OpsHaveJobs(t)
  {
    hide Awaited;
    forall op | op in t.inflight ensures OpHasJob(t, t.inflight[op]) {
      assert OpHasJob(s, s.inflight[op]);
    }
  }

  lemma ConsistentSound(s: System)
    requires Consistent(s)
    ensures Sound(s.store)
  {}

  lemma NothingAwaited(s: System, run: string)
    requires TimeoutsAwaited(s) && s.store.Of(run) == []
    ensures forall j :: 0 <= j < |s.jobs| && s.jobs[j].TimeoutJob? ==> s.jobs[j].run != run
  {}

  /** The state just before a commit takes effect: the operation is no longer in flight. */
  function Dropped(s: System, op: nat): System {
    s.(inflight := s.inflight - {op})
  }

  lemma DropKeeps(s: System, op: nat)
    requires Accountable(s) && op in s.inflight
    ensures Accountable(Dropped(s, op))
    ensures OpFits(Dropped(s, op), s.inflight[op]) && OpHasJob(Dropped(s, op), s.inflight[op])
    ensures forall run :: RunAwake(Dropped(s, op), run) <==> RunAwake(s, run)
  {
    hide Sound, AllHeaded, Live, Awaited, NameOf, Unsettled;
    var u := Dropped(s, op);
    SameStoreFits(s, u);
    assert OpFits(s, s.inflight[op]);
    forall run ensures Awake(u, run) <==> Awake(s, run) {
      forall j: nat ensures Wakes(u, j, run) <==> Wakes(s, j, run) {}
    }
    forall o | o in u.inflight ensures OpHasJob(u, u.inflight[o]) {
      assert OpHasJob(s, s.inflight[o]);
    }
  }

  /** An action that can lose a wake-up of the run: a worker's silent commit. */
  ghost predicate SilentlyWaits(registry: Registry, s: System, a: Action, run: string) {
    && a.Commit? && a.op in s.inflight && s.inflight[a.op].run == run
    && SilentCommit(registry, Dropped(s, a.op), s.inflight[a.op], a.env, a.ids)
  }

  lemma ActKeepsAccountable(registry: Registry, s: System, a: Action)
    requires Accountable(s)
    ensures Accountable(Act(registry, s, a))
  {
    hide Accountable, CommitOp, OpFits, OpHasJob, RunAwake;
    match a
    case StartWorkflow(_, _, _, _) => StartKeeps(registry, s, a);
    case Commit(op, env, ids) =>
      if op in s.inflight {
        DropKeeps(s, op);
        CommitKeepsAccountable(registry, Dropped(s, op), s.inflight[op], env, ids);
      }
    case _ => LoadKeeps(registry, s, a);
  }

  /** No action but a silent commit puts a run to sleep, whatever user code does. */
  lemma ActKeepsAwake(registry: Registry, s: System, a: Action, run: string)
    requires Accountable(s) && RunAwake(s, run) && !SilentlyWaits(registry, s, a, run)
    ensures RunAwake(Act(registry, s, a), run)
  {
    hide Accountable, CommitOp, OpFits, OpHasJob, RunAwake, SilentCommit;
    match a
    case StartWorkflow(_, _, _, _) => StartKeeps(registry, s, a);
    case Commit(op, env, ids) =>
      if op in s.inflight {
        DropKeeps(s, op);
        CommitKeepsAwake(registry, Dropped(s, op), s.inflight[op], env, ids, run);
      }
    case _ => LoadKeeps(registry, s, a);
  }

  /** In every reachable state of every registry the bookkeeping is right. */
  lemma {:induction false} RunsAreAccountable(registry: Registry, actions: seq<Action>)
    ensures Accountable(After(registry, actions))
  {
    hide Act, Accountable;
    if actions == [] {
      InitiallyWakeful();
    } else {
      RunsAreAccountable(registry, actions[..|actions| - 1]);
      ActKeepsAccountable(registry, After(registry, actions[..|actions| - 1]), actions[|actions| - 1]);
    }
  }

  /** Code that pauses only on signals never commits silently. */
  lemma HonestNeverSilent(registry: Registry, s: System, a: Action, run: string)
    requires AllPauseOnSignals(registry)
    ensures !SilentlyWaits(registry, s, a, run)
  {
    hide Replay, AppendWork, LastSequence;
    if SilentlyWaits(registry, s, a, run) {
      var op := s.inflight[a.op];
      PausesIn(registry, op.workflow);
      WaitingNamesSignals(ConfigOf(registry[op.workflow], op.run, op.log), a.env);
    }
  }

  /**
    No lost wake-up. With user code that pauses only on signals, in every reachable state a run that
    was started and is not completed, cancelled or failed has a pending workflow job, or a pending
    timeout job for a signal that is awaited and unsettled.
  */
  lemma {:induction false} NoLostWakeup(registry: Registry, actions: seq<Action>)
    requires AllPauseOnSignals(registry)
    ensures Wakeful(After(registry, actions))
  {
    hide Act, Accountable, RunAwake, AllPauseOnSignals, SilentlyWaits;
    RunsAreAccountable(registry, actions);
    if actions == [] {
      InitiallyWakeful();
    } else {
      var before, a := After(registry, actions[..|actions| - 1]), actions[|actions| - 1];
      NoLostWakeup(registry, actions[..|actions| - 1]);
      forall run ensures RunAwake(Act(registry, before, a), run) {
        HonestNeverSilent(registry, before, a, run);
        ActKeepsAwake(registry, before, a, run);
      }
    }
  }

  lemma InitiallyWakeful()
    ensures Wakeful(INITIAL)
  {}
}
