/** The runner's workers and API calls over a mutable store and job queue, proved against the protocol. */
module RunnerService {
  import opened Events
  import opened EventLogs
  import opened MemoryStore
  import opened Scans
  import opened Queries
  import opened Histories
  import opened Definitions
  import opened Engine
  import opened Protocol
  import opened Replayers

  class Runner {
    const registry: Registry
    const store: Store
    var jobs: seq<Job>
    var pending: set<nat>
    var inflight: map<nat, Op>

    /** The protocol state that the fields stand for. */
    function State(): System
      reads this, store
    {
      System(store.Contents(), jobs, pending, inflight)
    }

    constructor (registry: Registry)
      ensures this.registry == registry && fresh(store)
      ensures State() == INITIAL
    {
      this.registry := registry;
      store := new Store();
      jobs, pending, inflight := [], {}, map[];
    }

    method InsertJob(job: Job)
      modifies this`jobs, this`pending
      ensures State() == Protocol.Insert(old(State()), job)
    {
      pending := pending + {|jobs|};
      jobs := jobs + [job];
    }

    /** The event and the first job of a run go in together. */
    method StartWorkflowTx(run: string, workflow: string, input: Json, id: string) returns (ok: bool)
      modifies this`jobs, this`pending, store
      ensures State() == Act(registry, old(State()), StartWorkflow(run, workflow, input, id))
      ensures ok <==> workflow in registry && old(store.Contents()).Of(run) == [] && id !in old(store.Contents()).ids
    {
      if workflow !in registry {
        return false;
      }
      ghost var before := store.Contents();
      var e := Event(id, run, 1, WorkflowStarted(workflow, registry[workflow].version, input));
      assert AppendInTurn(before, [e]) == AppendOne(before, e) by { SingleInTurn(before, e); }
      var r := store.AppendBatch([e]);
      if !r.Appended? {
        return false;
      }
      InsertJob(WorkflowJob(run, workflow));
      return true;
    }

    static lemma SingleInTurn(s: Logs, e: Event)
      ensures AppendInTurn(s, [e]) == AppendOne(s, e)
    {
      assert [] + [e] == [e];
      InTurnPush(s, [], e);
    }

    /** Begin an operation: remember the log as it is now. */
    method Begin(op: nat, o: Op)
      modifies this`inflight
      ensures State() == Load(old(State()), op, o)
    {
      if op !in inflight {
        inflight := inflight[op := o];
      }
    }

    method FetchJob(op: nat, job: nat)
      modifies this`inflight
      ensures State() == Act(registry, old(State()), Fetch(op, job))
    {
      if job in pending && job < |jobs| {
        match jobs[job] {
          case WorkflowJob(run, workflow) =>
            var log := store.Load(run);
            Begin(op, Working(job, run, workflow, log));
          case TimeoutJob(run, signal) =>
            var log := store.Load(run);
            Begin(op, TimingOut(job, run, signal, log));
        }
      }
    }

    method BeginSignal(op: nat, run: string, signal: string, message: Json)
      modifies this`inflight
      ensures State() == Act(registry, old(State()), SendSignal(op, run, signal, message))
    {
      var log := store.Load(run);
      Begin(op, Signalling(run, signal, message, log));
    }

    method BeginCancel(op: nat, run: string, reason: string)
      modifies this`inflight
      ensures State() == Act(registry, old(State()), CancelWorkflow(op, run, reason))
    {
      var log := store.Load(run);
      Begin(op, Cancelling(run, reason, log));
    }

    /** The workflow name in the first workflow.started event of a log. */
    static method FirstWorkflow(log: seq<Event>) returns (name: string)
      ensures name == NameOf(Payloads(log))
    {
      name := "";
      ghost var ps := Payloads(log);
      assert ps[0..] == ps;
      for i := 0 to |log|
        invariant name == "" && NameOf(ps) == NameOf(ps[i..])
      {
        assert ps[i..][1..] == ps[i + 1..];
        if log[i].payload.WorkflowStarted? {
          return log[i].payload.workflow;
        }
      }
    }

    /** Append one event after the loaded log and insert the job that resumes the run, in one transaction. */
    method AppendThenResume(run: string, log: seq<Event>, history: History, p: Payload, id: string) returns (ok: bool)
      requires history.events == log && history.Valid([])
      modifies this`jobs, this`pending, store
      ensures var t := AppendAndResume(old(State()), run, log, p, id);
              ok == t.Some? && State() == if t.Some? then t.value else old(State())
    {
      var r := store.AppendBatch([Event(id, run, history.lastSequence + 1, p)]);
      if !r.Appended? {
        return false;
      }
      var workflow := FirstWorkflow(log);
      InsertJob(WorkflowJob(run, workflow));
      return true;
    }

    method WorkTimeout(op: Op, id: string)
      requires op.TimingOut?
      modifies this`jobs, this`pending, store
      ensures State() == CommitTimeout(old(State()), op, id)
    {
      var history := new History(op.run, op.log);
      var state := history.GetSignalState(op.signal);
      if state.None? || state.value.received || state.value.timeout {
        pending := pending - {op.job};
        return;
      }
      var ok := AppendThenResume(op.run, op.log, history, SignalTimeout(op.signal), id);
      if ok {
        pending := pending - {op.job};
      }
    }

    /**
      SendSignal after its load: the answer is judged on the loaded log, the append on the current
      one, so that an accepted call is in error if the log has changed since.
    */
    method SignalRun(op: Op, id: string) returns (answer: Answer, recorded: bool)
      requires op.Signalling?
      modifies this`jobs, this`pending, store
      ensures answer == Judge(op)
      ensures recorded <==>
                answer.Accepted?
                && AppendAndResume(old(State()), op.run, op.log, SignalReceived(op.signal, op.message), id).Some?
      ensures State() == if answer.Accepted? then CommitSignal(old(State()), op, id) else old(State())
    {
      if |op.log| == 0 {
        return RunNotFound, false;
      }
      var history := new History(op.run, op.log);
      var state := history.GetSignalState(op.signal);
      if state.None? || !state.value.waiting {
        return SignalNotWaiting, false;
      }
      if state.value.received {
        return AlreadyReceived, false;
      }
      if state.value.timeout {
        return AlreadyTimedOut, false;
      }
      recorded := AppendThenResume(op.run, op.log, history, SignalReceived(op.signal, op.message), id);
      return Accepted, recorded;
    }

    method CancelRun(op: Op, id: string) returns (answer: Answer, recorded: bool)
      requires op.Cancelling?
      modifies store
      ensures answer == Judge(op)
      ensures recorded ==> answer.Accepted?
      ensures answer.Accepted? ==>
                (recorded <==>
                 AppendAll(old(store.Contents()),
                     [Event(id, op.run, LastSequence(op.log) + 1, WorkflowCancelled(op.reason))]).0.Appended?)
      ensures State() == if answer.Accepted? then CommitCancel(old(State()), op, id) else old(State())
    {
      if |op.log| == 0 {
        return RunNotFound, false;
      }
      var history := new History(op.run, op.log);
      if history.cancelled {
        return AlreadyCancelled, false;
      }
      if history.completed {
        return InvalidRunStatus, false;
      }
      var r := store.AppendBatch([Event(id, op.run, history.lastSequence + 1, WorkflowCancelled(op.reason))]);
      return Accepted, r.Appended?;
    }

    /** The worker's appends within its transaction; on a conflict everything is rolled back. */
    method AppendReplay(run: string, replayer: Replayer, o: ReplayOutput) returns (ok: bool)
      requires replayer.newEvents == Number(o.emitted, run, LastSequence(replayer.config.log), replayer.newID)
      requires replayer.nextSequence == LastSequence(replayer.config.log) + 1 + |o.emitted|
      modifies store
      ensures var t := AppendWork(old(store.Contents()), o, run, LastSequence(replayer.config.log), replayer.newID);
              ok == t.Some? && store.Contents() == if t.Some? then t.value else old(store.Contents())
    {
      var events, ids := store.events, store.ids;
      var r := store.AppendBatch(replayer.newEvents);
      if !r.Appended? {
        return false;
      }
      if o.result.ReplayFailed? {
        var failed := Event(replayer.newID(|o.emitted|), run, replayer.nextSequence, WorkflowFailed(o.result.error));
        r := store.AppendBatch([failed]);
        if !r.Appended? {
          store.events, store.ids := events, ids;
          return false;
        }
      }
      return true;
    }

    method ScheduleTimeouts(run: string, waiting: seq<WaitingSignal>)
      modifies this`jobs, this`pending
      ensures State() == InsertTimeouts(old(State()), run, waiting)
    {
      ghost var before := State();
      for i := 0 to |waiting|
        invariant State() == InsertTimeouts(before, run, waiting[..i])
      {
        assert waiting[..i + 1][..i] == waiting[..i];
        InsertJob(TimeoutJob(run, waiting[i].signal));
      }
      assert waiting[..|waiting|] == waiting;
    }

    /** The jobs that a replay's result calls for. */
    method InsertFollowUps(op: Op, o: ReplayOutput)
      requires op.Working?
      modifies this`jobs, this`pending
      ensures State() == InsertNext(old(State()), op, o)
    {
      match o.result {
        case ReplayCompleted =>
        case ReplayFailed(_) =>
        case ReplayWaiting => ScheduleTimeouts(op.run, o.waitingFor);
        case ReplaySuspended => InsertJob(WorkflowJob(op.run, op.workflow));
      }
    }

    /** The workflow worker after its load. */
    method WorkWorkflow(op: Op, env: Environment, ids: nat -> string)
      requires op.Working?
      modifies this`jobs, this`pending, store
      ensures State() == CommitWork(registry, old(State()), op, env, ids)
    {
      hide Engine.Replay, AppendWork, InsertNext;
      var history := new History(op.run, op.log);
      if history.cancelled || history.completed {
        pending := pending - {op.job};
        return;
      }
      if op.workflow !in registry {
        return;
      }
      var input := if history.workflowInput.Some? then history.workflowInput.value else "null";
      var replayer := new Replayer(Config(registry[op.workflow], op.run, input, op.log), history, ids);
      assert replayer.config == ConfigOf(registry[op.workflow], op.run, op.log);
      var out := replayer.Replay(env);
      if out.None? {
        return;
      }
      var ok := AppendReplay(op.run, replayer, out.value);
      if ok {
        pending := pending - {op.job};
        InsertFollowUps(op, out.value);
      }
    }

    /** Finish an operation that was begun. */
    method Finish(op: nat, env: Environment, ids: nat -> string)
      modifies this, store
      ensures State() == Act(registry, old(State()), Commit(op, env, ids))
    {
      hide CommitWork, CommitTimeout, CommitSignal, CommitCancel, Judge;
      if op in inflight {
        var o := inflight[op];
        inflight := inflight - {op};
        match o {
          case Working(_, _, _, _) => WorkWorkflow(o, env, ids);
          case TimingOut(_, _, _, _) => WorkTimeout(o, ids(0));
          case Signalling(_, _, _, _) => var _, _ := SignalRun(o, ids(0));
          case Cancelling(_, _, _) => var _, _ := CancelRun(o, ids(0));
        }
      }
    }
  }
}
