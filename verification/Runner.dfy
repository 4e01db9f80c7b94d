/**
  The runner protocol as a transition system over the event store, the job queue and the
  operations in flight. Every operation first loads a run's log and later, in one transaction,
  decides on that snapshot, appends under the store's sequence check and inserts jobs.
*/
module Protocol {
  import opened Events
  import opened EventLogs
  import opened Scans
  import opened Queries
  import opened Definitions
  import opened Engine

  type Registry = map<string, Definition>

  datatype Job =
    | WorkflowJob(run: string, workflow: string)
    | TimeoutJob(run: string, signal: string)

  /** An operation between its load and its commit, with the log it loaded. */
  datatype Op =
    | Working(job: nat, run: string, workflow: string, log: seq<Event>)
    | TimingOut(job: nat, run: string, signal: string, log: seq<Event>)
    | Signalling(run: string, signal: string, message: Json, log: seq<Event>)
    | Cancelling(run: string, reason: string, log: seq<Event>)

  /** `jobs` holds every job ever inserted; `pending` those not yet marked done. */
  datatype System = System(store: Logs, jobs: seq<Job>, pending: set<nat>, inflight: map<nat, Op>)

  const INITIAL := System(Logs(map[], {}), [], {}, map[])

  datatype Action =
    | StartWorkflow(run: string, workflow: string, input: Json, id: string)
    | Fetch(op: nat, job: nat)                                  // a worker picks up a job and loads the log
    | SendSignal(op: nat, run: string, signal: string, message: Json)
    | CancelWorkflow(op: nat, run: string, reason: string)
    | Commit(op: nat, env: Environment, ids: nat -> string)
    | Crash(op: nat)                                            // the process dies; its job stays pending
    | Redeliver(job: nat)                                       // the queue hands out a job once more

  /** Number payloads consecutively after `last`. */
  function Number(ps: seq<Payload>, run: string, last: int, ids: nat -> string): (es: seq<Event>)
    ensures |es| == |ps| && Payloads(es) == ps && Numbered(es, run, last)
    ensures forall i :: 0 <= i < |es| ==> es[i].id == ids(i)
  {
    seq(|ps|, i requires 0 <= i < |ps| => Event(ids(i), run, last + 1 + i, ps[i]))
  }

  function Insert(s: System, job: Job): System {
    s.(jobs := s.jobs + [job], pending := s.pending + {|s.jobs|})
  }

  function InsertTimeouts(s: System, run: string, waiting: seq<WaitingSignal>): System {
    if waiting == [] then s
    else Insert(InsertTimeouts(s, run, waiting[..|waiting| - 1]), TimeoutJob(run, waiting[|waiting| - 1].signal))
  }

  /** The work function returned without error: its job is done. */
  function Finish(s: System, job: nat): System {
    s.(pending := s.pending - {job})
  }

  /** The name in the first workflow.started event. */
  function NameOf(ps: seq<Payload>): string {
    if ps == [] then "" else if ps[0].WorkflowStarted? then ps[0].workflow else NameOf(ps[1..])
  }

  function ConfigOf(def: Definition, run: string, log: seq<Event>): Config {
    Config(def, run, if InputOf(Payloads(log)).Some? then InputOf(Payloads(log)).value else "null", log)
  }

  /** The events of one commit: those of the replay, and workflow.failed when it failed. */
  function WorkBatch(o: ReplayOutput): seq<Payload> {
    o.emitted + if o.result.ReplayFailed? then [WorkflowFailed(o.result.error)] else []
  }

  /**
    The worker's two appends, of the replay's events and of workflow.failed at the replay's next
    sequence number, within one transaction.
  */
  function AppendWork(store: Logs, o: ReplayOutput, run: string, last: int, ids: nat -> string): Option<Logs> {
    var (r, t) := AppendAll(store, Number(o.emitted, run, last, ids));
    if !r.Appended? then None
    else if o.result.ReplayFailed? then
      var next := last + 1 + |o.emitted|;
      var (r', u) := AppendAll(t, [Event(ids(|o.emitted|), run, next, WorkflowFailed(o.result.error))]);
      if r'.Appended? then Some(u) else None
    else Some(t)
  }

  /** The jobs a replay leaves behind: timeouts for what it waits for, or its own continuation. */
  function InsertNext(s: System, op: Op, o: ReplayOutput): System
    requires op.Working?
  {
    match o.result
    case ReplayCompleted => s
    case ReplayFailed(_) => s
    case ReplayWaiting => InsertTimeouts(s, op.run, o.waitingFor)
    case ReplaySuspended => Insert(s, WorkflowJob(op.run, op.workflow))
  }

  function CommitWork(registry: Registry, s: System, op: Op, env: Environment, ids: nat -> string): System
    requires op.Working?
  {
    var past := Payloads(op.log);
    if IsCancelled(past) || IsCompleted(past) then Finish(s, op.job)
    else if op.workflow !in registry then s
    else match Replay(ConfigOf(registry[op.workflow], op.run, op.log), env)
      case None => s
      case Some(o) =>
        match AppendWork(s.store, o, op.run, LastSequence(op.log), ids)
        case None => s
        case Some(store) => InsertNext(Finish(s.(store := store), op.job), op, o)
  }

  /** Append one event after the snapshot; on success the run is to be resumed. */
  function AppendAndResume(s: System, run: string, log: seq<Event>, p: Payload, id: string): Option<System> {
    var (r, store) := AppendAll(s.store, [Event(id, run, LastSequence(log) + 1, p)]);
    if r.Appended? then Some(Insert(s.(store := store), WorkflowJob(run, NameOf(Payloads(log))))) else None
  }

  function CommitTimeout(s: System, op: Op, id: string): System
    requires op.TimingOut?
  {
    match SignalOf(Payloads(op.log), op.signal)
    case None => Finish(s, op.job)
    case Some(state) =>
      if state.received || state.timeout then Finish(s, op.job)
      else match AppendAndResume(s, op.run, op.log, SignalTimeout(op.signal), id)
        case None => s
        case Some(t) => Finish(t, op.job)
  }

  /** SendSignal past its checks: record the message and resume the run. */
  function CommitSignal(s: System, op: Op, id: string): System
    requires op.Signalling?
  {
    match AppendAndResume(s, op.run, op.log, SignalReceived(op.signal, op.message), id)
    case None => s
    case Some(t) => t
  }

  /** CancelWorkflow past its checks. */
  function CommitCancel(s: System, op: Op, id: string): System
    requires op.Cancelling?
  {
    var (r, store) := AppendAll(s.store, [Event(id, op.run, LastSequence(op.log) + 1, WorkflowCancelled(op.reason))]);
    if r.Appended? then s.(store := store) else s
  }

  /** What an API call answers, judged on the log it loaded. */
  datatype Answer =
    | Accepted
    | RunNotFound
    | SignalNotWaiting
    | AlreadyReceived
    | AlreadyTimedOut
    | AlreadyCancelled
    | InvalidRunStatus

  function Judge(op: Op): Answer
    requires op.Signalling? || op.Cancelling?
  {
    var past := Payloads(op.log);
    if op.log == [] then RunNotFound
    else if op.Cancelling? then
      if IsCancelled(past) then AlreadyCancelled else if IsCompleted(past) then InvalidRunStatus else Accepted
    else match SignalOf(past, op.signal)
      case None => SignalNotWaiting
      case Some(state) =>
        if !state.waiting then SignalNotWaiting
        else if state.received then AlreadyReceived
        else if state.timeout then AlreadyTimedOut
        else Accepted
  }

  function CommitOp(registry: Registry, s: System, op: Op, env: Environment, ids: nat -> string): System {
    match op
    case Working(_, _, _, _) => CommitWork(registry, s, op, env, ids)
    case TimingOut(_, _, _, _) => CommitTimeout(s, op, ids(0))
    case Signalling(_, _, _, _) => if Judge(op).Accepted? then CommitSignal(s, op, ids(0)) else s
    case Cancelling(_, _, _) => if Judge(op).Accepted? then CommitCancel(s, op, ids(0)) else s
  }

  /** Loading within an operation: the snapshot is the run's log at this moment. */
  function Load(s: System, op: nat, o: Op): System {
    if op in s.inflight then s else s.(inflight := s.inflight[op := o])
  }

  function FetchOp(s: System, job: nat): Op
    requires job < |s.jobs|
  {
    match s.jobs[job]
    case WorkflowJob(run, workflow) => Working(job, run, workflow, s.store.Of(run))
    case TimeoutJob(run, signal) => TimingOut(job, run, signal, s.store.Of(run))
  }

  function Act(registry: Registry, s: System, a: Action): System {
    match a
    case StartWorkflow(run, workflow, input, id) =>
      if workflow !in registry then s
      else
        var (r, store) := AppendAll(s.store, [Event(id, run, 1, WorkflowStarted(workflow, registry[workflow].version,
            input))]);
        if r.Appended? then Insert(s.(store := store), WorkflowJob(run, workflow)) else s
    case Fetch(op, job) =>
      if job in s.pending && job < |s.jobs| then Load(s, op, FetchOp(s, job)) else s
    case SendSignal(op, run, signal, message) => Load(s, op, Signalling(run, signal, message, s.store.Of(run)))
    case CancelWorkflow(op, run, reason) => Load(s, op, Cancelling(run, reason, s.store.Of(run)))
    case Commit(op, env, ids) =>
      if op in s.inflight then CommitOp(registry, s.(inflight := s.inflight - {op}), s.inflight[op], env, ids) else s
    case Crash(op) => s.(inflight := s.inflight - {op})
    case Redeliver(job) => if job < |s.jobs| then s.(pending := s.pending + {job}) else s
  }

  /** The state after a run of the protocol. */
  function After(registry: Registry, actions: seq<Action>): System {
    if actions == [] then INITIAL
    else Act(registry, After(registry, actions[..|actions| - 1]), actions[|actions| - 1])
  }
}
