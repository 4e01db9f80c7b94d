/** What each operation of the protocol appends and inserts, and exactly when, told from the loaded log. */
module Effects {
  import opened Events
  import opened EventLogs
  import opened Scans
  import opened Queries
  import opened Definitions
  import opened Engine
  import opened Signals
  import opened Protocol
  import opened Growth
  import opened Safety
  import opened Completion

  // ----- What a log says of a signal or of the run -----

  predicate Waited(ps: seq<Payload>, signal: string) {
    exists p :: p in ps && p.SignalWaiting? && p.signal == signal
  }

  predicate Received(ps: seq<Payload>, signal: string) {
    exists p :: p in ps && p.SignalReceived? && p.signal == signal
  }

  predicate Expired(ps: seq<Payload>, signal: string) {
    exists p :: p in ps && p.SignalTimeout? && p.signal == signal
  }

  predicate Cancelled(ps: seq<Payload>) {
    exists p :: p in ps && p.WorkflowCancelled?
  }

  predicate Completed(ps: seq<Payload>) {
    exists p :: p in ps && p.WorkflowCompleted?
  }

  lemma SignalSeen(ps: seq<Payload>, signal: string)
    ensures Last(ps, WaitingView(signal)).Some? <==> Waited(ps, signal)
    ensures Last(ps, ReceivedView(signal)).Some? <==> Received(ps, signal)
    ensures Last(ps, TimeoutView(signal)).Some? <==> Expired(ps, signal)
  {
    LastNone(ps, WaitingView(signal));
    LastNone(ps, ReceivedView(signal));
    LastNone(ps, TimeoutView(signal));
  }

  lemma EndSeen(ps: seq<Payload>)
    ensures IsCancelled(ps) <==> Cancelled(ps)
    ensures IsCompleted(ps) <==> Completed(ps)
  {
    LastNone(ps, CancelledView());
    LastNone(ps, CompletedView());
  }

  // ----- What the API answers -----

  /** The answers to SendSignal, each by what the loaded log holds. */
  lemma SignalAnswers(op: Op)
    requires op.Signalling?
    ensures var ps, answer := Payloads(op.log), Judge(op);
            && (answer.RunNotFound? <==> op.log == [])
            && (answer.SignalNotWaiting? <==> op.log != [] && !Waited(ps, op.signal))
            && (answer.AlreadyReceived? <==> Waited(ps, op.signal) && Received(ps, op.signal))
            && (answer.AlreadyTimedOut? <==>
                  Waited(ps, op.signal) && !Received(ps, op.signal) && Expired(ps, op.signal))
            && (answer.Accepted? <==>
                  Waited(ps, op.signal) && !Received(ps, op.signal) && !Expired(ps, op.signal))
  {
    SignalSeen(Payloads(op.log), op.signal);
  }

  /** The answers to CancelWorkflow. */
  lemma CancelAnswers(op: Op)
    requires op.Cancelling?
    ensures var ps, answer := Payloads(op.log), Judge(op);
            && (answer.RunNotFound? <==> op.log == [])
            && (answer.AlreadyCancelled? <==> Cancelled(ps))
            && (answer.InvalidRunStatus? <==> !Cancelled(ps) && Completed(ps))
            && (answer.Accepted? <==> op.log != [] && !Cancelled(ps) && !Completed(ps))
  {
    EndSeen(Payloads(op.log));
  }

  // ----- Appending after a snapshot -----

  /** One event after a snapshot is accepted exactly if the log still is the snapshot and the ID is new. */
  lemma SingleAcceptedIff(store: Logs, run: string, log: seq<Event>, p: Payload, id: string)
    requires Sound(store) && log <= store.Of(run)
    ensures var r := AppendAll(store, [Event(id, run, LastSequence(log) + 1, p)]).0;
            r.Appended? <==> store.Of(run) == log && id !in store.ids
  {
    hide Sound, LastSequence;
    SoundGapless(store);
    SnapshotLength(store, run, log);
    var es := [Event(id, run, LastSequence(log) + 1, p)];
    AppendedIffAcceptable(store, es);
    assert Due(store, es, 0) == |store.Of(run)| + 1;
    assert |log| == |store.Of(run)| ==> log == store.Of(run);
  }

  /** The first event of a run's log names its workflow. */
  predicate StartedAs(ps: seq<Payload>, workflow: string) {
    ps != [] && ps[0].WorkflowStarted? && ps[0].workflow == workflow
  }

  lemma SnapshotStart(s: System, run: string, log: seq<Event>)
    requires AllHeaded(s.store) && log <= s.store.Of(run) && log != []
    ensures StartedAs(Payloads(log), NameOf(Payloads(log)))
  {
    assert Headed(Payloads(s.store.Of(run)));
    assert log[0] == s.store.Of(run)[0];
  }

  /** The run's log grew by just these payloads, and no other log changed. */
  ghost predicate GrewBy(s: System, t: System, run: string, added: seq<Payload>) {
    && Payloads(t.store.Of(run)) == Payloads(s.store.Of(run)) + added
    && forall other :: other != run ==> t.store.Of(other) == s.store.Of(other)
  }

  /** One more job, a pending one that works on the run's own workflow. */
  ghost predicate Resumed(s: System, t: System, run: string) {
    && |t.jobs| == |s.jobs| + 1 && t.jobs[..|s.jobs|] == s.jobs && |s.jobs| in t.pending
    && t.jobs[|s.jobs|].WorkflowJob? && t.jobs[|s.jobs|].run == run
    && StartedAs(Payloads(t.store.Of(run)), t.jobs[|s.jobs|].workflow)
  }

  lemma ResumeEffect(s: System, run: string, log: seq<Event>, p: Payload, id: string)
    requires Consistent(s) && log <= s.store.Of(run) && log != []
    ensures var r := AppendAndResume(s, run, log, p, id);
            && (r.Some? <==> s.store.Of(run) == log && id !in s.store.ids)
            && (r.Some? ==> GrewBy(s, r.value, run, [p]) && Resumed(s, r.value, run)
                            && r.value.pending == s.pending + {|s.jobs|} && r.value.inflight == s.inflight)
  {
    hide Sound, LastSequence, Fits, NameOf, AppendAll, Headed;
    SingleAcceptedIff(s.store, run, log, p, id);
    SingleAppend(s.store, run, log, p, id);
    SnapshotStart(s, run, log);
  }

  // ----- The four operations -----

  /**
    SendSignal: with the signal awaited and unsettled in the loaded log, that log unchanged and a new
    ID, the message is recorded and a job resumes the run; in every other case nothing changes.
  */
  lemma SignalEffect(registry: Registry, s: System, op: Op, env: Environment, ids: nat -> string)
    requires Consistent(s) && op.Signalling? && OpFits(s, op)
    ensures var t, ps := CommitOp(registry, s, op, env, ids), Payloads(op.log);
            if Waited(ps, op.signal) && !Received(ps, op.signal) && !Expired(ps, op.signal)
               && s.store.Of(op.run) == op.log && ids(0) !in s.store.ids
            then GrewBy(s, t, op.run, [SignalReceived(op.signal, op.message)]) && Resumed(s, t, op.run)
            else t == s
  {
    hide Consistent, AppendAndResume, Judge;
    SignalAnswers(op);
    if op.log != [] {
      ResumeEffect(s, op.run, op.log, SignalReceived(op.signal, op.message), ids(0));
    }
  }

  /**
    The timeout of a signal: recorded, with a job that resumes the run and the timeout job done, if
    the signal is unsettled in the loaded log, that log unchanged and the ID new; if the log moved
    on, nothing changes and the job stays; if nothing is there to settle, only the job is done.
  */
  lemma TimeoutEffect(registry: Registry, s: System, op: Op, env: Environment, ids: nat -> string)
    requires Consistent(s) && op.TimingOut? && OpFits(s, op)
    ensures var t, ps := CommitOp(registry, s, op, env, ids), Payloads(op.log);
            if !Waited(ps, op.signal) || Received(ps, op.signal) || Expired(ps, op.signal) then
              t == s.(pending := s.pending - {op.job})
            else if s.store.Of(op.run) == op.log && ids(0) !in s.store.ids then
              && GrewBy(s, t, op.run, [SignalTimeout(op.signal)])
              && t.pending == s.pending + {|s.jobs|} - {op.job}
              && |t.jobs| == |s.jobs| + 1 && t.jobs[..|s.jobs|] == s.jobs
              && t.jobs[|s.jobs|].WorkflowJob? && t.jobs[|s.jobs|].run == op.run
            else t == s
  {
    hide Consistent, AppendAndResume;
    SignalSeen(Payloads(op.log), op.signal);
    NeverBlank(Payloads(op.log), op.signal);
    if op.log != [] {
      ResumeEffect(s, op.run, op.log, SignalTimeout(op.signal), ids(0));
    }
  }

  /** CancelWorkflow: recorded if the loaded log is that of an open run and unchanged; no job is inserted. */
  lemma CancelEffect(registry: Registry, s: System, op: Op, env: Environment, ids: nat -> string)
    requires Consistent(s) && op.Cancelling? && OpFits(s, op)
    ensures var t, ps := CommitOp(registry, s, op, env, ids), Payloads(op.log);
            if op.log != [] && !Cancelled(ps) && !Completed(ps)
               && s.store.Of(op.run) == op.log && ids(0) !in s.store.ids
            then GrewBy(s, t, op.run, [WorkflowCancelled(op.reason)]) && t == s.(store := t.store)
            else t == s
  {
    hide Sound, Fits, AllHeaded, LastSequence, AppendAll, Judge;
    CancelAnswers(op);
    SingleAcceptedIff(s.store, op.run, op.log, WorkflowCancelled(op.reason), ids(0));
    SingleAppend(s.store, op.run, op.log, WorkflowCancelled(op.reason), ids(0));
  }

  /** StartWorkflow: on a new run with a new ID the input is recorded and the first job inserted. */
  lemma StartEffect(registry: Registry, s: System, a: Action)
    requires Consistent(s) && a.StartWorkflow?
    ensures var t := Act(registry, s, a);
            if a.workflow in registry && s.store.Of(a.run) == [] && a.id !in s.store.ids then
              && GrewBy(s, t, a.run, [WorkflowStarted(a.workflow, registry[a.workflow].version, a.input)])
              && t.jobs == s.jobs + [WorkflowJob(a.run, a.workflow)] && t.pending == s.pending + {|s.jobs|}
            else t == s
  {
    hide Sound, Fits, AllHeaded, AppendAll;
    if a.workflow in registry {
      var p := WorkflowStarted(a.workflow, registry[a.workflow].version, a.input);
      SingleAcceptedIff(s.store, a.run, [], p, a.id);
      SingleAppend(s.store, a.run, [], p, a.id);
    }
  }

  /** The operations that are begun remember what they were asked, and the log as it is at that moment. */
  lemma BegunOperation(registry: Registry, s: System, a: Action)
    requires a.Fetch? || a.SendSignal? || a.CancelWorkflow?
    requires a.op !in s.inflight && (a.Fetch? ==> a.job in s.pending && a.job < |s.jobs|)
    ensures var t := Act(registry, s, a);
            && t == s.(inflight := t.inflight) && t.inflight.Keys == s.inflight.Keys + {a.op}
            && (forall o :: o in s.inflight ==> t.inflight[o] == s.inflight[o])
            && var op := t.inflight[a.op];
               && op.log == s.store.Of(op.run)
               && (a.SendSignal? ==>
                      op.Signalling? && op.run == a.run && op.signal == a.signal && op.message == a.message)
               && (a.CancelWorkflow? ==> op.Cancelling? && op.run == a.run && op.reason == a.reason)
               && (a.Fetch? && s.jobs[a.job].WorkflowJob? ==>
                     op.Working? && op.job == a.job && WorkflowJob(op.run, op.workflow) == s.jobs[a.job])
               && (a.Fetch? && s.jobs[a.job].TimeoutJob? ==>
                     op.TimingOut? && op.job == a.job && TimeoutJob(op.run, op.signal) == s.jobs[a.job])
  {}

  // ----- The worker -----

  /** Both appends of the worker are one batch, numbered through. */
  lemma TwoAppendsAreOne(store: Logs, o: ReplayOutput, run: string, last: int, ids: nat -> string)
    ensures AppendWork(store, o, run, last, ids).Some? <==>
              AppendInTurn(store, Number(WorkBatch(o), run, last, ids)).0.Appended?
    ensures AppendWork(store, o, run, last, ids).Some? ==>
              AppendWork(store, o, run, last, ids).value == AppendInTurn(store, Number(WorkBatch(o), run, last, ids)).1
  {
    hide AppendInTurn, AppendOne;
    var es := Number(o.emitted, run, last, ids);
    var all := Number(WorkBatch(o), run, last, ids);
    if o.result.ReplayFailed? {
      var e := Event(ids(|o.emitted|), run, last + 1 + |o.emitted|, WorkflowFailed(o.result.error));
      assert all == es + [e];
      InTurnPush(store, es, e);
      OneInTurn(AppendInTurn(store, es).1, e);
    } else {
      assert WorkBatch(o) == o.emitted;
    }
  }

  lemma OneInTurn(store: Logs, e: Event)
    ensures AppendInTurn(store, [e]) == AppendOne(store, e)
  {
    assert [e][..0] == [];
    assert AppendInTurn(store, []) == (Appended, store);
  }

  /** The worker's events are accepted exactly if there are none, or the log is unchanged and the IDs are new. */
  lemma WorkAcceptedIff(store: Logs, o: ReplayOutput, run: string, log: seq<Event>, ids: nat -> string)
    requires Sound(store) && log <= store.Of(run)
    ensures AppendWork(store, o, run, LastSequence(log), ids).Some? <==>
              WorkBatch(o) == [] || (store.Of(run) == log && FreshFor(store, ids, |WorkBatch(o)|))
  {
    hide Sound, LastSequence, AppendWork, AppendInTurn, WorkBatch;
    SoundGapless(store);
    SnapshotLength(store, run, log);
    var es := Number(WorkBatch(o), run, LastSequence(log), ids);
    TwoAppendsAreOne(store, o, run, LastSequence(log), ids);
    AppendedIffAcceptable(store, es);
    assert |log| == |store.Of(run)| ==> log == store.Of(run);
    if es != [] {
      assert Due(store, es, 0) == |store.Of(run)| + 1;
      if store.Of(run) == log {
        InOrderAfter(store, es, run);
      }
      FreshIdsIff(store, es, ids);
    }
  }

  lemma InOrderAfter(store: Logs, es: seq<Event>, run: string)
    requires Numbered(es, run, |store.Of(run)|)
    ensures InOrder(store, es)
  {
    forall i | 0 <= i < |es| ensures es[i].sequence == Due(store, es, i) {
      OfRunSingle(es[..i], run, run);
    }
  }

  lemma FreshIdsIff(store: Logs, es: seq<Event>, ids: nat -> string)
    requires forall i :: 0 <= i < |es| ==> es[i].id == ids(i)
    ensures FreshIds(store, es) <==> FreshFor(store, ids, |es|)
  {
    if FreshIds(store, es) {
      forall i: nat | i < |es| ensures ids(i) !in store.ids { assert es[i].id !in store.ids; }
      forall i: nat, j: nat | i < j < |es| ensures ids(i) != ids(j) { assert es[i].id != es[j].id; }
    }
  }

  /** What the worker's commit inserts after a replay with this result. */
  ghost predicate FollowedUp(s: System, t: System, op: Op, o: ReplayOutput)
    requires op.Working?
  {
    && |s.jobs| <= |t.jobs| && t.jobs[..|s.jobs|] == s.jobs
    && (forall j :: j in t.pending <==> (j in s.pending && j != op.job) || |s.jobs| <= j < |t.jobs|)
    && match o.result
       case ReplayCompleted => |t.jobs| == |s.jobs|
       case ReplayFailed(_) => |t.jobs| == |s.jobs|
       case ReplaySuspended => |t.jobs| == |s.jobs| + 1 && t.jobs[|s.jobs|] == WorkflowJob(op.run, op.workflow)
       case ReplayWaiting =>
         && |t.jobs| == |s.jobs| + |o.waitingFor|
         && forall i :: 0 <= i < |o.waitingFor| ==> t.jobs[|s.jobs| + i] == TimeoutJob(op.run, o.waitingFor[i].signal)
  }

  /**
    The worker: on a closed log only its job is done. Otherwise the replay's events, and
    workflow.failed with the replay's error if it failed, are recorded and the follow-up jobs
    inserted exactly if the log is unchanged and the IDs are new; else nothing changes and the job
    stays pending.
  */
  lemma WorkEffect(registry: Registry, s: System, op: Op, env: Environment, ids: nat -> string)
    requires Consistent(s) && op.Working? && OpFits(s, op) && op.job < |s.jobs|
    ensures var t, ps := CommitOp(registry, s, op, env, ids), Payloads(op.log);
            if Cancelled(ps) || Completed(ps) then t == s.(pending := s.pending - {op.job})
            else if op.workflow !in registry then t == s
            else
              var replay := Replay(ConfigOf(registry[op.workflow], op.run, op.log), env);
              if replay.None? then t == s
              else
                var o := replay.value;
                var batch := o.emitted + if o.result.ReplayFailed? then [WorkflowFailed(o.result.error)] else [];
                if batch == [] || (s.store.Of(op.run) == op.log && FreshFor(s.store, ids, |batch|)) then
                  GrewBy(s, t, op.run, batch) && FollowedUp(s, t, op, o)
                else t == s
  {
    hide Consistent, Replay, AppendWork, LastSequence, FreshFor, ConfigOf;
    EndSeen(Payloads(op.log));
    var ps := Payloads(op.log);
    if !Cancelled(ps) && !Completed(ps) && op.workflow in registry {
      var replay := Replay(ConfigOf(registry[op.workflow], op.run, op.log), env);
      if replay.Some? {
        StoreSound(s);
        WorkAcceptedIff(s.store, replay.value, op.run, op.log, ids);
        var store := AppendWork(s.store, replay.value, op.run, LastSequence(op.log), ids);
        if store.Some? {
          WorkAppend(s.store, replay.value, op.run, op.log, ids);
          FollowUps(s, s.(store := store.value), op, replay.value);
        }
      }
    }
  }

  lemma StoreSound(s: System)
    requires Consistent(s)
    ensures Sound(s.store)
  {}

  lemma FollowUps(s: System, u: System, op: Op, o: ReplayOutput)
    requires op.Working? && op.job < |s.jobs| && u == s.(store := u.store)
    ensures var t := InsertNext(Finish(u, op.job), op, o); FollowedUp(s, t, op, o) && t.store == u.store
  {
    var v := Finish(u, op.job);
    var t := InsertNext(v, op, o);
    TimeoutsInserted(v, op.run, o.waitingFor);
    NextInserted(v, op, o);
    assert t.jobs[..|s.jobs|] == s.jobs;
  }

  // ----- Every action -----

  /** The payloads an action means to record, and in which run. */
  function Intended(registry: Registry, s: System, a: Action): (string, seq<Payload>) {
    match a
    case StartWorkflow(run, workflow, input, _) =>
      (run, if workflow in registry then [WorkflowStarted(workflow, registry[workflow].version, input)] else [])
    case Commit(op, env, _) =>
      if op !in s.inflight then ("", [])
      else
        (match s.inflight[op]
         case Signalling(run, signal, message, _) => (run, [SignalReceived(signal, message)])
         case TimingOut(_, run, signal, _) => (run, [SignalTimeout(signal)])
         case Cancelling(run, reason, _) => (run, [WorkflowCancelled(reason)])
         case Working(_, run, workflow, log) =>
           if workflow !in registry || Replay(ConfigOf(registry[workflow], run, log), env).None? then (run, [])
           else
             var o := Replay(ConfigOf(registry[workflow], run, log), env).value;
             (run, o.emitted + if o.result.ReplayFailed? then [WorkflowFailed(o.result.error)] else []))
    case _ => ("", [])
  }

  /** Whatever an action changes in the logs is what it means to record, in the run it is about. */
  lemma ActRecords(registry: Registry, actions: seq<Action>, a: Action)
    ensures var s, t := After(registry, actions), After(registry, actions + [a]);
            var (run, added) := Intended(registry, s, a);
            t.store == s.store || GrewBy(s, t, run, added)
  {
    hide Consistent, Replay, CommitOp, ConfigOf, GrewBy, Resumed, FollowedUp;
    hide Waited, Received, Expired, Cancelled, Completed;
    RunsAreConsistent(registry, actions);
    var s := After(registry, actions);
    assert (actions + [a])[..|actions|] == actions;
    match a
    case StartWorkflow(_, _, _, _) => StartEffect(registry, s, a);
    case Commit(op, env, ids) =>
      if op in s.inflight {
        CommitRecords(registry, s, op, env, ids);
      }
    case _ =>
  }

  /** The state a commit starts from: the operation is no longer in flight. */
  lemma CommitRecords(registry: Registry, s: System, op: nat, env: Environment, ids: nat -> string)
    requires Consistent(s) && op in s.inflight
    ensures var t := Act(registry, s, Commit(op, env, ids));
            var (run, added) := Intended(registry, s, Commit(op, env, ids));
            t.store == s.store || GrewBy(s, t, run, added)
  {
    hide Sound, AllHeaded, Replay, CommitOp, ConfigOf, Resumed, FollowedUp, FreshFor;
    hide Waited, Received, Expired, Cancelled, Completed;
    var u, o := s.(inflight := s.inflight - {op}), s.inflight[op];
    SameStoreFits(s, u);
    assert OpFits(u, o) && Consistent(u);
    match o
    case Signalling(_, _, _, _) => SignalEffect(registry, u, o, env, ids);
    case TimingOut(_, _, _, _) => TimeoutEffect(registry, u, o, env, ids);
    case Cancelling(_, _, _) => CancelEffect(registry, u, o, env, ids);
    case Working(_, _, _, _) => WorkRecords(registry, u, o, env, ids);
  }

  lemma WorkRecords(registry: Registry, s: System, op: Op, env: Environment, ids: nat -> string)
    requires Consistent(s) && op.Working? && OpFits(s, op)
    ensures var t := CommitOp(registry, s, op, env, ids);
            t.store == s.store ||
            (op.workflow in registry && Replay(ConfigOf(registry[op.workflow], op.run, op.log), env).Some? &&
             GrewBy(s, t, op.run, WorkBatch(Replay(ConfigOf(registry[op.workflow], op.run, op.log), env).value)))
  {
    hide Consistent, Replay, AppendWork, LastSequence, ConfigOf;
    StoreSound(s);
    if op.workflow in registry {
      var replay := Replay(ConfigOf(registry[op.workflow], op.run, op.log), env);
      if replay.Some? && AppendWork(s.store, replay.value, op.run, LastSequence(op.log), ids).Some? {
        WorkAppend(s.store, replay.value, op.run, op.log, ids);
        var store := AppendWork(s.store, replay.value, op.run, LastSequence(op.log), ids).value;
        NextInserted(Finish(s.(store := store), op.job), op, replay.value);
      }
    }
  }

  // ----- Messages -----

  /**
    A message that was accepted and recorded is delivered: in every replay of every later log,
    WaitForSignal returns it, and leaves what the goroutines share as it is.
  */
  lemma RecordedMessageIsDelivered(registry: Registry, actions: seq<Action>, op: nat, env: Environment,
      ids: nat -> string, more: seq<Action>, d: Config, sh: Shared, timeout: int, now: int)
    requires var s, t := After(registry, actions), After(registry, actions + [Commit(op, env, ids)]);
             && op in s.inflight && s.inflight[op].Signalling? && t.store != s.store
             && d.log == After(registry, actions + [Commit(op, env, ids)] + more).store.Of(s.inflight[op].run)
    ensures var o := After(registry, actions).inflight[op];
            Wait(d, sh, o.signal, timeout, now) == (sh, Delivered(o.message))
  {
    hide After, Wait;
    var s, t := After(registry, actions), After(registry, actions + [Commit(op, env, ids)]);
    var o := s.inflight[op];
    ActRecords(registry, actions, Commit(op, env, ids));
    var ps := Payloads(t.store.Of(o.run));
    assert ps[|ps| - 1] == SignalReceived(o.signal, o.message);
    assert ps == ps[..|ps| - 1] + [ps[|ps| - 1]];
    LastPush(ps[..|ps| - 1], ps[|ps| - 1], ReceivedView(o.signal));
    var n := LogsGrow(registry, actions + [Commit(op, env, ids)], more, o.run);
    ChainKeepsSettled(registry, o.run, t.store.Of(o.run), d.log, n, o.signal);
    StillReceived(ps, d.Past(), o.signal);
    WaitReplies(d, sh, o.signal, timeout, now);
  }

  lemma StillReceived(a: seq<Payload>, b: seq<Payload>, signal: string)
    requires SignalOf(a, signal) == SignalOf(b, signal) && Last(a, ReceivedView(signal)).Some?
    ensures Last(b, ReceivedView(signal)) == Last(a, ReceivedView(signal))
  {}

  /** And a signal whose timeout was recorded is answered as timed out in every later log. */
  lemma RecordedTimeoutIsAnswered(registry: Registry, actions: seq<Action>, op: nat, env: Environment,
      ids: nat -> string, more: seq<Action>, d: Config, sh: Shared, timeout: int, now: int)
    requires var s, t := After(registry, actions), After(registry, actions + [Commit(op, env, ids)]);
             && op in s.inflight && s.inflight[op].TimingOut? && t.store != s.store
             && d.log == After(registry, actions + [Commit(op, env, ids)] + more).store.Of(s.inflight[op].run)
    ensures Wait(d, sh, After(registry, actions).inflight[op].signal, timeout, now) == (sh, TimedOut)
  {
    hide After, Wait, SettledOnce, SignalOf, IsSettled, Last, Chain, Intended;
    var s, t := After(registry, actions), After(registry, actions + [Commit(op, env, ids)]);
    var o := s.inflight[op];
    ActRecords(registry, actions, Commit(op, env, ids));
    assert Intended(registry, s, Commit(op, env, ids)) == (o.run, [SignalTimeout(o.signal)]) by {
      TimeoutIntended(registry, s, op, env, ids);
    }
    var ps := Payloads(t.store.Of(o.run));
    SignalsSettleOnce(registry, actions + [Commit(op, env, ids)], o.run, o.signal);
    NotAlsoReceived(ps, o.signal);
    var n := LogsGrow(registry, actions + [Commit(op, env, ids)], more, o.run);
    ChainKeepsSettled(registry, o.run, t.store.Of(o.run), d.log, n, o.signal);
    StillExpired(ps, d.Past(), o.signal);
    WaitReplies(d, sh, o.signal, timeout, now);
  }

  /** A timeout that is the last word on its signal came without a message. */
  lemma NotAlsoReceived(ps: seq<Payload>, signal: string)
    requires SettledOnce(ps, signal) && ps != [] && ps[|ps| - 1] == SignalTimeout(signal)
    ensures Last(ps, ReceivedView(signal)).None? && Last(ps, TimeoutView(signal)).Some? && IsSettled(ps, signal)
  {
    var n := |ps| - 1;
    TimesOutAtEnd(ps, signal);
    forall p | p in ps ensures ReceivedView(signal)(p).None? {
      var k :| 0 <= k < |ps| && ps[k] == p;
      if k < n && Settles(p, signal) {
        assert Mentions(ps[n], signal);
        assert false;
      }
    }
    LastNone(ps, ReceivedView(signal));
  }

  lemma TimesOutAtEnd(ps: seq<Payload>, signal: string)
    requires ps != [] && ps[|ps| - 1] == SignalTimeout(signal)
    ensures Last(ps, TimeoutView(signal)).Some? && IsSettled(ps, signal)
  {
    assert ps == ps[..|ps| - 1] + [ps[|ps| - 1]];
    LastPush(ps[..|ps| - 1], ps[|ps| - 1], TimeoutView(signal));
  }

  lemma TimeoutIntended(registry: Registry, s: System, op: nat, env: Environment, ids: nat -> string)
    requires op in s.inflight && s.inflight[op].TimingOut?
    ensures Intended(registry, s, Commit(op, env, ids)) ==
            (s.inflight[op].run, [SignalTimeout(s.inflight[op].signal)])
  {}

  lemma StillExpired(a: seq<Payload>, b: seq<Payload>, signal: string)
    requires SignalOf(a, signal) == SignalOf(b, signal)
    requires Last(a, ReceivedView(signal)).None? && Last(a, TimeoutView(signal)).Some?
    ensures Last(b, ReceivedView(signal)).None? && Last(b, TimeoutView(signal)).Some?
  {}
}
