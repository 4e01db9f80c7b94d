/** How a run's log grows: by one cause at a time, each judged on the whole log before it. */
module Growth {
  import opened Events
  import opened EventLogs
  import opened Scans
  import opened Queries
  import opened Definitions
  import opened Engine
  import opened Protocol

  datatype Cause =
    | Begun(workflow: string, input: Json)
    | Replayed(env: Environment)
    | Expired(signal: string)
    | Delivery(signal: string, message: Json)
    | Cancellation(reason: string)

  predicate Open(ps: seq<Payload>) {
    ps != [] && !IsCancelled(ps) && !IsCompleted(ps)
  }

  predicate Settleable(ps: seq<Payload>, signal: string) {
    match SignalOf(ps, signal)
    case None => false
    case Some(state) => state.waiting && !state.received && !state.timeout
  }

  /** The payloads a cause appends to a log, if the log permits it. */
  function Grow(registry: Registry, run: string, log: seq<Event>, cause: Cause): Option<seq<Payload>> {
    var ps := Payloads(log);
    match cause
    case Begun(workflow, input) =>
      if log == [] && workflow in registry then Some([WorkflowStarted(workflow, registry[workflow].version, input)])
      else None
    case Expired(signal) => if Settleable(ps, signal) then Some([SignalTimeout(signal)]) else None
    case Delivery(signal, message) => if Settleable(ps, signal) then Some([SignalReceived(signal, message)]) else None
    case Cancellation(reason) => if Open(ps) then Some([WorkflowCancelled(reason)]) else None
    case Replayed(env) =>
      if !Open(ps) || NameOf(ps) !in registry then None
      else match Replay(ConfigOf(registry[NameOf(ps)], run, log), env)
        case None => None
        case Some(o) => Some(WorkBatch(o))
  }

  ghost predicate GrownBy(registry: Registry, run: string, a: seq<Event>, b: seq<Event>, cause: Cause) {
    && |a| <= |b| && b[..|a|] == a
    && Grow(registry, run, a, cause).Some?
    && Payloads(b) == Payloads(a) + Grow(registry, run, a, cause).value
  }

  ghost predicate Grown(registry: Registry, run: string, a: seq<Event>, b: seq<Event>) {
    a == b || exists cause :: GrownBy(registry, run, a, b, cause)
  }

  /** From `a` to `b` the log grew by `n` causes. */
  ghost predicate Chain(registry: Registry, run: string, a: seq<Event>, b: seq<Event>, n: nat)
    decreases n
  {
    if n == 0 then a == b
    else exists mid, cause :: Chain(registry, run, a, mid, n - 1) && GrownBy(registry, run, mid, b, cause)
  }

  // ---------------------------------------------------------------------------------------------
  // The state invariant

  ghost predicate Headed(ps: seq<Payload>) {
    ps != [] ==> ps[0].WorkflowStarted?
  }

  /** Snapshots are prefixes of the current logs, and workers know the right workflow. */
  ghost predicate OpFits(s: System, op: Op) {
    && op.log <= s.store.Of(op.run)
    && (op.Working? ==> op.log != [] && NameOf(Payloads(op.log)) == op.workflow)
  }

  ghost predicate JobFits(s: System, job: Job) {
    job.WorkflowJob? ==> s.store.Of(job.run) != [] && NameOf(Payloads(s.store.Of(job.run))) == job.workflow
  }

  ghost predicate Fits(s: System) {
    && (forall op :: op in s.inflight ==> OpFits(s, s.inflight[op]))
    && (forall j :: 0 <= j < |s.jobs| ==> JobFits(s, s.jobs[j]))
  }

  ghost predicate AllHeaded(store: Logs) {
    forall run :: Headed(Payloads(store.Of(run)))
  }

  ghost predicate Consistent(s: System) {
    Sound(s.store) && AllHeaded(s.store) && Fits(s)
  }

  /** From one store to the next every log of the run grows by at most one cause. */
  ghost predicate StoreGrown(registry: Registry, a: Logs, b: Logs) {
    forall run :: Grown(registry, run, a.Of(run), b.Of(run))
  }

  // ---------------------------------------------------------------------------------------------
  // Appending after a snapshot

  lemma SnapshotLength(store: Logs, run: string, log: seq<Event>)
    requires Gapless(store) && log <= store.Of(run)
    ensures LastSequence(log) == |log|
  {
    forall i | 0 <= i < |log| ensures log[i].sequence == i + 1 {
      assert log[i] == store.Of(run)[i];
    }
    LastSequenceIsLength(log);
  }

  /** One event after a snapshot is accepted only if the log still is the snapshot. */
  lemma SingleAppend(store: Logs, run: string, log: seq<Event>, p: Payload, id: string)
    requires Sound(store) && log <= store.Of(run)
    ensures var (r, t) := AppendAll(store, [Event(id, run, LastSequence(log) + 1, p)]);
            && Sound(t)
            && (r.Appended? ==> store.Of(run) == log && t.Of(run)[..|log|] == log)
            && (r.Appended? ==> Payloads(t.Of(run)) == Payloads(log) + [p])
            && (r.Appended? ==> forall other :: other != run ==> t.Of(other) == store.Of(other))
            && (!r.Appended? ==> t == store)
  {
    hide Sound, AppendInTurn, Gapless, LastSequence;
    SoundGapless(store);
    SnapshotLength(store, run, log);
    var es := [Event(id, run, LastSequence(log) + 1, p)];
    BatchKeepsSound(store, es);
    if AppendAll(store, es).0.Appended? {
      AcceptedMeansUnchanged(store, es, run, log);
      PayloadsAppend(log, es);
    }
  }

  lemma NoAppend(store: Logs)
    ensures AppendAll(store, []) == (Appended, store)
  {}

  /** The worker's transaction is accepted only if the log still is the snapshot it replayed. */
  lemma WorkAppend(store: Logs, o: ReplayOutput, run: string, log: seq<Event>, ids: nat -> string)
    requires Sound(store) && log <= store.Of(run) && AppendWork(store, o, run, LastSequence(log), ids).Some?
    ensures var t := AppendWork(store, o, run, LastSequence(log), ids).value;
            && Sound(t)
            && (WorkBatch(o) == [] ==> t == store)
            && (WorkBatch(o) != [] ==> store.Of(run) == log && t.Of(run)[..|log|] == log && |log| <= |t.Of(run)|
                                       && Payloads(t.Of(run)) == Payloads(log) + WorkBatch(o))
            && forall other :: other != run ==> t.Of(other) == store.Of(other)
  {
    hide Sound, AppendAll, Gapless;
    SoundGapless(store);
    SnapshotLength(store, run, log);
    var es := Number(o.emitted, run, LastSequence(log), ids);
    var t := AppendAll(store, es).1;
    BatchKeepsSound(store, es);
    if es == [] {
      NoAppend(store);
    } else {
      AcceptedMeansUnchanged(store, es, run, log);
      PayloadsAppend(log, es);
    }
    if o.result.ReplayFailed? {
      var last := Event(ids(|o.emitted|), run, LastSequence(log) + 1 + |o.emitted|, WorkflowFailed(o.result.error));
      BatchKeepsSound(t, [last]);
      var now := if es == [] then log else log + es;
      assert now <= t.Of(run);
      AcceptedMeansUnchanged(t, [last], run, now);
      PayloadsAppend(now, [last]);
      assert Payloads(now) == Payloads(log) + o.emitted;
      assert Payloads([last]) == [last.payload];
      assert Payloads(log) + o.emitted + [last.payload] == Payloads(log) + WorkBatch(o);
    }
  }

  lemma SoundGapless(store: Logs)
    requires Sound(store)
    ensures Gapless(store)
  {}

  // ---------------------------------------------------------------------------------------------
  // Every step of the protocol

  lemma GrownKeepsHead(registry: Registry, run: string, a: seq<Event>, b: seq<Event>)
    requires Grown(registry, run, a, b) && Headed(Payloads(a))
    ensures a <= b && Headed(Payloads(b))
    ensures a != [] ==> NameOf(Payloads(b)) == NameOf(Payloads(a))
  {
    hide Replay;
    if a != b {
      var cause :| GrownBy(registry, run, a, b, cause);
      assert a == [] ==> cause.Begun?;
    }
  }

  /** The next state: the store has grown, no snapshot is new, and new jobs know their run. */
  ghost predicate Follows(registry: Registry, s: System, t: System) {
    && Sound(t.store) && StoreGrown(registry, s.store, t.store)
    && (forall op :: op in t.inflight ==> op in s.inflight && t.inflight[op] == s.inflight[op])
    && |s.jobs| <= |t.jobs| && t.jobs[..|s.jobs|] == s.jobs
    && (forall j :: |s.jobs| <= j < |t.jobs| ==> JobFits(t, t.jobs[j]))
  }

  lemma FollowsKeeps(registry: Registry, s: System, t: System)
    requires Consistent(s) && Follows(registry, s, t)
    ensures Consistent(t)
  {
    hide Sound, Headed, NameOf, Grown;
    forall run
      ensures s.store.Of(run) <= t.store.Of(run) && Headed(Payloads(t.store.Of(run)))
      ensures s.store.Of(run) != [] ==> NameOf(Payloads(t.store.Of(run))) == NameOf(Payloads(s.store.Of(run)))
    {
      GrownKeepsHead(registry, run, s.store.Of(run), t.store.Of(run));
    }
    forall j | 0 <= j < |t.jobs| ensures JobFits(t, t.jobs[j]) {
      if j < |s.jobs| {
        assert t.jobs[j] == s.jobs[j];
        assert JobFits(s, s.jobs[j]);
      }
    }
    forall op | op in t.inflight ensures OpFits(t, t.inflight[op]) {
      assert OpFits(s, s.inflight[op]);
    }
  }

  lemma UnchangedGrown(registry: Registry, store: Logs)
    ensures StoreGrown(registry, store, store)
  {}

  /** A single event appended after a snapshot is a growth of the log by that cause. */
  lemma SingleGrows(registry: Registry, store: Logs, run: string, log: seq<Event>, p: Payload, id: string, cause: Cause)
    requires Sound(store) && log <= store.Of(run)
    requires Grow(registry, run, log, cause) == Some([p])
    ensures var t := AppendAll(store, [Event(id, run, LastSequence(log) + 1, p)]).1;
            Sound(t) && StoreGrown(registry, store, t)
    ensures var (r, t) := AppendAll(store, [Event(id, run, LastSequence(log) + 1, p)]);
            r.Appended? ==> store.Of(run) == log && Payloads(t.Of(run)) == Payloads(log) + [p]
  {
    hide Sound, AppendAll, Grow, LastSequence;
    SingleAppend(store, run, log, p, id);
    var (r, t) := AppendAll(store, [Event(id, run, LastSequence(log) + 1, p)]);
    if r.Appended? {
      assert GrownBy(registry, run, store.Of(run), t.Of(run), cause);
    }
    forall other ensures Grown(registry, other, store.Of(other), t.Of(other)) {}
  }

  lemma NameKept(ps: seq<Payload>, more: seq<Payload>)
    requires ps != [] && Headed(ps)
    ensures NameOf(ps + more) == NameOf(ps)
  {}

  lemma ResumeFollows(registry: Registry, s: System, run: string, log: seq<Event>, p: Payload, id: string, cause: Cause)
    requires Consistent(s) && log <= s.store.Of(run) && log != []
    requires Grow(registry, run, log, cause) == Some([p])
    requires AppendAndResume(s, run, log, p, id).Some?
    ensures Follows(registry, s, AppendAndResume(s, run, log, p, id).value)
  {
    hide Sound, AppendAll, Grow, LastSequence, NameOf, StoreGrown, Fits;
    SingleGrows(registry, s.store, run, log, p, id, cause);
    NameKept(Payloads(log), [p]);
    assert Headed(Payloads(s.store.Of(run)));
  }

  /** Inserting jobs changes nothing else. */
  ghost predicate OnlyInserts(s: System, t: System) {
    && t.store == s.store && t.inflight == s.inflight
    && |s.jobs| <= |t.jobs| && t.jobs[..|s.jobs|] == s.jobs
    && s.pending <= t.pending
    && (forall j :: |s.jobs| <= j < |t.jobs| ==> j in t.pending)
    && (forall j :: j in t.pending ==> j in s.pending || |s.jobs| <= j < |t.jobs|)
  }

  lemma {:induction false} TimeoutsInserted(s: System, run: string, waiting: seq<WaitingSignal>)
    ensures var t := InsertTimeouts(s, run, waiting);
            && OnlyInserts(s, t) && |t.jobs| == |s.jobs| + |waiting|
            && (forall i :: 0 <= i < |waiting| ==> t.jobs[|s.jobs| + i] == TimeoutJob(run, waiting[i].signal))
  {
    if waiting == [] {
      assert s.jobs[..|s.jobs|] == s.jobs;
    } else {
      var n := |waiting| - 1;
      TimeoutsInserted(s, run, waiting[..n]);
      var u, t := InsertTimeouts(s, run, waiting[..n]), InsertTimeouts(s, run, waiting);
      assert t.jobs == u.jobs + [TimeoutJob(run, waiting[n].signal)] && t.pending == u.pending + {|u.jobs|};
      assert t.jobs[..|s.jobs|] == u.jobs[..|s.jobs|];
      forall i | 0 <= i < |waiting| ensures t.jobs[|s.jobs| + i] == TimeoutJob(run, waiting[i].signal) {
        if i < n {
          assert u.jobs[|s.jobs| + i] == TimeoutJob(run, waiting[..n][i].signal);
        }
      }
    }
  }

  lemma NextInserted(s: System, op: Op, o: ReplayOutput)
    requires op.Working?
    ensures OnlyInserts(s, InsertNext(s, op, o))
    ensures forall j :: |s.jobs| <= j < |InsertNext(s, op, o).jobs| ==>
              var job := InsertNext(s, op, o).jobs[j];
              job.run == op.run && (job.WorkflowJob? ==> job.workflow == op.workflow)
  {
    TimeoutsInserted(s, op.run, o.waitingFor);
    if o.result.ReplayWaiting? {
      var t := InsertNext(s, op, o);
      forall j | |s.jobs| <= j < |t.jobs| ensures t.jobs[j].run == op.run && t.jobs[j].TimeoutJob? {
        assert t.jobs[|s.jobs| + (j - |s.jobs|)] == TimeoutJob(op.run, o.waitingFor[j - |s.jobs|].signal);
      }
    }
  }

  /** What the worker's transaction does to the store is a growth by its replay. */
  lemma WorkGrows(registry: Registry, store: Logs, op: Op, env: Environment, ids: nat -> string)
    requires Sound(store) && op.Working? && op.log <= store.Of(op.run)
    requires Open(Payloads(op.log)) && NameOf(Payloads(op.log)) == op.workflow && op.workflow in registry
    requires Replay(ConfigOf(registry[op.workflow], op.run, op.log), env).Some?
    ensures var o := Replay(ConfigOf(registry[op.workflow], op.run, op.log), env).value;
            var t := AppendWork(store, o, op.run, LastSequence(op.log), ids);
            t.Some? ==> Sound(t.value) && StoreGrown(registry, store, t.value)
  {
    hide Sound, Replay, LastSequence, AppendWork, NameOf, Open;
    var o := Replay(ConfigOf(registry[op.workflow], op.run, op.log), env).value;
    var t := AppendWork(store, o, op.run, LastSequence(op.log), ids);
    if t.Some? {
      WorkAppend(store, o, op.run, op.log, ids);
      if WorkBatch(o) != [] {
        assert GrownBy(registry, op.run, op.log, t.value.Of(op.run), Replayed(env));
      }
      forall run ensures Grown(registry, run, store.Of(run), t.value.Of(run)) {}
    }
  }

  lemma WorkFollows(registry: Registry, s: System, op: Op, env: Environment, ids: nat -> string)
    requires Consistent(s) && op.Working? && OpFits(s, op)
    ensures Follows(registry, s, CommitWork(registry, s, op, env, ids))
  {
    hide Sound, Replay, LastSequence, AppendWork, Fits, AllHeaded, StoreGrown, NameOf, InsertNext;
    var past := Payloads(op.log);
    var t := CommitWork(registry, s, op, env, ids);
    UnchangedGrown(registry, s.store);
    if Open(past) && op.workflow in registry && Replay(ConfigOf(registry[op.workflow], op.run, op.log), env).Some? {
      var o := Replay(ConfigOf(registry[op.workflow], op.run, op.log), env).value;
      var store := AppendWork(s.store, o, op.run, LastSequence(op.log), ids);
      if store.Some? {
        WorkGrows(registry, s.store, op, env, ids);
        NextInserted(Finish(s.(store := store.value), op.job), op, o);
        NamesKept(registry, s, store.value, op.run, op.log);
      }
    }
  }

  lemma NamesKept(registry: Registry, s: System, store: Logs, run: string, log: seq<Event>)
    requires Consistent(s) && StoreGrown(registry, s.store, store) && log <= s.store.Of(run) && log != []
    ensures store.Of(run) != [] && NameOf(Payloads(store.Of(run))) == NameOf(Payloads(log))
  {
    hide Sound, Grown;
    assert Headed(Payloads(s.store.Of(run)));
    GrownKeepsHead(registry, run, s.store.Of(run), store.Of(run));
  }

  lemma SettleableStarts(log: seq<Event>, signal: string)
    ensures SignalOf(Payloads(log), signal).Some? ==> log != []
  {}

  /** An operation's commit, whatever it is. */
  lemma CommitFollows(registry: Registry, s: System, op: Op, env: Environment, ids: nat -> string)
    requires Consistent(s) && OpFits(s, op)
    ensures Follows(registry, s, CommitOp(registry, s, op, env, ids))
  {
    hide Sound, AppendWork, Fits, AllHeaded, StoreGrown, NameOf, CommitWork, AppendAndResume, LastSequence, AppendAll;
    UnchangedGrown(registry, s.store);
    match op
    case Working(_, _, _, _) => WorkFollows(registry, s, op, env, ids);
    case TimingOut(_, run, signal, log) =>
      SettleableStarts(log, signal);
      if Settleable(Payloads(log), signal) && AppendAndResume(s, run, log, SignalTimeout(signal), ids(0)).Some? {
        ResumeFollows(registry, s, run, log, SignalTimeout(signal), ids(0), Expired(signal));
      } else {
        NeverBlank(Payloads(log), signal);
      }
    case Signalling(run, signal, message, log) =>
      if Judge(op).Accepted? && AppendAndResume(s, run, log, SignalReceived(signal, message), ids(0)).Some? {
        ResumeFollows(registry, s, run, log, SignalReceived(signal, message), ids(0), Delivery(signal, message));
      }
    case Cancelling(run, reason, log) =>
      if Judge(op).Accepted? {
        SingleGrows(registry, s.store, run, log, WorkflowCancelled(reason), ids(0), Cancellation(reason));
      }
  }

  /** A signal state in which nothing was received and nothing timed out is a waiting one. */
  lemma NeverBlank(ps: seq<Payload>, signal: string)
    ensures var state := SignalOf(ps, signal);
            state.Some? && !state.value.received && !state.value.timeout ==> state.value.waiting
  {}

  /** Every action keeps the state consistent and grows each log by at most one cause. */
  lemma ActGrows(registry: Registry, s: System, a: Action)
    requires Consistent(s)
    ensures Consistent(Act(registry, s, a))
    ensures StoreGrown(registry, s.store, Act(registry, s, a).store)
  {
    hide Sound, AllHeaded, StoreGrown, NameOf, CommitOp, LastSequence, AppendAll, OpFits, JobFits;
    var t := Act(registry, s, a);
    UnchangedGrown(registry, s.store);
    match a
    case StartWorkflow(run, workflow, input, id) => StartFollows(registry, s, a);
    case Commit(op, env, ids) =>
      if op in s.inflight {
        var u := s.(inflight := s.inflight - {op});
        assert Consistent(u) by { SameStoreFits(s, u); }
        SameOpFits(s, u, s.inflight[op]);
        CommitFollows(registry, u, s.inflight[op], env, ids);
        FollowsKeeps(registry, u, t);
      }
    case _ =>
      SameStoreFits(s, t.(inflight := map[]));
      LoadFits(registry, s, a);
  }

  lemma SameOpFits(s: System, t: System, op: Op)
    requires s.store == t.store && OpFits(s, op)
    ensures OpFits(t, op)
  {}

  lemma SameStoreFits(s: System, t: System)
    requires Consistent(s) && t.store == s.store && t.jobs == s.jobs
    requires forall op :: op in t.inflight ==> op in s.inflight && t.inflight[op] == s.inflight[op]
    ensures Consistent(t)
  {
    hide Sound, AllHeaded, NameOf;
    forall j | 0 <= j < |t.jobs| ensures JobFits(t, t.jobs[j]) { assert JobFits(s, s.jobs[j]); }
    forall op | op in t.inflight ensures OpFits(t, t.inflight[op]) { assert OpFits(s, s.inflight[op]); }
  }

  lemma LoadFits(registry: Registry, s: System, a: Action)
    requires Consistent(s) && !a.StartWorkflow? && !a.Commit?
    ensures Consistent(Act(registry, s, a)) && Act(registry, s, a).store == s.store
  {
    hide Sound, AllHeaded, NameOf;
    var t := Act(registry, s, a);
    forall j | 0 <= j < |t.jobs| ensures JobFits(t, t.jobs[j]) { assert JobFits(s, s.jobs[j]); }
    forall op | op in t.inflight ensures OpFits(t, t.inflight[op]) {
      if op in s.inflight {
        assert OpFits(s, s.inflight[op]);
      } else if a.Fetch? {
        assert JobFits(s, s.jobs[a.job]);
      }
    }
  }

  lemma StartFollows(registry: Registry, s: System, a: Action)
    requires Consistent(s) && a.StartWorkflow?
    ensures Consistent(Act(registry, s, a)) && StoreGrown(registry, s.store, Act(registry, s, a).store)
  {
    hide Sound, AllHeaded, StoreGrown, AppendAll, Fits;
    var StartWorkflow(run, workflow, input, id) := a;
    var t := Act(registry, s, a);
    UnchangedGrown(registry, s.store);
    if workflow in registry {
      var p := WorkflowStarted(workflow, registry[workflow].version, input);
      SingleGrows(registry, s.store, run, [], p, id, Begun(workflow, input));
      if AppendAll(s.store, [Event(id, run, 1, p)]).0.Appended? {
        assert Payloads([]) + [p] == [p];
        assert NameOf([p]) == workflow;
        FollowsKeeps(registry, s, t);
      }
    }
  }
}
