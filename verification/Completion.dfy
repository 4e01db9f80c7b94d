/** The numbering contract between engine and store, and what runs of deterministic workflows record. */
module Completion {
  import opened Events
  import opened EventLogs
  import opened Scans
  import opened Queries
  import opened Definitions
  import opened Engine
  import opened Executions
  import opened Replays
  import opened Decisions
  import opened Meaning
  import opened Agreement
  import opened Protocol
  import opened Growth
  import opened Safety
  import opened Wakeups

  // ---------------------------------------------------------------------------------------------
  // Numbering

  /** Event IDs that are new to the store and differ from each other. */
  ghost predicate FreshFor(store: Logs, ids: nat -> string, count: nat) {
    && (forall i: nat :: i < count ==> ids(i) !in store.ids)
    && (forall i: nat, j: nat :: i < j < count ==> ids(i) != ids(j))
  }

  /** A numbered batch with fresh IDs is accepted after the current log, and extends just that. */
  lemma NumberedIsAccepted(store: Logs, es: seq<Event>, run: string)
    requires Sound(store) && Numbered(es, run, |store.Of(run)|)
    requires forall i :: 0 <= i < |es| ==> es[i].id !in store.ids
    requires forall i, j :: 0 <= i < j < |es| ==> es[i].id != es[j].id
    ensures var (r, t) := AppendAll(store, es);
            r.Appended? && Sound(t) && t.Of(run) == store.Of(run) + es && t.ids == store.ids + Ids(es)
  {
    hide Sound, AppendInTurn;
    UnchangedIsAccepted(store, es, run);
    BatchKeepsSound(store, es);
    AppendedGrows(store, es, run);
    OfRunSingle(es, run, run);
  }

  /**
    The numbering contract. On a log that has not changed since it was loaded, the replay's events
    and then workflow.failed at the replay's next sequence number are accepted, whatever the replay
    emitted, and the store stays sound: its logs gapless, its IDs unique.
  */
  lemma FreshWorkIsAccepted(store: Logs, o: ReplayOutput, run: string, ids: nat -> string)
    requires Sound(store) && FreshFor(store, ids, |o.emitted| + 1)
    ensures var t := AppendWork(store, o, run, LastSequence(store.Of(run)), ids);
            t.Some? && Sound(t.value) && Payloads(t.value.Of(run)) == Payloads(store.Of(run)) + WorkBatch(o)
  {
    hide Sound, AppendAll, LastSequence;
    var log := store.Of(run);
    SoundGapless(store);
    SnapshotLength(store, run, log);
    var es := Number(o.emitted, run, |log|, ids);
    NumberedIsAccepted(store, es, run);
    PayloadsAppend(log, es);
    var t := AppendAll(store, es).1;
    if o.result.ReplayFailed? {
      var last := Event(ids(|o.emitted|), run, |log| + 1 + |o.emitted|, WorkflowFailed(o.result.error));
      assert ids(|o.emitted|) !in Ids(es);
      NumberedIsAccepted(t, [last], run);
      PayloadsAppend(log + es, [last]);
      assert Payloads([last]) == [last.payload];
      assert Payloads(log) + o.emitted + [last.payload] == Payloads(log) + WorkBatch(o);
    }
  }

  // ---------------------------------------------------------------------------------------------
  // Outputs over whole runs

  lemma NotDirect(c: Config, p: Payload)
    ensures p.WorkflowStarted? ==> !IsDirect(c, p)
  {}

  lemma InputStays(registry: Registry, run: string, a: seq<Event>, b: seq<Event>, cause: Cause)
    requires GrownBy(registry, run, a, b, cause) && InputOf(Payloads(a)).Some?
    ensures InputOf(Payloads(b)) == InputOf(Payloads(a))
  {
    hide Replay, SignalOf, IsCancelled, IsCompleted, IsDirect, WorkBatch, NameOf;
    var ps, added := Payloads(a), Grow(registry, run, a, cause).value;
    LastAppend(ps, added, InputView());
    forall p | p in added ensures InputView()(p).None? {
      if cause.Replayed? {
        ReplayedKinds(registry, run, a, cause.env, p);
        NotDirect(ConfigOf(registry[NameOf(ps)], run, a), p);
      }
    }
    LastNone(added, InputView());
  }

  lemma HeadHasInput(ps: seq<Payload>)
    requires ps != [] && Headed(ps)
    ensures InputOf(ps).Some?
  {
    LastNone(ps, InputView());
    assert ps[0] in ps && InputView()(ps[0]).Some?;
  }

  lemma AgreeingEventsAgreeingLog(ps: seq<Payload>, names: set<string>, m: map<string, Json>)
    requires EventsAgree(ps, m)
    ensures LogAgrees(ps, names, m)
  {
    forall d | d in names && OutputOf(ps, d).Some? ensures OutputOf(ps, d) == Lookup(m, d) {
      var i := LastAt(ps, OutputView(d));
      assert ps[i] in ps;
    }
  }

  /** The run's workflow is deterministic, with evaluation `m` on the input the run was started with. */
  ghost predicate RunsDeterministically(registry: Registry, log: seq<Event>, n: nat, m: map<string, Json>) {
    var ps := Payloads(log);
    log != [] ==> NameOf(ps) in registry && InputOf(ps).Some? && Deterministic(registry[NameOf(ps)], InputOf(ps).value,
        n, m)
  }

  lemma AgreeingStep(registry: Registry, run: string, a: seq<Event>, b: seq<Event>, cause: Cause, n: nat,
      m: map<string, Json>)
    requires GrownBy(registry, run, a, b, cause) && EventsAgree(Payloads(a), m) &&
             RunsDeterministically(registry, a, n, m)
    ensures EventsAgree(Payloads(b), m)
  {
    hide Replay, Deterministic;
    var ps, added := Payloads(a), Grow(registry, run, a, cause).value;
    if cause.Replayed? {
      var c := ConfigOf(registry[NameOf(ps)], run, a);
      AgreeingEventsAgreeingLog(ps, Names(c.def.steps), m);
      ReplayAgrees(c, cause.env, n, m);
    }
  }

  lemma {:induction false} ChainAgrees(registry: Registry, run: string, log: seq<Event>, steps: nat, n: nat,
      m: map<string, Json>)
    requires Chain(registry, run, [], log, steps) && RunsDeterministically(registry, log, n, m)
    ensures EventsAgree(Payloads(log), m)
    decreases steps
  {
    hide GrownBy, Deterministic, NameOf, InputOf, EventsAgree;
    if steps == 0 {
      assert EventsAgree([], m) by { NothingDisagrees(m); }
    } else {
      var mid, cause :| Chain(registry, run, [], mid, steps - 1) && GrownBy(registry, run, mid, log, cause);
      ChainKeepsHead(registry, run, [], mid, steps - 1);
      assert Grown(registry, run, mid, log);
      GrownKeepsHead(registry, run, mid, log);
      if mid != [] {
        HeadHasInput(Payloads(mid));
        InputStays(registry, run, mid, log, cause);
      }
      ChainAgrees(registry, run, mid, steps - 1, n, m);
      AgreeingStep(registry, run, mid, log, cause, n, m);
    }
  }

  lemma NothingDisagrees(m: map<string, Json>)
    ensures EventsAgree([], m)
  {}

  /**
    Over every run of the protocol, with any crashes, redeliveries and interleavings, a deterministic
    workflow records only the outputs that sequential evaluation of its steps gives.
  */
  lemma RunsRecordTheEvaluation(registry: Registry, actions: seq<Action>, run: string, n: nat, m: map<string, Json>)
    requires RunsDeterministically(registry, After(registry, actions).store.Of(run), n, m)
    ensures EventsAgree(Payloads(After(registry, actions).store.Of(run)), m)
  {
    var steps := LogsAreChains(registry, actions, run);
    ChainAgrees(registry, run, After(registry, actions).store.Of(run), steps, n, m);
  }

  // ---------------------------------------------------------------------------------------------
  // Any pending job finishes its run

  lemma {:induction false} NoFatalSteps(c: Config, steps: seq<Step>, m: map<string, Json>)
    requires EventsAgree(c.Past(), m) && forall s :: s in steps ==> s.name in m
    ensures FirstFatal(c, steps).None?
  {
    if steps != [] {
      NoFatalSteps(c, steps[1..], m);
      assert steps[0] in steps;
      LastNone(c.Past(), FatalView(steps[0].name));
    }
  }

  /** Every named step has its output, that of the evaluation, in the log. */
  ghost predicate AllRecorded(ps: seq<Payload>, def: Definition, m: map<string, Json>) {
    forall s :: s in def.steps && s.name != "" ==> s.name in m && OutputOf(ps, s.name) == Some(m[s.name])
  }

  lemma RecordedStays(ps: seq<Payload>, added: seq<Payload>, s: Step, m: map<string, Json>)
    requires EventsAgree(ps, m) && EventsAgree(added, m) && s.name != "" && s.Plain?
    requires OutputOf(ps, s.name).Some? || RanWell(s, NodeEvents(s, added))
    ensures s.name in m && OutputOf(ps + added, s.name) == Some(m[s.name])
  {
    LastAppend(ps, added, OutputView(s.name));
    LastNone(added, OutputView(s.name));
    if RanWell(s, NodeEvents(s, added)) {
      var output :| Execution(s, NodeEvents(s, added), Succeeded(output));
      var choice, k :| EndedAt(s, choice, NodeEvents(s, added), Succeeded(output), k);
      var p := NodeEvents(s, added)[2 * k + 1];
      FilterMember(OfNode(s.name), added, p);
      assert p in NodeEvents(s, added) && OutputView(s.name)(p).Some?;
    }
    if OutputOf(added, s.name).Some? {
      var i := LastAt(added, OutputView(s.name));
      assert added[i] in added;
    } else {
      var i := LastAt(ps, OutputView(s.name));
      assert ps[i] in ps;
    }
  }

  lemma CompletingReplay(c: Config, env: Environment, n: nat, m: map<string, Json>)
    requires Deterministic(c.def, c.input, n, m) && Total(c.def, m) && Fair(env, |c.def.steps|, n)
    requires EventsAgree(c.Past(), m) && Open(c.Past())
    ensures Replay(c, env).Some? && Replay(c, env).value.result.ReplayCompleted?
    ensures var o := Replay(c, env).value;
            WorkBatch(o) == o.emitted && IsCompleted(c.Past() + o.emitted) &&
                AllRecorded(c.Past() + o.emitted, c.def, m)
  {
    hide Replay, Deterministic, Fair, FirstFatal;
    NoFatalSteps(c, c.def.steps, m);
    AgreeingEventsAgreeingLog(c.Past(), Names(c.def.steps), m);
    ParallelEqualsSequential(c, env, n, m);
    ReplayAgrees(c, env, n, m);
    ReplayKinds(c, env);
    var o := Replay(c, env).value;
    LastNone(c.Past() + o.emitted, CompletedView());
    assert CompletedView()(o.emitted[|o.emitted| - 1]).Some?;
    forall s | s in c.def.steps && s.name != ""
      ensures s.name in m && OutputOf(c.Past() + o.emitted, s.name) == Some(m[s.name])
    {
      assert s.Plain? by { StepIsPlain(c, n, m, s); }
      assert StepHasOutput(c, o, s, m);
      RecordedStays(c.Past(), o.emitted, s, m);
    }
  }

  lemma StepIsPlain(c: Config, n: nat, m: map<string, Json>, s: Step)
    requires Deterministic(c.def, c.input, n, m) && s in c.def.steps
    ensures s.Plain?
  {
    PureIsPlain(c.def, s);
  }

  /**
    In every reachable state, any pending workflow job of a live run of a total deterministic workflow,
    fetched and committed without a conflict, completes the run with every step's output recorded.
  */
  lemma PendingJobCompletesRun(registry: Registry, actions: seq<Action>, job: nat, op: nat, env: Environment,
                               ids: nat -> string, n: nat, m: map<string, Json>)
    requires var s := After(registry, actions);
             && job in s.pending && job < |s.jobs| && s.jobs[job].WorkflowJob? && op !in s.inflight
             && var ps := Payloads(s.store.Of(s.jobs[job].run));
             && Live(ps) && s.jobs[job].workflow in registry && InputOf(ps).Some?
             && var def := registry[s.jobs[job].workflow];
             && Deterministic(def, InputOf(ps).value, n, m) && Total(def, m) && Fair(env, |def.steps|, n)
             && forall count: nat :: FreshFor(s.store, ids, count)
    ensures var s := After(registry, actions);
            var t := After(registry, actions + [Fetch(op, job), Commit(op, env, ids)]);
            var ps := Payloads(t.store.Of(s.jobs[job].run));
            IsCompleted(ps) && AllRecorded(ps, registry[s.jobs[job].workflow], m)
  {
    hide Deterministic, Total, Fair, FreshFor, AllRecorded, EventsAgree, AppendWork, Replay, Consistent;
    var s := After(registry, actions);
    var WorkflowJob(run, workflow) := s.jobs[job];
    var log := s.store.Of(run);
    RunsAreConsistent(registry, actions);
    assert NameOf(Payloads(log)) == workflow && log != [] && Sound(s.store) by { JobKnowsRun(s, job); }
    RunsRecordTheEvaluation(registry, actions, run, n, m);
    var c := ConfigOf(registry[workflow], run, log);
    CompletingReplay(c, env, n, m);
    var o := Replay(c, env).value;
    FreshWorkIsAccepted(s.store, o, run, ids);
    TwoMore(registry, actions, Fetch(op, job), Commit(op, env, ids));
    var u := Act(registry, s, Fetch(op, job));
    assert u == s.(inflight := s.inflight[op := Working(job, run, workflow, log)]);
    assert u.(inflight := u.inflight - {op}).store == s.store;
  }

  lemma JobKnowsRun(s: System, job: nat)
    requires Consistent(s) && job < |s.jobs| && s.jobs[job].WorkflowJob?
    ensures Sound(s.store) && s.store.Of(s.jobs[job].run) != []
    ensures NameOf(Payloads(s.store.Of(s.jobs[job].run))) == s.jobs[job].workflow
  {
    assert JobFits(s, s.jobs[job]);
  }

  lemma TwoMore(registry: Registry, actions: seq<Action>, a: Action, b: Action)
    ensures After(registry, actions + [a, b]) == Act(registry, Act(registry, After(registry, actions), a), b)
  {
    hide Act;
    assert (actions + [a, b])[..|actions| + 1] == actions + [a];
    assert (actions + [a])[..|actions|] == actions;
  }
}
