/** Safety over every run of the protocol, whatever the interleaving of loads, commits, crashes and redeliveries. */
module Safety {
  import opened Events
  import opened EventLogs
  import opened Scans
  import opened Queries
  import opened Definitions
  import opened Engine
  import opened Executions
  import opened Replays
  import opened Decisions
  import opened Signals
  import opened Settling
  import opened Protocol
  import opened Growth

  // ---------------------------------------------------------------------------------------------
  // Runs

  /** In every reachable state the store is sound and every snapshot in flight is a prefix of its log. */
  lemma {:induction false} RunsAreConsistent(registry: Registry, actions: seq<Action>)
    ensures Consistent(After(registry, actions))
  {
    hide Act, Consistent;
    if actions == [] {
      InitiallyConsistent();
    } else {
      RunsAreConsistent(registry, actions[..|actions| - 1]);
      ActGrows(registry, After(registry, actions[..|actions| - 1]), actions[|actions| - 1]);
    }
  }

  lemma InitiallyConsistent()
    ensures Consistent(INITIAL)
  {}

  /** However the protocol runs on, a log only grows, one cause at a time. */
  lemma {:induction false} LogsGrow(registry: Registry, actions: seq<Action>, more: seq<Action>,
      run: string) returns (n: nat)
    ensures Chain(registry, run, After(registry, actions).store.Of(run), After(registry, actions + more).store.Of(run),
            n)
  {
    hide Act, Consistent, GrownBy;
    if more == [] {
      assert actions + more == actions;
      n := 0;
    } else {
      var init := more[..|more| - 1];
      var m := LogsGrow(registry, actions, init, run);
      assert (actions + more)[..|actions + more| - 1] == actions + init;
      var s, a := After(registry, actions + init), more[|more| - 1];
      RunsAreConsistent(registry, actions + init);
      ActGrows(registry, s, a);
      assert Grown(registry, run, s.store.Of(run), Act(registry, s, a).store.Of(run));
      n := if s.store.Of(run) == Act(registry, s, a).store.Of(run) then m else m + 1;
    }
  }

  lemma LogsAreChains(registry: Registry, actions: seq<Action>, run: string) returns (n: nat)
    ensures Chain(registry, run, [], After(registry, actions).store.Of(run), n)
  {
    n := LogsGrow(registry, [], actions, run);
    assert [] + actions == actions;
  }

  lemma {:induction false} ChainKeepsHead(registry: Registry, run: string, a: seq<Event>, b: seq<Event>, n: nat)
    requires Chain(registry, run, a, b, n) && Headed(Payloads(a))
    ensures a <= b && Headed(Payloads(b)) && (a != [] ==> NameOf(Payloads(b)) == NameOf(Payloads(a)))
    decreases n
  {
    hide GrownBy, NameOf;
    if n > 0 {
      var mid, cause :| Chain(registry, run, a, mid, n - 1) && GrownBy(registry, run, mid, b, cause);
      ChainKeepsHead(registry, run, a, mid, n - 1);
      GrownKeepsHead(registry, run, mid, b);
    }
  }

  /** The events a replay contributes: allowed kinds, then at most one closing event. */
  lemma ReplayedKinds(registry: Registry, run: string, log: seq<Event>, env: Environment, p: Payload)
    requires Grow(registry, run, log, Replayed(env)).Some? && p in Grow(registry, run, log, Replayed(env)).value
    ensures var c := ConfigOf(registry[NameOf(Payloads(log))], run, log);
            Allowed(c, p) || p.WorkflowCompleted? || p.WorkflowFailed?
  {
    hide Replay, Allowed;
    var c := ConfigOf(registry[NameOf(Payloads(log))], run, log);
    var o := Replay(c, env).value;
    ReplayKinds(c, env);
    if o.result.ReplayCompleted? {
      assert o.emitted == o.emitted[..|o.emitted| - 1] + [o.emitted[|o.emitted| - 1]];
    }
  }

  // ---------------------------------------------------------------------------------------------
  // Terminal events

  function IsTerminal(): Payload -> bool {
    (p: Payload) => p.WorkflowCompleted? || p.WorkflowCancelled?
  }

  lemma ClosedIffTerminal(ps: seq<Payload>)
    ensures Count(IsTerminal(), ps) > 0 <==> IsCompleted(ps) || IsCancelled(ps)
  {
    FilterNone(IsTerminal(), ps);
    LastNone(ps, CompletedView());
    LastNone(ps, CancelledView());
    forall p ensures IsTerminal()(p) <==> CompletedView()(p).Some? || CancelledView()(p).Some? {}
  }

  lemma ReplayTerminal(c: Config, env: Environment)
    requires Replay(c, env).Some? && !IsCompleted(c.Past())
    ensures Count(IsTerminal(), WorkBatch(Replay(c, env).value)) <= 1
  {
    hide Replay;
    ReplayKinds(c, env);
    var o := Replay(c, env).value;
    if o.result.ReplayCompleted? {
      var init, last := o.emitted[..|o.emitted| - 1], o.emitted[|o.emitted| - 1];
      assert o.emitted == init + [last];
      forall p | p in init ensures !IsTerminal()(p) { assert Allowed(c, p); }
      FilterNone(IsTerminal(), init);
      FilterPush(IsTerminal(), init, last);
      assert WorkBatch(o) == o.emitted;
    } else {
      forall p | p in WorkBatch(o) ensures !IsTerminal()(p) {
        assert p in o.emitted ==> Allowed(c, p);
      }
      FilterNone(IsTerminal(), WorkBatch(o));
    }
  }

  lemma TerminalStep(registry: Registry, run: string, a: seq<Event>, b: seq<Event>, cause: Cause)
    requires GrownBy(registry, run, a, b, cause) && Count(IsTerminal(), Payloads(a)) <= 1
    ensures Count(IsTerminal(), Payloads(b)) <= 1
  {
    hide Replay, Count, WorkBatch;
    var ps, added := Payloads(a), Grow(registry, run, a, cause).value;
    CountAppend(IsTerminal(), ps, added);
    ClosedIffTerminal(ps);
    match cause
    case Replayed(env) => ReplayTerminal(ConfigOf(registry[NameOf(ps)], run, a), env);
    case _ => CountOne(IsTerminal(), added[0]);
  }

  lemma CountAppend(keep: Payload -> bool, a: seq<Payload>, b: seq<Payload>)
    ensures Count(keep, a + b) == Count(keep, a) + Count(keep, b)
  {
    FilterAppend(keep, a, b);
  }

  lemma CountOne(keep: Payload -> bool, p: Payload)
    ensures Count(keep, [p]) == if keep(p) then 1 else 0
  {
    FilterPush(keep, [], p);
    assert [] + [p] == [p];
  }

  lemma {:induction false} ChainTerminal(registry: Registry, run: string, log: seq<Event>, n: nat)
    requires Chain(registry, run, [], log, n)
    ensures Count(IsTerminal(), Payloads(log)) <= 1
    decreases n
  {
    hide GrownBy;
    if n > 0 {
      var mid, cause :| Chain(registry, run, [], mid, n - 1) && GrownBy(registry, run, mid, log, cause);
      ChainTerminal(registry, run, mid, n - 1);
      TerminalStep(registry, run, mid, log, cause);
    }
  }

  /** In every reachable state a run's log holds at most one workflow.completed or workflow.cancelled. */
  lemma TerminalAtMostOnce(registry: Registry, actions: seq<Action>, run: string)
    ensures Count(IsTerminal(), Payloads(After(registry, actions).store.Of(run))) <= 1
  {
    var n := LogsAreChains(registry, actions, run);
    ChainTerminal(registry, run, After(registry, actions).store.Of(run), n);
  }

  // ---------------------------------------------------------------------------------------------
  // Signals

  predicate Settles(p: Payload, signal: string) {
    (p.SignalReceived? || p.SignalTimeout?) && p.signal == signal
  }

  predicate Mentions(p: Payload, signal: string) {
    Settles(p, signal) || (p.SignalWaiting? && p.signal == signal)
  }

  /** What settles a signal comes after a wait for it and is the last word on it. */
  ghost predicate SettledOnce(ps: seq<Payload>, signal: string) {
    forall k :: 0 <= k < |ps| && Settles(ps[k], signal) ==>
      && (exists j :: 0 <= j < k && ps[j].SignalWaiting? && ps[j].signal == signal)
      && (forall j :: k < j < |ps| ==> !Mentions(ps[j], signal))
  }

  lemma SignalUnseen(ps: seq<Payload>, signal: string)
    ensures SignalOf(ps, signal).None? <==> forall p :: p in ps ==> !Mentions(p, signal)
    ensures SignalOf(ps, signal).Some? && !SignalOf(ps, signal).value.received &&
            !SignalOf(ps, signal).value.timeout ==>
              forall p :: p in ps ==> !Settles(p, signal)
    ensures SignalOf(ps, signal).Some? && SignalOf(ps, signal).value.waiting ==>
              exists j :: 0 <= j < |ps| && ps[j].SignalWaiting? && ps[j].signal == signal
  {
    LastNone(ps, WaitingView(signal));
    LastNone(ps, ReceivedView(signal));
    LastNone(ps, TimeoutView(signal));
    forall p ensures (WaitingView(signal)(p).Some? <==> p.SignalWaiting? && p.signal == signal)
    ensures (ReceivedView(signal)(p).Some? <==> p.SignalReceived? && p.signal == signal)
    ensures (TimeoutView(signal)(p).Some? <==> p.SignalTimeout? && p.signal == signal) {}
    if Last(ps, WaitingView(signal)).Some? {
      var j := LastAt(ps, WaitingView(signal));
    }
  }

  /** A log on which a signal is settled gets no more events about it; any other gets at most one that settles it. */
  lemma SignalStep(registry: Registry, run: string, a: seq<Event>, b: seq<Event>, cause: Cause, signal: string)
    requires GrownBy(registry, run, a, b, cause)
    ensures var ps, added := Payloads(a), Grow(registry, run, a, cause).value;
            && ((exists p :: p in ps && Settles(p, signal)) ==> forall p :: p in added ==> !Mentions(p, signal))
            && ((exists p :: p in added && Settles(p, signal)) ==> |added| == 1 && Settleable(ps, signal))
  {
    hide Replay, SignalOf;
    var ps, added := Payloads(a), Grow(registry, run, a, cause).value;
    SignalUnseen(ps, signal);
    if cause.Replayed? {
      forall p | p in added ensures !Settles(p, signal) && (Mentions(p, signal) ==> SignalOf(ps, signal).None?) {
        ReplayedKinds(registry, run, a, cause.env, p);
      }
    }
  }

  lemma SettledOnceStep(registry: Registry, run: string, a: seq<Event>, b: seq<Event>, cause: Cause, signal: string)
    requires GrownBy(registry, run, a, b, cause) && SettledOnce(Payloads(a), signal)
    ensures SettledOnce(Payloads(b), signal)
  {
    hide Replay, Grow, SignalOf;
    var ps, qs, added := Payloads(a), Payloads(b), Grow(registry, run, a, cause).value;
    SignalStep(registry, run, a, b, cause, signal);
    SignalUnseen(ps, signal);
    assert forall j :: 0 <= j < |ps| ==> qs[j] == ps[j];
    assert forall j :: |ps| <= j < |qs| ==> qs[j] == added[j - |ps|];
    forall k | 0 <= k < |qs| && Settles(qs[k], signal)
      ensures exists j :: 0 <= j < k && qs[j].SignalWaiting? && qs[j].signal == signal
      ensures forall j :: k < j < |qs| ==> !Mentions(qs[j], signal)
    {
      if k < |ps| {
        assert ps[k] in ps;
        var j :| 0 <= j < k && ps[j].SignalWaiting? && ps[j].signal == signal;
        assert qs[j] == ps[j];
      } else {
        assert added[k - |ps|] in added;
        var j :| 0 <= j < |ps| && ps[j].SignalWaiting? && ps[j].signal == signal;
        assert qs[j] == ps[j];
      }
    }
  }

  lemma {:induction false} ChainSettledOnce(registry: Registry, run: string, log: seq<Event>, n: nat, signal: string)
    requires Chain(registry, run, [], log, n)
    ensures SettledOnce(Payloads(log), signal)
    decreases n
  {
    hide GrownBy;
    if n > 0 {
      var mid, cause :| Chain(registry, run, [], mid, n - 1) && GrownBy(registry, run, mid, log, cause);
      ChainSettledOnce(registry, run, mid, n - 1, signal);
      SettledOnceStep(registry, run, mid, log, cause, signal);
    }
  }

  /** In every reachable state each signal was settled at most once, after a wait, and not mentioned since. */
  lemma SignalsSettleOnce(registry: Registry, actions: seq<Action>, run: string, signal: string)
    ensures SettledOnce(Payloads(After(registry, actions).store.Of(run)), signal)
  {
    var n := LogsAreChains(registry, actions, run);
    ChainSettledOnce(registry, run, After(registry, actions).store.Of(run), n, signal);
  }

  lemma SettledStays(ps: seq<Payload>, added: seq<Payload>, signal: string)
    requires forall p :: p in added ==> !Mentions(p, signal)
    ensures SignalOf(ps + added, signal) == SignalOf(ps, signal)
  {
    LastAppend(ps, added, WaitingView(signal));
    LastAppend(ps, added, ReceivedView(signal));
    LastAppend(ps, added, TimeoutView(signal));
    LastNone(added, WaitingView(signal));
    LastNone(added, ReceivedView(signal));
    LastNone(added, TimeoutView(signal));
  }

  predicate IsSettled(ps: seq<Payload>, signal: string) {
    match SignalOf(ps, signal)
    case None => false
    case Some(state) => state.received || state.timeout
  }

  lemma SettledHasEvent(ps: seq<Payload>, signal: string)
    requires IsSettled(ps, signal)
    ensures exists p :: p in ps && Settles(p, signal)
  {
    if Last(ps, ReceivedView(signal)).Some? {
      var i := LastAt(ps, ReceivedView(signal));
      assert ps[i] in ps;
    } else {
      var i := LastAt(ps, TimeoutView(signal));
      assert ps[i] in ps;
    }
  }

  lemma {:induction false} ChainKeepsSettled(registry: Registry, run: string, a: seq<Event>, b: seq<Event>, n: nat,
      signal: string)
    requires Chain(registry, run, a, b, n) && IsSettled(Payloads(a), signal)
    ensures SignalOf(Payloads(b), signal) == SignalOf(Payloads(a), signal)
    decreases n
  {
    hide SignalOf, Grow;
    if n > 0 {
      var mid, cause :| Chain(registry, run, a, mid, n - 1) && GrownBy(registry, run, mid, b, cause);
      ChainKeepsSettled(registry, run, a, mid, n - 1, signal);
      SettledHasEvent(Payloads(mid), signal);
      SignalStep(registry, run, mid, b, cause, signal);
      SettledStays(Payloads(mid), Grow(registry, run, mid, cause).value, signal);
    }
  }

  /**
    Once a signal is settled, WaitForSignal answers the same in every replay of every later log:
    the same message, or the timeout.
  */
  lemma WaitAnswersForGood(registry: Registry, actions: seq<Action>, more: seq<Action>, run: string, signal: string,
                           c: Config, d: Config, sh: Shared, sh': Shared, timeout: int, now: int, timeout': int,
                           now': int)
    requires c.log == After(registry, actions).store.Of(run) && IsSettled(c.Past(), signal)
    requires d.log == After(registry, actions + more).store.Of(run)
    ensures Wait(d, sh', signal, timeout', now').1 == Wait(c, sh, signal, timeout, now).1
    ensures Wait(c, sh, signal, timeout, now).1 != StillWaiting
  {
    var n := LogsGrow(registry, actions, more, run);
    ChainKeepsSettled(registry, run, c.log, d.log, n, signal);
  }

  // ---------------------------------------------------------------------------------------------
  // Steps and branches

  /** What Define guarantees of a workflow, and the name is plain in it. */
  ghost predicate PlainIn(def: Definition, name: string) {
    WellDefined(def) && PlainName(def, name)
  }

  /** The run's workflow is registered and the name is plain in it. */
  ghost predicate HasPlainName(registry: Registry, log: seq<Event>, name: string) {
    log != [] ==> NameOf(Payloads(log)) in registry && PlainIn(registry[NameOf(Payloads(log))], name)
  }

  lemma SettlingStep(registry: Registry, run: string, a: seq<Event>, b: seq<Event>, cause: Cause, name: string)
    requires GrownBy(registry, run, a, b, cause)
    requires OutputsPresent(Payloads(a)) && Count(SettlesStep(name), Payloads(a)) <= 1
    requires HasPlainName(registry, a, name)
    ensures OutputsPresent(Payloads(b)) && Count(SettlesStep(name), Payloads(b)) <= 1
  {
    hide Replay, Count, WellDefined, PlainName;
    var ps, added := Payloads(a), Grow(registry, run, a, cause).value;
    match cause
    case Replayed(env) =>
      var c := ConfigOf(registry[NameOf(ps)], run, a);
      var o := Replay(c, env).value;
      StepSettlesOnce(c, env, name);
      var failed := if o.result.ReplayFailed? then [WorkflowFailed(o.result.error)] else [];
      assert Payloads(b) == ps + o.emitted + failed;
      CountAppend(SettlesStep(name), ps + o.emitted, failed);
      CountNone(SettlesStep(name), failed);
    case _ =>
      CountAppend(SettlesStep(name), ps, added);
      CountOne(SettlesStep(name), added[0]);
  }

  lemma CountNone(keep: Payload -> bool, ps: seq<Payload>)
    ensures Count(keep, ps) == 0 <==> forall p :: p in ps ==> !keep(p)
  {
    FilterNone(keep, ps);
  }

  lemma {:induction false} ChainSettling(registry: Registry, run: string, log: seq<Event>, n: nat, name: string)
    requires Chain(registry, run, [], log, n)
    requires HasPlainName(registry, log, name)
    ensures OutputsPresent(Payloads(log)) && Count(SettlesStep(name), Payloads(log)) <= 1
    decreases n
  {
    hide GrownBy, PlainIn, NameOf;
    if n > 0 {
      var mid, cause :| Chain(registry, run, [], mid, n - 1) && GrownBy(registry, run, mid, log, cause);
      ChainKeepsHead(registry, run, [], mid, n - 1);
      assert Grown(registry, run, mid, log);
      GrownKeepsHead(registry, run, mid, log);
      ChainSettling(registry, run, mid, n - 1, name);
      SettlingStep(registry, run, mid, log, cause, name);
    }
  }

  /**
    Effectively-once recording: over all crashes, redelivered jobs and racing replays, the log of a
    run holds for each plain step at most one event that completes it or fails it for good.
  */
  lemma StepsSettleAtMostOnce(registry: Registry, actions: seq<Action>, run: string, name: string)
    requires var workflow := NameOf(Payloads(After(registry, actions).store.Of(run)));
             workflow in registry ==> PlainIn(registry[workflow], name)
    ensures Count(SettlesStep(name), Payloads(After(registry, actions).store.Of(run))) <= 1
  {
    var log := After(registry, actions).store.Of(run);
    var n := LogsAreChains(registry, actions, run);
    ChainRegistered(registry, run, log, n);
    ChainSettling(registry, run, log, n, name);
  }

  /** A run's workflow is registered. */
  lemma {:induction false} ChainRegistered(registry: Registry, run: string, log: seq<Event>, n: nat)
    requires Chain(registry, run, [], log, n)
    ensures log != [] ==> NameOf(Payloads(log)) in registry
    decreases n
  {
    hide NameOf, GrownBy;
    if n > 0 {
      var mid, cause :| Chain(registry, run, [], mid, n - 1) && GrownBy(registry, run, mid, log, cause);
      ChainRegistered(registry, run, mid, n - 1);
      ChainKeepsHead(registry, run, [], mid, n - 1);
      assert Grown(registry, run, mid, log);
      GrownKeepsHead(registry, run, mid, log);
      if mid == [] {
        BegunFirst(registry, run, log, cause);
      }
    }
  }

  lemma BegunFirst(registry: Registry, run: string, log: seq<Event>, cause: Cause)
    requires GrownBy(registry, run, [], log, cause)
    ensures log != [] && NameOf(Payloads(log)) in registry
  {
    hide Replay;
    assert cause.Begun?;
    assert Payloads(log)[0] == Grow(registry, run, [], cause).value[0];
  }

  lemma DecidingStep(registry: Registry, run: string, a: seq<Event>, b: seq<Event>, cause: Cause, branch: string)
    requires GrownBy(registry, run, a, b, cause) && Decided(Payloads(a), branch)
    ensures Decided(Payloads(b), branch) && ChoiceKept(Payloads(a), Payloads(b), branch)
  {
    hide Replay, Decided, ChoiceKept;
    var ps, added := Payloads(a), Grow(registry, run, a, cause).value;
    assert ps + [] == ps;
    match cause
    case Replayed(env) =>
      var c := ConfigOf(registry[NameOf(ps)], run, a);
      var o := Replay(c, env).value;
      BranchesDecidedOnce(c, env, branch);
      if o.result.ReplayFailed? {
        CompletedDecides(ps, o.emitted, WorkflowFailed(o.result.error), branch);
        ChoiceKeptTransitive(ps, ps + o.emitted, ps + (o.emitted + [WorkflowFailed(o.result.error)]), branch);
      } else {
        assert o.emitted + [] == o.emitted;
      }
    case _ =>
      assert added == [] + [added[0]];
      CompletedDecides(ps, [], added[0], branch);
  }

  lemma ChoiceKeptTransitive(a: seq<Payload>, b: seq<Payload>, c: seq<Payload>, branch: string)
    requires ChoiceKept(a, b, branch) && ChoiceKept(b, c, branch)
    ensures ChoiceKept(a, c, branch)
  {}

  lemma {:induction false} ChainDecides(registry: Registry, run: string, a: seq<Event>, b: seq<Event>, n: nat,
      branch: string)
    requires Chain(registry, run, a, b, n) && Decided(Payloads(a), branch)
    ensures Decided(Payloads(b), branch) && ChoiceKept(Payloads(a), Payloads(b), branch)
    decreases n
  {
    hide GrownBy, Decided;
    if n > 0 {
      var mid, cause :| Chain(registry, run, a, mid, n - 1) && GrownBy(registry, run, mid, b, cause);
      ChainDecides(registry, run, a, mid, n - 1, branch);
      DecidingStep(registry, run, mid, b, cause, branch);
    }
  }

  /**
    Branch decisions over all runs: a branch is evaluated at most once in a run's log, every step
    event recorded for it carries that choice, and no later action changes the choice.
  */
  lemma BranchChoicesStand(registry: Registry, actions: seq<Action>, more: seq<Action>, run: string, branch: string)
    ensures var ps := Payloads(After(registry, actions).store.Of(run));
            var qs := Payloads(After(registry, actions + more).store.Of(run));
            Decided(ps, branch) && Decided(qs, branch) && (ChoiceOf(ps, branch).Some? ==>
                ChoiceOf(qs, branch) == ChoiceOf(ps, branch))
  {
    var log := After(registry, actions).store.Of(run);
    var n := LogsAreChains(registry, actions, run);
    ChainDecides(registry, run, [], log, n, branch);
    var m := LogsGrow(registry, actions, more, run);
    ChainDecides(registry, run, log, After(registry, actions + more).store.Of(run), m, branch);
  }
}
