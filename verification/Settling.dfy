/** Effectively-once recording of plain steps. */
module Settling {
  import opened Events
  import opened Scans
  import opened Queries
  import opened Definitions
  import opened Engine
  import opened Executions
  import opened Replays
  import opened Decisions

  /** The event that closes a step for good: its completion or its last failure. */
  function SettlesStep(name: string): Payload -> bool {
    (p: Payload) => (p.StepCompleted? && p.step == name) || (p.StepFailed? && p.step == name && !p.willRetry)
  }

  lemma {:induction false} RetriedSettlesNothing(s: Step, choice: string, events: seq<Payload>, k: nat, name: string)
    requires Retried(s, choice, events, k)
    ensures Filter(SettlesStep(name), events) == []
  {
    if k > 0 {
      RetriedSettlesNothing(s, choice, events[..2 * k - 2], k - 1, name);
      assert events == events[..2 * k - 2] + [events[2 * k - 2]] + [events[2 * k - 1]];
      FilterPush(SettlesStep(name), events[..2 * k - 2], events[2 * k - 2]);
      FilterPush(SettlesStep(name), events[..2 * k - 2] + [events[2 * k - 2]], events[2 * k - 1]);
    }
  }

  lemma AttemptingSettlesNothing(s: Step, choice: string, events: seq<Payload>, k: nat, name: string)
    requires Attempting(s, choice, events, k)
    ensures Filter(SettlesStep(name), events) == []
  {
    RetriedSettlesNothing(s, choice, events[..2 * k], k, name);
    assert events == events[..2 * k] + [events[2 * k]];
    FilterPush(SettlesStep(name), events[..2 * k], events[2 * k]);
  }

  /** One execution settles its step at most once; a plain step exactly once unless it waits or is cancelled. */
  lemma ExecutionSettlesOnce(s: Step, events: seq<Payload>, ending: Ending, name: string)
    requires Execution(s, events, ending)
    ensures Count(SettlesStep(name), events) <= 1
    ensures ending.Waiting? || ending.Cancelled? ==> Count(SettlesStep(name), events) == 0
    ensures s.Plain? && name == s.name && (ending.Succeeded? || ending.Failed?) ==>
            Count(SettlesStep(name), events) == 1
  {
    var choice, k :| EndedAt(s, choice, events, ending, k);
    match ending
    case Waiting => AttemptingSettlesNothing(s, choice, events, k, name);
    case Cancelled => RetriedSettlesNothing(s, choice, events, k, name);
    case _ =>
      AttemptingSettlesNothing(s, choice, events[..2 * k + 1], k, name);
      assert events == events[..2 * k + 1] + [events[2 * k + 1]];
      FilterPush(SettlesStep(name), events[..2 * k + 1], events[2 * k + 1]);
  }

  /** A nonempty name under which no branch of the definition records its events. */
  ghost predicate PlainName(def: Definition, name: string) {
    && name != ""
    && forall s, choice :: s in def.steps && s.Branch? ==> s.Label(choice) != name
  }

  lemma PlainIsApart(def: Definition, name: string)
    requires PlainName(def, name)
    ensures Apart(def.steps, name)
  {
    forall i | 0 <= i < |def.steps| ensures ApartFrom(def.steps[i], name) {
      assert def.steps[i] in def.steps;
    }
  }

  /** Where a plain step is the unnamed one, no branch is. */
  lemma UnnamedIsApart(def: Definition, s: Step)
    requires DistinctNames(def.steps) && s in def.steps && s.Plain? && s.name == ""
    ensures Apart(def.steps, "")
  {
    forall i | 0 <= i < |def.steps| ensures ApartFrom(def.steps[i], "") {
      if def.steps[i].name == "" {
        SameName(def.steps, def.steps[i], s);
      }
    }
  }

  ghost predicate OutputsPresent(ps: seq<Payload>) {
    forall p :: p in ps && p.StepCompleted? ==> p.output.Some?
  }

  /** A settled step is one the history index knows as completed or as failed for good. */
  lemma SettledIsIndexed(past: seq<Payload>, name: string)
    requires name != "" && OutputsPresent(past) && Count(SettlesStep(name), past) > 0
    ensures OutputOf(past, name).Some? || FatalOf(past, name).Some?
  {
    FilterNone(SettlesStep(name), past);
    var p :| p in past && SettlesStep(name)(p);
    LastNone(past, OutputView(name));
    LastNone(past, FatalView(name));
    assert OutputView(name)(p).Some? || FatalView(name)(p).Some?;
  }

  lemma FatalStops(c: Config, steps: seq<Step>, s: Step)
    requires s in steps && FatalOf(c.Past(), s.name).Some?
    ensures FirstFatal(c, steps).Some?
  {
    if FirstFatal(c, steps).None? {
      NoneFatal(c, steps, s);
    }
  }

  /** Within a replay, a settling event under a plain name comes from the plain step of that name. */
  lemma SettlingIsOfNode(c: Config, env: Environment, name: string, p: Payload)
    requires Replay(c, env).Some? && PlainName(c.def, name)
    requires p in Replay(c, env).value.emitted && SettlesStep(name)(p)
    ensures name != "" && OfNode(name)(p) && exists s :: s in c.def.steps && s.Plain? && s.name == name
    ensures p.StepCompleted? ==> p.output.Some?
  {
    hide Waves, FirstFatal, Opening, Replay;
    ReplayKinds(c, env);
    var o := Replay(c, env).value;
    if o.result.ReplayCompleted? {
      assert o.emitted == o.emitted[..|o.emitted| - 1] + [o.emitted[|o.emitted| - 1]];
    }
    assert Allowed(c, p);
    var s :| s in c.def.steps && p.step == s.Label(p.caseValue) && p.branch == s.BranchName();
  }

  /**
    Each plain step is settled at most once: a replay adds no completion and no final failure to
    a log that has one, and at most one to a log that has none.
  */
  lemma StepSettlesOnce(c: Config, env: Environment, name: string)
    requires WellDefined(c.def) && PlainName(c.def, name)
    requires Replay(c, env).Some? && OutputsPresent(c.Past()) && Count(SettlesStep(name), c.Past()) <= 1
    ensures Count(SettlesStep(name), c.Past() + Replay(c, env).value.emitted) <= 1
    ensures OutputsPresent(c.Past() + Replay(c, env).value.emitted)
  {
    PlainIsApart(c.def, name);
    hide Replay, WellDefined, Apart, PlainName, OfNode, FirstFatal;
    var o := Replay(c, env).value;
    FilterAppend(SettlesStep(name), c.Past(), o.emitted);
    forall p | p in o.emitted && SettlesStep(name)(p) ensures OfNode(name)(p) {
      SettlingIsOfNode(c, env, name, p);
    }
    EmittedOutputs(c, env);
    FilterThrough(SettlesStep(name), OfNode(name), o.emitted);
    FilterNone(SettlesStep(name), o.emitted);
    if p :| p in o.emitted && SettlesStep(name)(p) {
      SettlingIsOfNode(c, env, name, p);
      var s :| s in c.def.steps && s.Plain? && s.name == name;
      NodeSettlesOnce(c, env, s);
    }
  }

  lemma EmittedOutputs(c: Config, env: Environment)
    requires Replay(c, env).Some?
    ensures OutputsPresent(Replay(c, env).value.emitted)
  {
    hide Replay;
    ReplayKinds(c, env);
    var o := Replay(c, env).value;
    if o.result.ReplayCompleted? && o.emitted != [] {
      assert o.emitted == o.emitted[..|o.emitted| - 1] + [o.emitted[|o.emitted| - 1]];
    }
    forall p | p in o.emitted && p.StepCompleted? ensures p.output.Some? {
      assert Allowed(c, p);
    }
  }

  lemma NodeSettlesOnce(c: Config, env: Environment, s: Step)
    requires WellDefined(c.def) && Apart(c.def.steps, s.name) && s in c.def.steps && s.name != ""
    requires Replay(c, env).Some? && OutputsPresent(c.Past()) && Count(SettlesStep(s.name), c.Past()) <= 1
    ensures Count(SettlesStep(s.name), c.Past()) + Count(SettlesStep(s.name),
            NodeEvents(s, Replay(c, env).value.emitted)) <= 1
  {
    hide Replay, WellDefined, Apart;
    ReplayExecutesOnce(c, env, s);
    var events := NodeEvents(s, Replay(c, env).value.emitted);
    if Count(SettlesStep(s.name), c.Past()) > 0 {
      SettledIsIndexed(c.Past(), s.name);
      if FatalOf(c.Past(), s.name).Some? {
        FatalStops(c, c.def.steps, s);
      } else {
        assert s.name in CompletedBefore(c);
      }
      assert events == [];
    } else if events != [] {
      var ending :| Execution(s, events, ending);
      ExecutionSettlesOnce(s, events, ending, s.name);
    }
  }

  /**
    The condition on the name is needed: results of a step without a name are never indexed, so
    it completes again in every replay that completes, whatever the log already holds.
  */
  lemma UnnamedStepSettlesAgain(c: Config, env: Environment, s: Step)
    requires WellDefined(c.def) && s in c.def.steps && s.Plain? && s.name == ""
    requires Runnable(c) && Replay(c, env).Some? && Replay(c, env).value.result.ReplayCompleted?
    ensures Count(SettlesStep(""), c.Past() + Replay(c, env).value.emitted) > Count(SettlesStep(""), c.Past())
  {
    UnnamedIsApart(c.def, s);
    hide Replay, WellDefined, Apart, Execution;
    var emitted := Replay(c, env).value.emitted;
    ReplayExecutesOnce(c, env, s);
    LastNone(c.Past(), OutputView(""));
    assert s.name !in CompletedBefore(c);
    var events := NodeEvents(s, emitted);
    var output :| Execution(s, events, Succeeded(output));
    ExecutionSettlesOnce(s, events, Succeeded(output), "");
    FilterAppend(SettlesStep(""), c.Past(), emitted);
    FilterNone(SettlesStep(""), events);
    var p :| p in events && SettlesStep("")(p);
    FilterMember(OfNode(s.name), emitted, p);
    FilterNone(SettlesStep(""), emitted);
  }
}
