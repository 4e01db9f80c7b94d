/** The grammar of the events of one step execution, and what a wave does with them. */
module Executions {
  import opened Events
  import opened Scans
  import opened Queries
  import opened Definitions
  import opened Engine

  function MaxAttempts(s: Step): (m: int)
    ensures m >= 1
  {
    if s.Plain? && s.maxAttempts.Some? && s.maxAttempts.value > 1 then s.maxAttempts.value else 1
  }

  /** The first `k` attempts, each a start and a failure that is to be retried. */
  ghost predicate Retried(s: Step, choice: string, events: seq<Payload>, k: nat)
    decreases k
  {
    if k == 0 then events == []
    else
      && |events| == 2 * k
      && Retried(s, choice, events[..2 * k - 2], k - 1)
      && events[2 * k - 2] == StepStarted(s.Label(choice), k, s.BranchName(), choice)
      && events[2 * k - 1].StepFailed?
      && events[2 * k - 1] == StepFailed(s.Label(choice), events[2 * k - 1].error, k, true, s.BranchName(), choice)
  }

  /** `k` retried attempts, then the start of attempt `k + 1`. */
  ghost predicate Attempting(s: Step, choice: string, events: seq<Payload>, k: nat) {
    && |events| == 2 * k + 1
    && Retried(s, choice, events[..2 * k], k)
    && events[2 * k] == StepStarted(s.Label(choice), k + 1, s.BranchName(), choice)
  }

  /**
    The events of a whole execution: fewer than MaxAttempts retried attempts, followed by an
    attempt that completed, that failed for good or that is waiting, or by nothing at all. It fails
    for good at its last attempt and no sooner.
  */
  ghost predicate EndedAt(s: Step, choice: string, events: seq<Payload>, ending: Ending, k: nat) {
    && k < MaxAttempts(s)
    && match ending
       case Succeeded(output) =>
         && |events| == 2 * k + 2 && Attempting(s, choice, events[..2 * k + 1], k)
         && events[2 * k + 1] == StepCompleted(s.Label(choice), Some(output), s.BranchName(), choice)
       case Failed(error) =>
         && k + 1 == MaxAttempts(s)
         && |events| == 2 * k + 2 && Attempting(s, choice, events[..2 * k + 1], k)
         && events[2 * k + 1] == StepFailed(s.Label(choice), error, k + 1, false, s.BranchName(), choice)
       case Waiting => Attempting(s, choice, events, k)
       case Cancelled => Retried(s, choice, events, k)
  }

  ghost predicate Execution(s: Step, events: seq<Payload>, ending: Ending) {
    exists choice, k :: EndedAt(s, choice, events, ending, k)
  }

  /** What the events of a goroutine look like at each point of its life. */
  ghost predicate Grammar(t: Task) {
    match t.phase
    case Entering => t.events == []
    case Starting(a) => 1 <= a <= MaxAttempts(t.step) && Retried(t.step, t.choice, t.events, a - 1)
    case Running(a, _) => 1 <= a <= MaxAttempts(t.step) && Attempting(t.step, t.choice, t.events, a - 1)
    case BackingOff(a) => 1 <= a < MaxAttempts(t.step) && Retried(t.step, t.choice, t.events, a)
    case Leaving(ending) => exists k :: EndedAt(t.step, t.choice, t.events, ending, k)
    case Done(ending) => exists k :: EndedAt(t.step, t.choice, t.events, ending, k)
  }

  lemma FailureIsRetried(s: Step, choice: string, events: seq<Payload>, k: nat, error: string)
    requires Attempting(s, choice, events, k)
    ensures Retried(s, choice, events + [StepFailed(s.Label(choice), error, k + 1, true, s.BranchName(), choice)],
            k + 1)
  {
    var more := events + [StepFailed(s.Label(choice), error, k + 1, true, s.BranchName(), choice)];
    assert more[..2 * k] == events[..2 * k];
  }

  lemma WorkKeepsGrammar(c: Config, sh: Shared, t: Task, now: int, answer: Json)
    requires Grammar(t) && t.phase.Running?
    ensures Grammar(Work(c, sh, t, now, answer).1) && Work(c, sh, t, now, answer).1.step == t.step
  {
    hide Visible, Wait, Retried;
    var u := Work(c, sh, t, now, answer).1;
    var k := t.phase.attempt - 1;
    var n := |t.events|;
    match t.step.Next(c.input, t.choice, t.phase.replies)
    case Return(output) =>
      assert u.events[..n] == t.events;
      assert EndedAt(u.step, u.choice, u.events, Succeeded(output), k);
    case Fail(error) =>
      assert u.events[..n] == t.events;
      if t.step.ShouldRetry(k + 1) {
        FailureIsRetried(t.step, t.choice, t.events, k, error);
      } else {
        assert EndedAt(u.step, u.choice, u.events, Failed(error), k);
      }
    case Pause =>
      assert EndedAt(u.step, u.choice, u.events, Waiting, k);
    case _ =>
  }

  /** Every move of a goroutine keeps its events within the grammar. */
  lemma AdvanceKeepsGrammar(c: Config, sh: Shared, t: Task, now: int, answer: Json)
    requires Grammar(t)
    ensures Grammar(Advance(c, sh, t, now, answer).1)
    ensures Advance(c, sh, t, now, answer).1.step == t.step
  {
    hide Work, Wait, ChoiceOf, OutputMap;
    var u := Advance(c, sh, t, now, answer).1;
    match t.phase
    case Entering =>
      if sh.Stopped() {
        assert EndedAt(u.step, u.choice, u.events, Cancelled, 0);
      }
    case Starting(a) =>
      if sh.Stopped() {
        assert EndedAt(u.step, u.choice, u.events, Cancelled, a - 1);
      } else {
        assert u.events[..2 * (a - 1)] == t.events;
      }
    case Running(_, _) =>
      WorkKeepsGrammar(c, sh, t, now, answer);
    case BackingOff(a) =>
      if sh.Stopped() {
        assert EndedAt(u.step, u.choice, u.events, Cancelled, a);
      }
    case Leaving(_) =>
    case Done(_) =>
  }

  /** All events of a goroutine carry its step's label, its branch's name and the choice taken. */
  ghost predicate Tagged(t: Task) {
    && (t.phase.Entering? ==> t.events == [])
    && forall p :: p in t.events ==>
         IsStepEvent(p) && p.step == t.Label() && p.branch == t.step.BranchName() && p.caseValue == t.choice
  }

  lemma AdvanceKeepsTagged(c: Config, sh: Shared, t: Task, now: int, answer: Json)
    requires Tagged(t)
    ensures Tagged(Advance(c, sh, t, now, answer).1)
  {
    hide Work, ChoiceOf, OutputMap;
    if t.phase.Running? {
      WorkKeepsTagged(c, sh, t, now, answer);
    }
  }

  lemma WorkKeepsTagged(c: Config, sh: Shared, t: Task, now: int, answer: Json)
    requires Tagged(t) && t.phase.Running?
    ensures Tagged(Work(c, sh, t, now, answer).1)
  {
    hide Visible, Wait;
  }

  /** The goroutines of a wave, each with events in the grammar. */
  ghost predicate TasksFor(w: Wave, ready: seq<Step>) {
    && |w.tasks| == |ready|
    && forall i :: 0 <= i < |ready| ==> w.tasks[i].step == ready[i] && Grammar(w.tasks[i]) && Tagged(w.tasks[i])
  }

  lemma {:induction false} RunKeepsTasks(c: Config, w: Wave, ready: seq<Step>, ticks: seq<Tick>)
    requires TasksFor(w, ready)
    ensures TasksFor(Run(c, w, ticks), ready)
  {
    if ticks != [] {
      RunKeepsTasks(c, w, ready, ticks[..|ticks| - 1]);
      var v, tick := Run(c, w, ticks[..|ticks| - 1]), ticks[|ticks| - 1];
      if tick.Move? && tick.task < |v.tasks| {
        AdvanceKeepsGrammar(c, v.sh, v.tasks[tick.task], tick.now, tick.answer);
        AdvanceKeepsTagged(c, v.sh, v.tasks[tick.task], tick.now, tick.answer);
      }
    }
  }

  /** What goroutines may emit while their wave runs: branch choices, waits for unseen signals, child events. */
  predicate IsDirect(c: Config, p: Payload) {
    p.BranchEvaluated? || (p.SignalWaiting? && SignalOf(c.Past(), p.signal).None?) || IsChildEvent(p)
  }

  ghost predicate Extends(c: Config, a: seq<Payload>, b: seq<Payload>) {
    |a| <= |b| && a == b[..|a|] && forall i :: |a| <= i < |b| ==> IsDirect(c, b[i])
  }

  lemma AdvanceExtends(c: Config, sh: Shared, t: Task, now: int, answer: Json)
    ensures Extends(c, sh.emitted, Advance(c, sh, t, now, answer).0.emitted)
  {
    var e := Advance(c, sh, t, now, answer).0.emitted;
    assert e == sh.emitted || (|e| == |sh.emitted| + 1 && e[..|sh.emitted|] == sh.emitted &&
           IsDirect(c, e[|sh.emitted|]));
  }

  lemma {:induction false} RunExtends(c: Config, w: Wave, ticks: seq<Tick>)
    ensures Extends(c, w.sh.emitted, Run(c, w, ticks).sh.emitted)
  {
    if ticks != [] {
      RunExtends(c, w, ticks[..|ticks| - 1]);
      var v, tick := Run(c, w, ticks[..|ticks| - 1]), ticks[|ticks| - 1];
      if tick.Move? && tick.task < |v.tasks| {
        AdvanceExtends(c, v.sh, v.tasks[tick.task], tick.now, tick.answer);
      }
    }
  }

  /** The step events of one node of the workflow: of a branch by its name, else of the step. */
  function OfNode(node: string): Payload -> bool {
    (p: Payload) => IsStepEvent(p) && (if p.branch != "" then p.branch else p.step) == node
  }

  lemma DirectAddsNoStepEvents(c: Config, a: seq<Payload>, b: seq<Payload>, keep: Payload -> bool)
    requires Extends(c, a, b) && forall p :: keep(p) ==> !IsDirect(c, p)
    ensures Filter(keep, b) == Filter(keep, a)
  {
    assert b == a + b[|a|..];
    FilterAppend(keep, a, b[|a|..]);
    forall p | p in b[|a|..] ensures !keep(p) {
      var i :| 0 <= i < |b[|a|..]| && b[|a|..][i] == p;
      assert IsDirect(c, b[|a| + i]);
    }
    FilterNone(keep, b[|a|..]);
  }

  /** The events of the node cannot be mistaken for those of an unnamed branch, which carry a case's name only. */
  ghost predicate ApartFrom(s: Step, node: string) {
    s.Branch? && s.name == "" ==> node != "" && forall choice :: s.Label(choice) != node
  }

  ghost predicate Apart(steps: seq<Step>, node: string) {
    forall i :: 0 <= i < |steps| ==> ApartFrom(steps[i], node)
  }

  lemma TaggedNode(t: Task, node: string)
    requires Tagged(t) && ApartFrom(t.step, node)
    ensures Filter(OfNode(node), t.events) == if t.step.name == node then t.events else []
  {
    if t.step.name == node {
      FilterAll(OfNode(node), t.events);
    } else {
      FilterNone(OfNode(node), t.events);
    }
  }

  lemma {:induction false} GatherAbsent(tasks: seq<Task>, node: string)
    requires forall i :: 0 <= i < |tasks| ==> Tagged(tasks[i]) && ApartFrom(tasks[i].step, node)
    requires forall i :: 0 <= i < |tasks| ==> tasks[i].step.name != node
    ensures Filter(OfNode(node), Gather(tasks)) == []
  {
    if tasks != [] {
      var n := |tasks| - 1;
      GatherAbsent(tasks[..n], node);
      FilterAppend(OfNode(node), Gather(tasks[..n]), tasks[n].events);
      TaggedNode(tasks[n], node);
    }
  }

  /** Gathering picks for each node the events of just its own goroutine. */
  lemma {:induction false} GatherNode(tasks: seq<Task>, k: nat)
    requires k < |tasks|
    requires forall i :: 0 <= i < |tasks| ==> Tagged(tasks[i]) && ApartFrom(tasks[i].step, tasks[k].step.name)
    requires forall i :: 0 <= i < |tasks| && i != k ==> tasks[i].step.name != tasks[k].step.name
    ensures Filter(OfNode(tasks[k].step.name), Gather(tasks)) == tasks[k].events
  {
    hide Tagged, OfNode, Filter, ApartFrom;
    var n, node := |tasks| - 1, tasks[k].step.name;
    FilterAppend(OfNode(node), Gather(tasks[..n]), tasks[n].events);
    TaggedNode(tasks[n], node);
    if k < n {
      GatherNode(tasks[..n], k);
    } else {
      GatherAbsent(tasks[..n], node);
    }
  }

  lemma {:induction false} GatherMember(tasks: seq<Task>, p: Payload)
    ensures p in Gather(tasks) <==> exists i :: 0 <= i < |tasks| && p in tasks[i].events
  {
    if tasks != [] {
      var n := |tasks| - 1;
      GatherMember(tasks[..n], p);
      if p in Gather(tasks[..n]) {
        var i :| 0 <= i < n && p in tasks[..n][i].events;
        assert p in tasks[i].events;
      }
      if p in tasks[n].events {
        assert p in Gather(tasks);
      }
      if i :| 0 <= i < n && p in tasks[i].events {
        assert tasks[..n][i] == tasks[i];
      }
    }
  }

  lemma {:induction false} UnsortedDistinct(c: Config, steps: seq<Step>, completed: set<string>)
    requires DistinctNames(steps)
    ensures DistinctNames(Unsorted(c, steps, completed))
  {
    if steps != [] {
      var init, last := steps[..|steps| - 1], steps[|steps| - 1];
      UnsortedDistinct(c, init, completed);
      var u := Unsorted(c, init, completed);
      forall i | 0 <= i < |u| ensures u[i].name != last.name {
        UnsortedMember(c, init, completed, u[i]);
        assert u[i] in u;
      }
    }
  }

  lemma {:induction false} InsertDistinct(s: Step, sorted: seq<Step>)
    requires DistinctNames(sorted) && forall i :: 0 <= i < |sorted| ==> sorted[i].name != s.name
    ensures DistinctNames(Insert(s, sorted))
  {
    if sorted != [] && !Before(s.name, sorted[0].name) {
      InsertDistinct(s, sorted[1..]);
      var r := Insert(s, sorted[1..]);
      forall i | 0 <= i < |r| ensures r[i].name != sorted[0].name {
        assert r[i] in multiset(sorted[1..]) + multiset{s};
        assert r[i] == s || r[i] in sorted[1..];
      }
    }
  }

  lemma {:induction false} SortDistinct(steps: seq<Step>)
    requires DistinctNames(steps)
    ensures DistinctNames(SortByName(steps))
  {
    if steps != [] {
      var init, last := steps[..|steps| - 1], steps[|steps| - 1];
      SortDistinct(init);
      var r := SortByName(init);
      forall i | 0 <= i < |r| ensures r[i].name != last.name {
        assert r[i] in multiset(init);
        assert r[i] in init;
      }
      InsertDistinct(last, r);
    }
  }

  lemma ReadyDistinct(c: Config, completed: set<string>)
    requires DistinctNames(c.def.steps)
    ensures DistinctNames(FindReady(c, completed))
  {
    UnsortedDistinct(c, c.def.steps, completed);
    SortDistinct(Unsorted(c, c.def.steps, completed));
  }
}
