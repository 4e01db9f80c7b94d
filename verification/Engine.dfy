/** Workflow definitions: named steps with dependencies, and the user code they run. */
module Definitions {
  import opened Events

  /**
    User code talks to the engine one call at a time. A body is a function of the workflow input
    and of the replies received so far, so it may loop for ever and may branch on any reply.
    `Ask` stands for everything outside the engine: clocks, networks, the observed context.
  */
  datatype Call =
    | Return(result: Json)
    | Fail(error: string)
    | Pause                                  // return the engine's waiting sentinel
    | Read(step: string)
    | Await(signal: string, timeout: int)
    | Ask
    | Record(event: Payload)                 // child workflow and map events

  datatype Reply =
    | Output(output: Option<Json>)
    | Delivered(message: Json)
    | TimedOut
    | StillWaiting
    | Answer(text: Json)
    | Recorded

  type Body = (Json, seq<Reply>) -> Call

  datatype CaseStep = CaseStep(name: string, body: Body)

  datatype Step =
    | Plain(name: string, deps: seq<string>, maxAttempts: Option<int>, body: Body)
    | Branch(name: string, deps: seq<string>, selector: (Json, map<string, Json>, Json) -> string,
             cases: map<string, CaseStep>, fallback: Option<CaseStep>)
  {
    function CaseOf(choice: string): Option<CaseStep> {
      if Plain? then None else if choice in cases then Some(cases[choice]) else fallback
    }

    /** The step name that events carry: a branch's events carry the name of the chosen case's step. */
    function Label(choice: string): string {
      match CaseOf(choice)
      case Some(chosen) => if chosen.name == "" then name else chosen.name
      case None => name
    }

    function BranchName(): string {
      if Plain? then "" else name
    }

    /** Branches have no retry policy of their own, and the policy of a case's step is not consulted. */
    predicate ShouldRetry(attempt: int) {
      Plain? && maxAttempts.Some? && attempt < maxAttempts.value
    }

    /** The next call of the step's code; a branch without a matching case fails. */
    function Next(input: Json, choice: string, replies: seq<Reply>): Call {
      if Plain? then body(input, replies)
      else match CaseOf(choice)
        case Some(chosen) => chosen.body(input, replies)
        case None => Fail("no case for " + choice + " and no default")
    }
  }

  datatype Definition = Definition(name: string, version: string, steps: seq<Step>)

  function Names(steps: seq<Step>): (names: set<string>)
    ensures forall n :: n in names <==> exists i :: 0 <= i < |steps| && steps[i].name == n
  {
    set i | 0 <= i < |steps| :: steps[i].name
  }

  ghost predicate DistinctNames(steps: seq<Step>) {
    forall i, j :: 0 <= i < j < |steps| ==> steps[i].name != steps[j].name
  }

  /** Every dependency stands earlier in the list. */
  ghost predicate DependenciesFirst(steps: seq<Step>) {
    forall i, d :: 0 <= i < |steps| && d in steps[i].deps ==> exists j :: 0 <= j < i && steps[j].name == d
  }

  /** What Define guarantees of the definitions it returns. */
  ghost predicate WellDefined(def: Definition) {
    DistinctNames(def.steps) && DependenciesFirst(def.steps)
  }
}

/** The replay of a run, as a function of its log and of everything the environment decides. */
module Engine {
  import opened Events
  import opened Scans
  import opened Queries
  import opened Definitions

  datatype Config = Config(def: Definition, runID: string, input: Json, log: seq<Event>) {
    function Past(): seq<Payload> {
      Payloads(log)
    }
  }

  datatype WaitingSignal = WaitingSignal(signal: string, timeoutAt: int)

  /** What the goroutines of a wave share. */
  datatype Shared = Shared(emitted: seq<Payload>, cache: map<string, Json>, waiting: seq<WaitingSignal>,
                           ctxDone: bool, groupDone: bool)
  {
    predicate Stopped() {
      ctxDone || groupDone
    }
  }

  datatype Ending = Succeeded(output: Json) | Failed(error: string) | Waiting | Cancelled

  /** Where a goroutine stands; attempts count from 1. */
  datatype Phase =
    | Entering
    | Starting(attempt: nat)
    | Running(attempt: nat, replies: seq<Reply>)
    | BackingOff(attempt: nat)
    | Leaving(ending: Ending)
    | Done(ending: Ending)

  /** One execution of a step: its own events are kept back until the whole wave is over. */
  datatype Task = Task(step: Step, choice: string, events: seq<Payload>, phase: Phase) {
    function Label(): string {
      step.Label(choice)
    }
    /** Outputs of branches are cached under the case's step; an unnamed branch is not seen as one. */
    function CacheKey(): string {
      if step.BranchName() != "" then Label() else step.name
    }
    function Started(attempt: int): Payload {
      StepStarted(Label(), attempt, step.BranchName(), choice)
    }
    function Finished(output: Json): Payload {
      StepCompleted(Label(), Some(output), step.BranchName(), choice)
    }
    function Faulted(error: string, attempt: int, willRetry: bool): Payload {
      StepFailed(Label(), error, attempt, willRetry, step.BranchName(), choice)
    }
  }

  /** A goroutine's view of a step's output: this replay's cache first, then the log. */
  function Visible(c: Config, sh: Shared, step: string): Option<Json> {
    if step in sh.cache then Some(sh.cache[step]) else OutputOf(c.Past(), step)
  }

  function AddWaiting(waiting: seq<WaitingSignal>, signal: string, timeoutAt: int): seq<WaitingSignal> {
    if exists w :: w in waiting && w.signal == signal then waiting else waiting + [WaitingSignal(signal, timeoutAt)]
  }

  function Enter(c: Config, sh: Shared, t: Task, answer: Json): (Shared, Task) {
    if sh.Stopped() then (sh, t.(phase := Leaving(Cancelled)))
    else if t.step.Plain? then (sh, t.(phase := Starting(1)))
    else match ChoiceOf(c.Past() + sh.emitted, t.step.name)
      case Some(choice) => (sh, t.(choice := choice, phase := Starting(1)))
      case None =>
        var choice := t.step.selector(c.input, OutputMap(c.Past()) + sh.cache, answer);
        (sh.(emitted := sh.emitted + [BranchEvaluated(t.step.name, choice)]),
            t.(choice := choice, phase := Starting(1)))
  }

  function Start(sh: Shared, t: Task): (Shared, Task)
    requires t.phase.Starting?
  {
    var attempt := t.phase.attempt;
    if sh.Stopped() then (sh, t.(phase := Leaving(Cancelled)))
    else (sh, t.(events := t.events + [t.Started(attempt)], phase := Running(attempt, [])))
  }

  /** WaitForSignal: settled signals reply at once, others are put on the waiting list. */
  function Wait(c: Config, sh: Shared, signal: string, timeout: int, now: int): (Shared, Reply) {
    match SignalOf(c.Past(), signal)
    case Some(state) =>
      if state.received then (sh, Delivered(state.message))
      else if state.timeout then (sh, TimedOut)
      else (sh.(waiting := AddWaiting(sh.waiting, signal, state.timeoutAt)), StillWaiting)
    case None =>
      var timeoutAt := now + timeout;
      (sh.(emitted := sh.emitted + [SignalWaiting(signal, timeoutAt)],
          waiting := AddWaiting(sh.waiting, signal, timeoutAt)), StillWaiting)
  }

  /** One call of the user's code. */
  function Work(c: Config, sh: Shared, t: Task, now: int, answer: Json): (Shared, Task)
    requires t.phase.Running?
  {
    var Running(attempt, replies) := t.phase;
    match t.step.Next(c.input, t.choice, replies)
    case Return(output) =>
      (sh.(cache := sh.cache[t.CacheKey() := output]), t.(events := t.events + [t.Finished(output)],
          phase := Leaving(Succeeded(output))))
    case Fail(error) =>
      var willRetry := t.step.ShouldRetry(attempt);
      (sh, t.(events := t.events + [t.Faulted(error, attempt, willRetry)],
              phase := if willRetry then BackingOff(attempt) else Leaving(Failed(error))))
    case Pause => (sh, t.(phase := Leaving(Waiting)))
    case Read(step) => (sh, t.(phase := Running(attempt, replies + [Output(Visible(c, sh, step))])))
    case Await(signal, timeout) =>
      var (sh', reply) := Wait(c, sh, signal, timeout, now);
      (sh', t.(phase := Running(attempt, replies + [reply])))
    case Ask => (sh, t.(phase := Running(attempt, replies + [Answer(answer)])))
    case Record(event) =>
      (if IsChildEvent(event) then sh.(emitted := sh.emitted + [event]) else sh,
          t.(phase := Running(attempt, replies + [Recorded])))
  }

  /** One atomic move of a goroutine. Leaving with an error cancels the group's context. */
  function Advance(c: Config, sh: Shared, t: Task, now: int, answer: Json): (Shared, Task) {
    match t.phase
    case Entering => Enter(c, sh, t, answer)
    case Starting(_) => Start(sh, t)
    case Running(_, _) => Work(c, sh, t, now, answer)
    case BackingOff(attempt) => (sh, t.(phase := if sh.Stopped() then Leaving(Cancelled) else Starting(attempt + 1)))
    case Leaving(ending) => (sh.(groupDone := sh.groupDone || !ending.Succeeded?), t.(phase := Done(ending)))
    case Done(_) => (sh, t)
  }

  /** The environment's moves: let a goroutine take a step, or cancel the outer context. */
  datatype Tick = Move(task: nat, now: int, answer: Json) | Cancel

  datatype Wave = Wave(sh: Shared, tasks: seq<Task>) {
    predicate AllDone() {
      forall i :: 0 <= i < |tasks| ==> tasks[i].phase.Done?
    }
  }

  function Take(c: Config, w: Wave, tick: Tick): Wave {
    match tick
    case Cancel => w.(sh := w.sh.(ctxDone := true))
    case Move(i, now, answer) =>
      if i < |w.tasks| then
        var (sh, t) := Advance(c, w.sh, w.tasks[i], now, answer);
        Wave(sh, w.tasks[i := t])
      else w
  }

  function Run(c: Config, w: Wave, ticks: seq<Tick>): Wave {
    if ticks == [] then w else Take(c, Run(c, w, ticks[..|ticks| - 1]), ticks[|ticks| - 1])
  }

  function NewTasks(ready: seq<Step>): (tasks: seq<Task>)
    ensures |tasks| == |ready|
    ensures forall i :: 0 <= i < |ready| ==> tasks[i] == Task(ready[i], "", [], Entering)
  {
    seq(|ready|, i requires 0 <= i < |ready| => Task(ready[i], "", [], Entering))
  }

  /** The kept-back events of the tasks, in task order. */
  function Gather(tasks: seq<Task>): seq<Payload> {
    if tasks == [] then [] else Gather(tasks[..|tasks| - 1]) + tasks[|tasks| - 1].events
  }

  /** Lexicographic order on names. */
  predicate Before(a: string, b: string) {
    b != "" && (a == "" || a[0] < b[0] || (a[0] == b[0] && Before(a[1..], b[1..])))
  }

  function Insert(s: Step, sorted: seq<Step>): (r: seq<Step>)
    ensures multiset(r) == multiset(sorted) + multiset{s}
  {
    if sorted == [] || Before(s.name, sorted[0].name) then
      assert [s] + sorted == [s] + sorted;
      [s] + sorted
    else
      assert sorted == [sorted[0]] + sorted[1..];
      [sorted[0]] + Insert(s, sorted[1..])
  }

  function SortByName(steps: seq<Step>): (r: seq<Step>)
    ensures multiset(r) == multiset(steps)
  {
    if steps == [] then []
    else
      assert steps == steps[..|steps| - 1] + [steps[|steps| - 1]];
      Insert(steps[|steps| - 1], SortByName(steps[..|steps| - 1]))
  }

  predicate IsReady(c: Config, s: Step, completed: set<string>) {
    && s.name !in completed
    && FatalOf(c.Past(), s.name).None?
    && forall d :: d in s.deps ==> d in completed
  }

  function Unsorted(c: Config, steps: seq<Step>, completed: set<string>): seq<Step> {
    if steps == [] then []
    else Unsorted(c, steps[..|steps| - 1], completed)
         + if IsReady(c, steps[|steps| - 1], completed) then [steps[|steps| - 1]] else []
  }

  function FindReady(c: Config, completed: set<string>): seq<Step> {
    SortByName(Unsorted(c, c.def.steps, completed))
  }

  datatype ReplayResult = ReplayCompleted | ReplayWaiting | ReplayFailed(error: string) | ReplaySuspended

  datatype ReplayOutput = ReplayOutput(result: ReplayResult, finalOutput: Option<Json>, waitingFor: seq<WaitingSignal>,
                                       emitted: seq<Payload>, waves: nat)

  /** A schedule for every wave, and whether the context was cancelled before the first one. */
  datatype Environment = Environment(cancelledEarly: bool, schedule: nat -> seq<Tick>)

  predicate AnyWaiting(tasks: seq<Task>) {
    exists i :: 0 <= i < |tasks| && tasks[i].phase == Done(Waiting)
  }

  /** The first task in order that failed or was cancelled. */
  function FirstFailure(tasks: seq<Task>): Option<string> {
    if tasks == [] then None
    else
      var before := FirstFailure(tasks[..|tasks| - 1]);
      var t := tasks[|tasks| - 1];
      if before.Some? || !t.phase.Done? then before
      else match t.phase.ending
        case Failed(error) => Some(t.step.name + " failed: " + error)
        case Cancelled => Some(t.step.name + " failed: context canceled")
        case _ => before
  }

  /** The output of the last task, in order, that succeeded. */
  function LastOutput(tasks: seq<Task>, before: Option<Json>): Option<Json> {
    if tasks == [] then before
    else match tasks[|tasks| - 1].phase
      case Done(Succeeded(output)) => Some(output)
      case _ => LastOutput(tasks[..|tasks| - 1], before)
  }

  /** Where the wave loop stands at its head. */
  datatype Loop = Loop(sh: Shared, completed: set<string>, finalOutput: Option<Json>, waves: nat)

  datatype Turn = Again(next: Loop) | Out(output: ReplayOutput) | Dead

  function StartWave(c: Config, l: Loop, ready: seq<Step>, env: Environment): Wave {
    Run(c, Wave(l.sh.(groupDone := false), NewTasks(ready)), env.schedule(l.waves))
  }

  /** The shared state once the kept-back events have been emitted in task order. */
  function Settle(w: Wave): Shared {
    w.sh.(emitted := w.sh.emitted + Gather(w.tasks))
  }

  /** One turn of the wave loop. A schedule that ends too early means that the process died. */
  function WaveTurn(c: Config, l: Loop, env: Environment): Turn {
    if l.sh.ctxDone then Out(ReplayOutput(ReplaySuspended, None, [], l.sh.emitted, l.waves))
    else
      var ready := FindReady(c, l.completed);
      if ready == [] then
        Out(ReplayOutput(ReplayCompleted, l.finalOutput, [], l.sh.emitted + [WorkflowCompleted(l.finalOutput)],
            l.waves))
      else
        var w := StartWave(c, l, ready, env);
        var sh := Settle(w);
        if !w.AllDone() then Dead
        else if AnyWaiting(w.tasks) then Out(ReplayOutput(ReplayWaiting, None, sh.waiting, sh.emitted, l.waves + 1))
        else match FirstFailure(w.tasks)
          case Some(error) => Out(ReplayOutput(ReplayFailed(error), None, [], sh.emitted, l.waves + 1))
          case None => Again(Loop(sh, l.completed + Names(ready), LastOutput(w.tasks, l.finalOutput), l.waves + 1))
  }

  lemma UnsortedMember(c: Config, steps: seq<Step>, completed: set<string>, s: Step)
    ensures s in Unsorted(c, steps, completed) <==> s in steps && IsReady(c, s, completed)
  {
    if steps != [] {
      UnsortedMember(c, steps[..|steps| - 1], completed, s);
      assert steps == steps[..|steps| - 1] + [steps[|steps| - 1]];
    }
  }

  /** Exactly the steps that are not done, not failed for good, and have all dependencies done. */
  lemma ReadyMember(c: Config, completed: set<string>, s: Step)
    ensures s in FindReady(c, completed) <==> s in c.def.steps && IsReady(c, s, completed)
  {
    UnsortedMember(c, c.def.steps, completed, s);
    var u := Unsorted(c, c.def.steps, completed);
    assert s in multiset(FindReady(c, completed)) <==> s in multiset(u);
  }

  lemma ReadyShrinks(c: Config, completed: set<string>)
    requires FindReady(c, completed) != []
    ensures Names(c.def.steps) - (completed + Names(FindReady(c, completed))) < Names(c.def.steps) - completed
  {
    var s := FindReady(c, completed)[0];
    ReadyMember(c, completed, s);
    assert s.name in Names(c.def.steps);
    assert s.name in Names(FindReady(c, completed));
  }

  /** The wave loop; the set of steps not yet done shrinks. */
  function Waves(c: Config, l: Loop, env: Environment): Option<ReplayOutput>
    decreases Names(c.def.steps) - l.completed
  {
    match WaveTurn(c, l, env)
    case Out(output) => Some(output)
    case Dead => None
    case Again(next) =>
      ReadyShrinks(c, l.completed);
      Waves(c, next, env)
  }

  function CompletedBefore(c: Config): (completed: set<string>)
    ensures forall n :: n in completed <==> n in Names(c.def.steps) && OutputOf(c.Past(), n).Some?
  {
    set n | n in Names(c.def.steps) && OutputOf(c.Past(), n).Some?
  }

  /** The first step, in definition order, that failed for good in the log. */
  function FirstFatal(c: Config, steps: seq<Step>): Option<string> {
    if steps == [] then None
    else match FatalOf(c.Past(), steps[0].name)
      case Some(error) => Some(steps[0].name + " failed: " + error)
      case None => FirstFatal(c, steps[1..])
  }

  function Opening(c: Config): seq<Payload> {
    if InputOf(c.Past()).None? then [WorkflowStarted(c.def.name, c.def.version, c.input)] else []
  }

  function FirstLoop(c: Config, env: Environment): Loop {
    Loop(Shared(Opening(c), map[], [], env.cancelledEarly, false), CompletedBefore(c), None, 0)
  }

  function Replay(c: Config, env: Environment): Option<ReplayOutput> {
    if IsCancelled(c.Past()) then Some(ReplayOutput(ReplayFailed("workflow cancelled"), None, [], [], 0))
    else if IsCompleted(c.Past()) then Some(ReplayOutput(ReplayCompleted, None, [], [], 0))
    else match FirstFatal(c, c.def.steps)
      case Some(error) => Some(ReplayOutput(ReplayFailed(error), None, [], Opening(c), 0))
      case None => Waves(c, FirstLoop(c, env), env)
  }
}
