/** Waiting for signals: what a replay that ends waiting is waiting for. */
module Signals {
  import opened Events
  import opened Scans
  import opened Queries
  import opened Definitions
  import opened Engine
  import opened Executions
  import opened Replays
  import opened Decisions

  /** Neither a message nor a timeout has been recorded for the signal. */
  predicate Unsettled(ps: seq<Payload>, signal: string) {
    Last(ps, ReceivedView(signal)).None? && Last(ps, TimeoutView(signal)).None?
  }

  predicate Awaited(ps: seq<Payload>, signal: string) {
    Last(ps, WaitingView(signal)).Some?
  }

  /**
    What WaitForSignal answers, by what the log holds: the last message received; else the timeout;
    else, for a signal awaited before, its recorded deadline is put on the waiting list; and for a
    signal not seen before, a signal.waiting event and a list entry with the new deadline. A signal
    already on the list is not listed again.
  */
  lemma WaitReplies(c: Config, sh: Shared, signal: string, timeout: int, now: int)
    ensures var ps := c.Past();
            var received, expired := Last(ps, ReceivedView(signal)), Last(ps, TimeoutView(signal));
            var waited := Last(ps, WaitingView(signal));
            Wait(c, sh, signal, timeout, now) ==
            if received.Some? then (sh, Delivered(received.value))
            else if expired.Some? then (sh, TimedOut)
            else if waited.Some? then (sh.(waiting := AddWaiting(sh.waiting, signal, waited.value)), StillWaiting)
            else (sh.(emitted := sh.emitted + [SignalWaiting(signal, now + timeout)],
                      waiting := AddWaiting(sh.waiting, signal, now + timeout)), StillWaiting)
  {}

  /** The same on the log itself: a received message with none after it is the one delivered. */
  lemma WaitDelivers(c: Config, sh: Shared, signal: string, timeout: int, now: int, i: nat)
    requires i < |c.Past()| && c.Past()[i].SignalReceived? && c.Past()[i].signal == signal
    requires forall j :: i < j < |c.Past()| ==> !(c.Past()[j].SignalReceived? && c.Past()[j].signal == signal)
    ensures Wait(c, sh, signal, timeout, now) == (sh, Delivered(c.Past()[i].message))
  {
    var ps := c.Past();
    assert ps == ps[..i] + [ps[i]] + ps[i + 1..];
    LastPush(ps[..i], ps[i], ReceivedView(signal));
    LastAppend(ps[..i] + [ps[i]], ps[i + 1..], ReceivedView(signal));
    LastNone(ps[i + 1..], ReceivedView(signal));
  }

  /** A timeout on record is the answer exactly as long as no message is. */
  lemma WaitTimesOut(c: Config, sh: Shared, signal: string, timeout: int, now: int)
    ensures Wait(c, sh, signal, timeout, now).1 == TimedOut <==>
              && (exists p :: p in c.Past() && p.SignalTimeout? && p.signal == signal)
              && forall p :: p in c.Past() ==> !(p.SignalReceived? && p.signal == signal)
  {
    LastNone(c.Past(), ReceivedView(signal));
    LastNone(c.Past(), TimeoutView(signal));
  }

  /** Each signal is on the waiting list once, with the deadline it was first listed with. */
  lemma ListedOnce(waiting: seq<WaitingSignal>, signal: string, timeoutAt: int)
    requires forall i, j :: 0 <= i < j < |waiting| ==> waiting[i].signal != waiting[j].signal
    ensures var list := AddWaiting(waiting, signal, timeoutAt);
            && (forall i, j :: 0 <= i < j < |list| ==> list[i].signal != list[j].signal)
            && waiting <= list && (exists w :: w in list && w.signal == signal)
            && forall w :: w in list && w !in waiting ==> w == WaitingSignal(signal, timeoutAt)
  {
    if !exists w :: w in waiting && w.signal == signal {
      assert WaitingSignal(signal, timeoutAt) in AddWaiting(waiting, signal, timeoutAt);
    }
  }

  /** User code pauses only on a signal: it returns the sentinel only after WaitForSignal has given it one. */
  ghost predicate PausesOnSignals(def: Definition) {
    forall i, input, choice, replies :: 0 <= i < |def.steps| && def.steps[i].Next(input, choice, replies).Pause? ==>
      StillWaiting in replies
  }

  /** Everything on the waiting list is unsettled in the log and awaited in the log or in the new events. */
  ghost predicate WaitingListed(c: Config, sh: Shared) {
    forall i :: 0 <= i < |sh.waiting| ==>
      Unsettled(c.Past(), sh.waiting[i].signal) && Awaited(c.Past() + sh.emitted, sh.waiting[i].signal)
  }

  /** A goroutine that was told to wait left its signal on the waiting list; honest ones pause for no other reason. */
  ghost predicate ToldToWait(honest: bool, sh: Shared, t: Task) {
    && (t.phase.Running? && StillWaiting in t.phase.replies ==> sh.waiting != [])
    && (honest && (t.phase == Leaving(Waiting) || t.phase == Done(Waiting)) ==> sh.waiting != [])
  }

  lemma AwaitedGrows(past: seq<Payload>, a: seq<Payload>, b: seq<Payload>, signal: string)
    requires |a| <= |b| && a == b[..|a|] && Awaited(past + a, signal)
    ensures Awaited(past + b, signal)
  {
    assert past + b == past + a + b[|a|..];
    LastAppend(past + a, b[|a|..], WaitingView(signal));
  }

  lemma WaitIsListed(c: Config, sh: Shared, signal: string, timeout: int, now: int)
    requires WaitingListed(c, sh)
    ensures var (sh', reply) := Wait(c, sh, signal, timeout, now);
            && WaitingListed(c, sh') && (reply == StillWaiting ==> sh'.waiting != [])
            && |sh.waiting| <= |sh'.waiting|
  {
    var (sh', reply) := Wait(c, sh, signal, timeout, now);
    var x := c.Past() + sh.emitted;
    if SignalOf(c.Past(), signal).None? {
      var p := SignalWaiting(signal, now + timeout);
      assert c.Past() + sh'.emitted == x + [p];
      LastPush(x, p, WaitingView(signal));
      forall i | 0 <= i < |sh.waiting| ensures Awaited(x + [p], sh.waiting[i].signal) {
        LastPush(x, p, WaitingView(sh.waiting[i].signal));
      }
    } else {
      LastAppend(c.Past(), sh.emitted, WaitingView(signal));
    }
  }

  lemma AdvanceKeepsWaits(honest: bool, c: Config, sh: Shared, t: Task, now: int, answer: Json)
    requires WaitingListed(c, sh) && ToldToWait(honest, sh, t)
    requires honest ==> forall input, choice, replies :: t.step.Next(input, choice, replies).Pause? ==>
             StillWaiting in replies
    ensures var (sh', t') := Advance(c, sh, t, now, answer);
            WaitingListed(c, sh') && ToldToWait(honest, sh', t') && |sh.waiting| <= |sh'.waiting|
  {
    hide Awaited, Unsettled, Wait;
    var (sh', t') := Advance(c, sh, t, now, answer);
    if t.phase.Running? && t.step.Next(c.input, t.choice, t.phase.replies).Await? {
      var call := t.step.Next(c.input, t.choice, t.phase.replies);
      WaitIsListed(c, sh, call.signal, call.timeout, now);
    } else {
      AdvanceExtends(c, sh, t, now, answer);
      assert sh'.waiting == sh.waiting;
      forall i | 0 <= i < |sh.waiting| ensures Awaited(c.Past() + sh'.emitted, sh.waiting[i].signal) {
        AwaitedGrows(c.Past(), sh.emitted, sh'.emitted, sh.waiting[i].signal);
      }
    }
  }

  ghost predicate WaveWaits(honest: bool, c: Config, w: Wave) {
    WaitingListed(c, w.sh) && forall i :: 0 <= i < |w.tasks| ==> ToldToWait(honest, w.sh, w.tasks[i])
  }

  lemma {:induction false} RunKeepsWaits(honest: bool, c: Config, w: Wave, ready: seq<Step>, ticks: seq<Tick>)
    requires (honest ==> PausesOnSignals(c.def)) && TasksFor(w, ready) && forall i :: 0 <= i < |ready| ==>
             ready[i] in c.def.steps
    requires WaveWaits(honest, c, w)
    ensures WaveWaits(honest, c, Run(c, w, ticks))
  {
    hide Advance, Grammar, Tagged, WaitingListed;
    if ticks != [] {
      var init, tick := ticks[..|ticks| - 1], ticks[|ticks| - 1];
      RunKeepsWaits(honest, c, w, ready, init);
      RunKeepsTasks(c, w, ready, init);
      var v := Run(c, w, init);
      assert v.sh.waiting == Take(c, v, Cancel).sh.waiting;
      if tick.Move? && tick.task < |v.tasks| {
        var k :| 0 <= k < |c.def.steps| && c.def.steps[k] == ready[tick.task];
        AdvanceKeepsWaits(honest, c, v.sh, v.tasks[tick.task], tick.now, tick.answer);
      } else if tick.Cancel? {
        CancelKeepsListed(c, v.sh);
      }
    }
  }

  lemma CancelKeepsListed(c: Config, sh: Shared)
    requires WaitingListed(c, sh)
    ensures WaitingListed(c, sh.(ctxDone := true)) && WaitingListed(c, sh.(groupDone := false))
  {}

  lemma WaveListed(honest: bool, c: Config, l: Loop, env: Environment)
    requires (honest ==> PausesOnSignals(c.def)) && WaitingListed(c, l.sh)
    ensures var w := StartWave(c, l, FindReady(c, l.completed), env);
            && WaitingListed(c, Settle(w))
            && (AnyWaiting(w.tasks) ==> (honest ==> w.sh.waiting != []) && Settle(w).emitted != [])
  {
    hide FindReady, Run, Awaited, Unsettled, Grammar, Tagged, PausesOnSignals;
    var ready := FindReady(c, l.completed);
    var start := Wave(l.sh.(groupDone := false), NewTasks(ready));
    var w := StartWave(c, l, ready, env);
    forall i | 0 <= i < |ready| ensures ready[i] in c.def.steps {
      ReadyMember(c, l.completed, ready[i]);
    }
    assert TasksFor(start, ready) by { NewTasksFit(l, ready); }
    RunKeepsWaits(honest, c, start, ready, env.schedule(l.waves));
    forall i | 0 <= i < |w.sh.waiting| ensures Awaited(c.Past() + Settle(w).emitted, w.sh.waiting[i].signal) {
      AwaitedGrows(c.Past(), w.sh.emitted, Settle(w).emitted, w.sh.waiting[i].signal);
    }
    if i :| 0 <= i < |w.tasks| && w.tasks[i].phase == Done(Waiting) {
      RunKeepsTasks(c, start, ready, env.schedule(l.waves));
      WaitingStarted(w.tasks[i]);
      GatherMember(w.tasks, w.tasks[i].events[0]);
    }
  }

  /** A goroutine that waits has at least its start to show. */
  lemma WaitingStarted(t: Task)
    requires Grammar(t) && t.phase == Done(Waiting)
    ensures t.events != []
  {}

  lemma NewTasksFit(l: Loop, ready: seq<Step>)
    ensures TasksFor(Wave(l.sh.(groupDone := false), NewTasks(ready)), ready)
  {}

  ghost predicate WaitsPost(honest: bool, c: Config, o: ReplayOutput) {
    o.result.ReplayWaiting? ==>
      && (honest ==> o.waitingFor != []) && o.emitted != []
      && forall i :: 0 <= i < |o.waitingFor| ==>
           Unsettled(c.Past(), o.waitingFor[i].signal) && Awaited(c.Past() + o.emitted, o.waitingFor[i].signal)
  }

  lemma WavesWait(honest: bool, c: Config, l: Loop, env: Environment)
    requires (honest ==> PausesOnSignals(c.def)) && WaitingListed(c, l.sh)
    ensures Waves(c, l, env).Some? ==> WaitsPost(honest, c, Waves(c, l, env).value)
    decreases Names(c.def.steps) - l.completed
  {
    hide StartWave, FindReady, Awaited, Unsettled, PausesOnSignals, Gather;
    WaveListed(honest, c, l, env);
    match WaveTurn(c, l, env)
    case Again(next) =>
      TurnShrinks(c, l, env);
      WavesWait(honest, c, next, env);
    case _ =>
  }

  /** Whatever user code does, all that a waiting replay names is awaited, and nothing has settled it. */
  lemma WaitsAreListed(honest: bool, c: Config, env: Environment)
    requires (honest ==> PausesOnSignals(c.def)) && Replay(c, env).Some?
    ensures WaitsPost(honest, c, Replay(c, env).value)
  {
    hide Waves, PausesOnSignals;
    if Runnable(c) {
      WavesWait(honest, c, FirstLoop(c, env), env);
    }
  }

  /** With user code that pauses only on signals, a replay that ends waiting names at least one. */
  lemma WaitingNamesSignals(c: Config, env: Environment)
    requires PausesOnSignals(c.def)
    requires Replay(c, env).Some? && Replay(c, env).value.result.ReplayWaiting?
    ensures Replay(c, env).value.waitingFor != []
  {
    WaitsAreListed(true, c, env);
  }
}
