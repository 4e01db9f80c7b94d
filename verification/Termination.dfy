/** Replays end when user code does: whatever fails, waits, retries or is cancelled on the way. */
module Termination {
  import opened Events
  import opened Queries
  import opened Definitions
  import opened Engine
  import opened Executions
  import opened Replays
  import opened Agreement

  /** Within one attempt the step's code makes at most `n` calls before it returns, fails or pauses. */
  ghost predicate CodeEnds(s: Step, n: nat) {
    forall input, choice, replies :: |replies| >= n ==>
      var call := s.Next(input, choice, replies); call.Return? || call.Fail? || call.Pause?
  }

  /** The moves that `k` attempts take at most. */
  function Rounds(k: nat, n: nat): nat {
    if k == 0 then 0 else Rounds(k - 1, n) + n + 3
  }

  /** How many more moves a goroutine can make. */
  function Budget(t: Task, n: nat): int
    requires Grammar(t)
  {
    var m := MaxAttempts(t.step);
    match t.phase
    case Entering => Rounds(m, n) + 2
    case Starting(a) => Rounds(m - a + 1, n) + 1
    case Running(a, replies) => Rounds(m - a, n) + n - |replies| + 3
    case BackingOff(a) => Rounds(m - a, n) + 2
    case Leaving(_) => 1
    case Done(_) => 0
  }

  ghost predicate Within(t: Task, n: nat) {
    Grammar(t) && CodeEnds(t.step, n) && (t.phase.Running? ==> |t.phase.replies| <= n)
  }

  /** Every move of a goroutine that is not done uses up some of its budget. */
  lemma AdvanceSpends(c: Config, sh: Shared, t: Task, now: int, answer: Json, n: nat)
    requires Within(t, n)
    ensures var u := Advance(c, sh, t, now, answer).1;
            Within(u, n) && 0 <= Budget(u, n) <= Budget(t, n) && (t.phase.Done? || Budget(u, n) < Budget(t, n))
  {
    if t.phase.Running? {
      WorkSpends(c, sh, t, now, answer, n);
    } else {
      AdvanceKeepsGrammar(c, sh, t, now, answer);
      hide Grammar, Work, ChoiceOf, OutputMap;
      AttemptInRange(t);
      AttemptInRange(Advance(c, sh, t, now, answer).1);
    }
  }

  lemma WorkSpends(c: Config, sh: Shared, t: Task, now: int, answer: Json, n: nat)
    requires Within(t, n) && t.phase.Running?
    ensures var u := Work(c, sh, t, now, answer).1; Within(u, n) && 0 <= Budget(u, n) < Budget(t, n)
  {
    WorkKeepsGrammar(c, sh, t, now, answer);
    hide Grammar, Wait, Visible;
    AttemptInRange(t);
    AttemptInRange(Work(c, sh, t, now, answer).1);
    var call := t.step.Next(c.input, t.choice, t.phase.replies);
    assert |t.phase.replies| >= n ==> call.Return? || call.Fail? || call.Pause?;
  }

  lemma AttemptInRange(t: Task)
    requires Grammar(t)
    ensures t.phase.Starting? || t.phase.Running? ==> 1 <= t.phase.attempt <= MaxAttempts(t.step)
    ensures t.phase.BackingOff? ==> 1 <= t.phase.attempt < MaxAttempts(t.step)
  {}

  /** After its moves so far, a goroutine is done or within what is left of its budget. */
  ghost predicate Spent(t: Task, start: Task, moves: nat, n: nat) {
    && t.step == start.step && Within(t, n) && Grammar(start)
    && (t.phase.Done? || Budget(t, n) + moves <= Budget(start, n))
  }

  lemma {:induction false} RunSpends(c: Config, w: Wave, ticks: seq<Tick>, n: nat)
    requires forall i :: 0 <= i < |w.tasks| ==> Within(w.tasks[i], n)
    ensures var v := Run(c, w, ticks);
            |v.tasks| == |w.tasks| && forall i :: 0 <= i < |w.tasks| ==>
                Spent(v.tasks[i], w.tasks[i], Moves(ticks, i), n)
  {
    if ticks != [] {
      var init, tick := ticks[..|ticks| - 1], ticks[|ticks| - 1];
      RunSpends(c, w, init, n);
      hide Advance, Within, Budget;
      var v := Run(c, w, init);
      forall i | 0 <= i < |w.tasks| ensures Spent(Run(c, w, ticks).tasks[i], w.tasks[i], Moves(ticks, i), n) {
        assert Spent(v.tasks[i], w.tasks[i], Moves(init, i), n);
        if tick.Move? && tick.task == i {
          MoveSpends(c, v.sh, v.tasks[i], w.tasks[i], tick.now, tick.answer, Moves(init, i), n);
        }
      }
    }
  }

  lemma MoveSpends(c: Config, sh: Shared, t: Task, start: Task, now: int, answer: Json, moves: nat, n: nat)
    requires Spent(t, start, moves, n)
    ensures Spent(Advance(c, sh, t, now, answer).1, start, moves + 1, n)
  {
    AdvanceSpends(c, sh, t, now, answer, n);
    AdvanceKeepsGrammar(c, sh, t, now, answer);
    if t.phase.Done? {
      assert Advance(c, sh, t, now, answer).1 == t;
    }
    hide Advance, Within, Budget, Grammar;
  }

  /** Every wave lets each goroutine make the moves its step may need; cancellation may strike at any time. */
  ghost predicate Attentive(c: Config, env: Environment, n: nat) {
    forall w: nat, i: nat, s :: i < |c.def.steps| && s in c.def.steps ==>
      Moves(env.schedule(w), i) >= Rounds(MaxAttempts(s), n) + 2
  }

  lemma WaveEnds(c: Config, l: Loop, env: Environment, n: nat)
    requires (forall s :: s in c.def.steps ==> CodeEnds(s, n)) && Attentive(c, env, n)
    ensures !WaveTurn(c, l, env).Dead?
  {
    hide FindReady, Run, CodeEnds, Rounds, Moves;
    var ready := FindReady(c, l.completed);
    var start, w := Wave(l.sh.(groupDone := false), NewTasks(ready)), StartWave(c, l, ready, env);
    var ticks := env.schedule(l.waves);
    ReadyNoMore(c, l.completed);
    forall i | 0 <= i < |ready| ensures Within(start.tasks[i], n) && ready[i] in c.def.steps {
      ReadyMember(c, l.completed, ready[i]);
    }
    RunSpends(c, start, ticks, n);
    forall i | 0 <= i < |w.tasks| ensures w.tasks[i].phase.Done? {
      assert Spent(w.tasks[i], start.tasks[i], Moves(ticks, i), n);
      assert Moves(ticks, i) >= Rounds(MaxAttempts(ready[i]), n) + 2;
      NotDoneHasBudget(w.tasks[i], n);
    }
  }

  lemma NotDoneHasBudget(t: Task, n: nat)
    requires Within(t, n)
    ensures t.phase.Done? || Budget(t, n) > 0
  {}

  /**
    Termination. If the code of every step makes at most `n` calls in an attempt, then under every
    interleaving that gives each goroutine enough moves the replay reaches one of its results:
    the retry loops end, the waves end, and there are finitely many waves.
  */
  lemma ReplayEnds(c: Config, env: Environment, n: nat)
    requires (forall s :: s in c.def.steps ==> CodeEnds(s, n)) && Attentive(c, env, n)
    ensures Replay(c, env).Some?
  {
    hide CodeEnds, Attentive, Waves;
    if Runnable(c) {
      WavesEnd(c, FirstLoop(c, env), env, n);
    }
  }

  lemma WavesEnd(c: Config, l: Loop, env: Environment, n: nat)
    requires (forall s :: s in c.def.steps ==> CodeEnds(s, n)) && Attentive(c, env, n)
    ensures Waves(c, l, env).Some?
    decreases Names(c.def.steps) - l.completed
  {
    hide CodeEnds, Attentive, FindReady, StartWave;
    WaveEnds(c, l, env, n);
    if WaveTurn(c, l, env).Again? {
      TurnShrinks(c, l, env);
      WavesEnd(c, WaveTurn(c, l, env).next, env, n);
    }
  }
}
