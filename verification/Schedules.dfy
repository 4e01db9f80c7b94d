/** Schedules that let every goroutine move exist, so the theorems about them speak of real runs. */
module Schedules {
  import opened Definitions
  import opened Engine
  import opened Executions
  import opened Replays
  import opened Decisions
  import opened Events
  import opened Meaning
  import opened Agreement
  import opened Termination

  /** One move for each of the first `tasks` goroutines. */
  function Round(tasks: nat): seq<Tick> {
    if tasks == 0 then [] else Round(tasks - 1) + [Move(tasks - 1, 0, "")]
  }

  function RoundRobin(tasks: nat, rounds: nat): seq<Tick> {
    if rounds == 0 then [] else RoundRobin(tasks, rounds - 1) + Round(tasks)
  }

  lemma {:induction false} MovesAppend(a: seq<Tick>, b: seq<Tick>, i: nat)
    ensures Moves(a + b, i) == Moves(a, i) + Moves(b, i)
  {
    if b == [] {
      assert a + b == a;
    } else {
      var n := |b| - 1;
      assert (a + b)[..|a + b| - 1] == a + b[..n];
      MovesAppend(a, b[..n], i);
    }
  }

  lemma {:induction false} RoundMoves(tasks: nat, i: nat)
    ensures Moves(Round(tasks), i) == (if i < tasks then 1 else 0) && NoCancel(Round(tasks))
  {
    if tasks > 0 {
      RoundMoves(tasks - 1, i);
      assert Round(tasks)[..|Round(tasks)| - 1] == Round(tasks - 1);
    }
  }

  lemma {:induction false} RoundRobinMoves(tasks: nat, rounds: nat, i: nat)
    requires i < tasks
    ensures Moves(RoundRobin(tasks, rounds), i) == rounds
  {
    if rounds > 0 {
      RoundRobinMoves(tasks, rounds - 1, i);
      MovesAppend(RoundRobin(tasks, rounds - 1), Round(tasks), i);
      RoundMoves(tasks, i);
    }
  }

  lemma {:induction false} RoundRobinNeverCancels(tasks: nat, rounds: nat)
    ensures NoCancel(RoundRobin(tasks, rounds))
  {
    if rounds > 0 {
      RoundRobinNeverCancels(tasks, rounds - 1);
      RoundMoves(tasks, 0);
    }
  }

  function TakingTurns(tasks: nat, rounds: nat): Environment {
    Environment(false, (wave: nat) => RoundRobin(tasks, rounds))
  }

  lemma TakingTurnsIsFair(tasks: nat, n: nat)
    ensures Fair(TakingTurns(tasks, n + 4), tasks, n)
  {
    var rounds := n + 4;
    var ticks := RoundRobin(tasks, rounds);
    RoundRobinNeverCancels(tasks, rounds);
    forall i | 0 <= i < tasks ensures Moves(ticks, i) == rounds {
      RoundRobinMoves(tasks, rounds, i);
    }
  }

  /**
    Resuming works: from whatever an agreeing run has recorded so far, a total deterministic workflow
    can be taken to its end, with the outputs of sequential evaluation.
  */
  lemma EveryTotalRunCanComplete(c: Config, n: nat, m: map<string, Json>)
    requires Deterministic(c.def, c.input, n, m) && LogAgrees(c.Past(), Names(c.def.steps), m) && Total(c.def, m) &&
             Runnable(c)
    ensures exists env :: Replay(c, env).Some? && Replay(c, env).value.result.ReplayCompleted? &&
                          forall s :: s in c.def.steps ==> StepHasOutput(c, Replay(c, env).value, s, m)
  {
    hide Replay, Deterministic, LogAgrees, Total, Runnable, StepHasOutput, Fair;
    var env := TakingTurns(|c.def.steps|, n + 4);
    TakingTurnsIsFair(|c.def.steps|, n);
    ParallelEqualsSequential(c, env, n, m);
  }

  /** A bound on the moves that any of the steps may need. */
  function Most(steps: seq<Step>, n: nat): (most: nat)
    ensures forall s :: s in steps ==> Rounds(MaxAttempts(s), n) + 2 <= most
  {
    if steps == [] then 0
    else
      var before, last := Most(steps[..|steps| - 1], n), Rounds(MaxAttempts(steps[|steps| - 1]), n) + 2;
      assert steps == steps[..|steps| - 1] + [steps[|steps| - 1]];
      if last > before then last else before
  }

  /** A replay of steps whose code ends can always be run to one of its results, from any log. */
  lemma EveryReplayCanEnd(c: Config, n: nat)
    requires forall s :: s in c.def.steps ==> CodeEnds(s, n)
    ensures exists env :: Replay(c, env).Some?
  {
    hide Replay, CodeEnds, Rounds;
    var k, most := |c.def.steps|, Most(c.def.steps, n);
    var env := TakingTurns(k, most);
    forall w: nat, i: nat, s | i < k && s in c.def.steps ensures Moves(env.schedule(w), i) >= Rounds(MaxAttempts(s),
        n) + 2 {
      RoundRobinMoves(k, most, i);
    }
    ReplayEnds(c, env, n);
  }
}
