/**
  Summaries of a run for its observers: how often each step ran, and the list of its
  invocations. Both correlate the events of an attempt through a text key that ends in the
  attempt's digit.
*/
module Projections {
  import opened Events
  import opened Scans

  datatype Outcome = Started | Completed | Failed | Retrying

  datatype Invocation = Invocation(step: string, attempt: int, outcome: Outcome, error: Option<string>)

  datatype Pending = Pending(step: string, attempt: int, index: nat)

  datatype Counts = Counts(total: int, completed: int, failed: int, running: int)

  const NO_COUNTS := Counts(0, 0, 0, 0)

  /** A byte that goes on with a character, rather than starting one. */
  predicate Continues(c: char) {
    0x80 <= c as int < 0xC0
  }

  /** The bytes of one character: the first starts it, the others go on with it. */
  predicate IsCharacter(bytes: string) {
    bytes != "" && !Continues(bytes[0]) && forall i :: 1 <= i < |bytes| ==> Continues(bytes[i])
  }

  /** UTF-8, with U+FFFD for numbers that have no character. */
  function Utf8(code: nat): (bytes: string)
    ensures IsCharacter(bytes) && (code < 0x80 ==> bytes == [code as char]) && (|bytes| == 1 <==> code < 0x80)
  {
    if code < 0x80 then [code as char]
    else if code < 0x800 then [(0xC0 + code / 0x40) as char, Tail(code)]
    else if code < 0xD800 || 0xE000 <= code < 0x1_0000 then
      [(0xE0 + code / 0x1000) as char, Tail(code / 0x40), Tail(code)]
    else if 0x1_0000 <= code < 0x11_0000 then
      [(0xF0 + code / 0x4_0000) as char, Tail(code / 0x1000), Tail(code / 0x40), Tail(code)]
    else [0xEF as char, 0xBF as char, 0xBD as char]
  }

  function Tail(code: nat): (c: char)
    ensures Continues(c)
  {
    (0x80 + code % 0x40) as char
  }

  /** The character `attempt` places past '0', cut to 32 bits; a negative number has none. */
  function Slot(attempt: int): (slot: string)
    ensures IsCharacter(slot)
  {
    Utf8((48 + attempt) % 0x1_0000_0000)
  }

  /** What is read back from the byte at the digit's place; subtraction wraps below '0'. */
  function DigitOf(c: char): int {
    if c < '0' then c as int + 208 else c as int - 48
  }

  function Key(step: string, attempt: int): string {
    step + ":" + Slot(attempt)
  }

  function Normal(attempt: int): int {
    if attempt == 0 then 1 else attempt
  }

  predicate IsStart(p: Payload) {
    p.StepStarted?
  }

  /** Attempts are small enough for the key to end in a one-byte character. */
  predicate ShortAttempts(ps: seq<Payload>) {
    forall p :: p in ps && IsStart(p) ==> 0 <= p.attempt < 80
  }

  predicate ColonFree(ps: seq<Payload>) {
    forall p :: p in ps && IsStart(p) ==> ':' !in p.step
  }

  // ----- What both summaries mean -----

  /**
    The history of one step: how many attempts began, how many ended in each way, and the
    digits of those still open.
  */
  datatype Tally = Tally(total: nat, completed: nat, failed: nat, retried: nat, open: set<string>)

  /** A completion closes the open attempt, whichever it is; a failure names the one it closes. */
  function Next(t: Tally, p: Payload, step: string): Tally {
    match p
    case StepStarted(name, attempt, _, _) =>
      if name != step then t else t.(total := t.total + 1, open := t.open + {Slot(Normal(attempt))})
    case StepCompleted(name, _, _, _) =>
      if name != step || t.open == {} then t else t.(completed := t.completed + 1, open := {})
    case StepFailed(name, _, attempt, willRetry, _, _) =>
      if name != step || Slot(attempt) !in t.open then t
      else if willRetry then t.(retried := t.retried + 1, open := t.open - {Slot(attempt)})
      else t.(failed := t.failed + 1, open := t.open - {Slot(attempt)})
    case _ => t
  }

  /** The step whose history an event may change. */
  function StepOf(p: Payload): string {
    if IsStepEvent(p) then p.step else ""
  }

  function TallyOf(ps: seq<Payload>, step: string): Tally {
    if ps == [] then Tally(0, 0, 0, 0, {})
    else Next(TallyOf(ps[..|ps| - 1], step), ps[|ps| - 1], step)
  }

  predicate AtMostOne(open: set<string>) {
    forall c, d :: c in open && d in open ==> c == d
  }

  /** No step ever has two different attempts open. */
  ghost predicate OneOpen(ps: seq<Payload>) {
    forall n, step {:trigger TallyOf(ps[..n], step)} :: 0 <= n <= |ps| ==> AtMostOne(TallyOf(ps[..n], step).open)
  }

  function Totals(t: Tally): Counts {
    Counts(t.total, t.completed, t.failed + t.retried, t.total - t.completed - t.failed - t.retried)
  }

  function CountsOf(counts: map<string, Counts>, step: string): Counts {
    if step in counts then counts[step] else NO_COUNTS
  }

  function Hit(v: Invocation, step: string, o: Outcome): int {
    if v.step == step && v.outcome == o then 1 else 0
  }

  function CountOf(vs: seq<Invocation>, step: string, o: Outcome): int {
    if vs == [] then 0 else CountOf(vs[..|vs| - 1], step, o) + Hit(vs[|vs| - 1], step, o)
  }

  /** The counts of a step read off the list of invocations. */
  function Summary(vs: seq<Invocation>, step: string): Counts {
    var c, f, r := CountOf(vs, step, Completed), CountOf(vs, step, Failed), CountOf(vs, step, Retrying);
    var s := CountOf(vs, step, Started);
    Counts(c + f + r + s, c, f + r, s)
  }

  lemma TallyPush(ps: seq<Payload>, n: nat, step: string)
    requires n < |ps|
    ensures TallyOf(ps[..n + 1], step) == Next(TallyOf(ps[..n], step), ps[n], step)
  {
    assert ps[..n + 1][..n] == ps[..n];
  }

  lemma CountPush(vs: seq<Invocation>, v: Invocation, step: string, o: Outcome)
    ensures CountOf(vs + [v], step, o) == CountOf(vs, step, o) + Hit(v, step, o)
  {
    assert (vs + [v])[..|vs|] == vs;
  }

  lemma {:induction false} CountSet(vs: seq<Invocation>, i: nat, v: Invocation, step: string, o: Outcome)
    requires i < |vs|
    ensures CountOf(vs[i := v], step, o) == CountOf(vs, step, o) - Hit(vs[i], step, o) + Hit(v, step, o)
  {
    var n := |vs| - 1;
    if i == n {
      assert vs[i := v][..n] == vs[..n];
    } else {
      assert vs[i := v][..n] == vs[..n][i := v];
      CountSet(vs[..n], i, v, step, o);
    }
  }

  // ----- Keys -----

  /** A key of the step: its name, the colon and one character. */
  predicate IsKeyOf(key: string, step: string) {
    && |key| > |step| + 1 && key[..|step|] == step && key[|step|] == ':'
    && IsCharacter(key[|step| + 1..])
  }

  function OpenKeys(keys: set<string>, step: string): set<string> {
    set key | key in keys && IsKeyOf(key, step)
  }

  function OpenSlots(keys: set<string>, step: string): set<string> {
    set key | key in keys && IsKeyOf(key, step) :: key[|step| + 1..]
  }

  lemma KeyParts(step: string, slot: string)
    ensures var key := step + ":" + slot;
            && |key| == |step| + 1 + |slot| && key[..|step|] == step && key[|step|] == ':' && key[|step| + 1..] == slot
            && forall i :: 0 <= i < |slot| ==> key[|step| + 1 + i] == slot[i]
  {
    var key := step + ":" + slot;
    assert key[..|step|] == step;
    assert key[|step| + 1..] == slot;
  }

  /** One character cannot hold a colon and another character: names of different length never share a key. */
  lemma LengthsDiffer(key: string, n: nat, m: nat)
    requires n < m && m + 1 < |key| && key[n] == ':' && key[m] == ':'
    ensures !IsCharacter(key[n + 1..]) || !IsCharacter(key[m + 1..])
  {
    var long, short := key[n + 1..], key[m + 1..];
    assert long[m - n - 1] == key[m] && long[m - n] == key[m + 1] && key[m + 1] == short[0];
  }

  /** A key never stands for two steps: the last character is the digit, the rest gives the name. */
  lemma KeyFits(step: string, attempt: int, other: string)
    ensures IsKeyOf(Key(step, attempt), other) <==> other == step
    ensures Key(step, attempt)[|step| + 1..] == Slot(attempt)
  {
    hide Slot, IsCharacter;
    var key := Key(step, attempt);
    KeyParts(step, Slot(attempt));
    SlotNotEmpty(attempt);
    if IsKeyOf(key, other) {
      if |other| < |step| {
        LengthsDiffer(key, |other|, |step|);
      } else if |step| < |other| {
        LengthsDiffer(key, |step|, |other|);
      }
      assert other == key[..|step|];
    }
  }

  lemma SlotNotEmpty(attempt: int)
    ensures |Slot(attempt)| > 0
  {}

  lemma SlotsHold(keys: set<string>, step: string, attempt: int)
    ensures Slot(attempt) in OpenSlots(keys, step) <==> Key(step, attempt) in keys
  {
    hide Slot, IsCharacter;
    KeyFits(step, attempt, step);
    if Slot(attempt) in OpenSlots(keys, step) {
      var key :| key in keys && IsKeyOf(key, step) && key[|step| + 1..] == Slot(attempt);
      assert key == key[..|step|] + [key[|step|]] + key[|step| + 1..];
      assert key == Key(step, attempt);
    }
  }

  lemma KeyAdded(keys: set<string>, step: string, attempt: int, other: string)
    ensures OpenKeys(keys + {Key(step, attempt)}, other) ==
            OpenKeys(keys, other) + if other == step then {Key(step, attempt)} else {}
    ensures OpenSlots(keys + {Key(step, attempt)}, other) ==
            OpenSlots(keys, other) + if other == step then {Slot(attempt)} else {}
  {
    hide Slot, Key, IsCharacter;
    KeyFits(step, attempt, other);
    var key, more := Key(step, attempt), keys + {Key(step, attempt)};
    if other == step {
      assert key in more && IsKeyOf(key, other);
      assert Slot(attempt) in OpenSlots(more, other);
    }
    forall c | c in OpenSlots(keys, other) ensures c in OpenSlots(more, other) {
      var k :| k in keys && IsKeyOf(k, other) && k[|other| + 1..] == c;
      assert k in more;
    }
  }

  lemma KeyRemoved(keys: set<string>, step: string, attempt: int, other: string)
    ensures OpenKeys(keys - {Key(step, attempt)}, other) ==
            OpenKeys(keys, other) - if other == step then {Key(step, attempt)} else {}
    ensures OpenSlots(keys - {Key(step, attempt)}, other) ==
            OpenSlots(keys, other) - if other == step then {Slot(attempt)} else {}
  {
    hide Slot, Key, IsCharacter;
    KeyFits(step, attempt, other);
    var key, less := Key(step, attempt), keys - {Key(step, attempt)};
    forall c | c in OpenSlots(keys, other) && (other == step ==> c != Slot(attempt)) ensures c in OpenSlots(less,
        other) {
      var k :| k in keys && IsKeyOf(k, other) && k[|other| + 1..] == c;
      assert k in less;
    }
    if other == step {
      SlotsHold(less, step, attempt);
    }
  }

  lemma OpenCounts(keys: set<string>, step: string, attempt: int, other: string)
    ensures |OpenKeys(keys + {Key(step, attempt)}, other)| <= |OpenKeys(keys, other)| + if other == step then 1 else 0
    ensures Key(step, attempt) in keys ==>
              |OpenKeys(keys - {Key(step, attempt)}, other)| == |OpenKeys(keys, other)| - if other == step then 1 else 0
  {
    hide Key, IsKeyOf;
    KeyAdded(keys, step, attempt, other);
    KeyRemoved(keys, step, attempt, other);
    KeyFits(step, attempt, other);
    if Key(step, attempt) in keys && other == step {
      assert Key(step, attempt) in OpenKeys(keys, other);
    }
  }

  // ----- Counting -----

  /** The text match by which a completion looks for its attempt. */
  predicate Matches(key: string, step: string) {
    |key| > |step| + 1 && key[..|step|] == step && key[|step|] == ':'
  }

  /** The result of looking for the attempt that a completion closes. */
  ghost predicate FoundRunning(running: set<string>, step: string, attempt: int) {
    || (attempt == 0 && forall key :: key in running ==> !Matches(key, step))
    || (exists key :: key in running && Matches(key, step) && attempt == DigitOf(key[|step| + 1]))
  }

  method FindRunningAttempt(running: set<string>, step: string) returns (attempt: int)
    ensures FoundRunning(running, step, attempt)
  {
    var rest := running;
    while rest != {}
      invariant rest <= running
      invariant forall key :: key in running - rest ==> !Matches(key, step)
    {
      var key :| key in rest;
      if |key| > |step| + 1 && key[..|step|] == step && key[|step|] == ':' {
        return DigitOf(key[|step| + 1]);
      }
      rest := rest - {key};
    }
    return 0;
  }

  /** Keys in use: each stands for an attempt that an event has started. */
  ghost predicate KeysFrom(keys: set<string>, ps: seq<Payload>) {
    forall key :: key in keys ==> exists p :: p in ps && IsStart(p) && key == Key(p.step, Normal(p.attempt))
  }

  /** With colon-free names and one open attempt, the match finds that attempt or nothing. */
  lemma MatchIsExact(keys: set<string>, ps: seq<Payload>, step: string, attempt: int)
    requires KeysFrom(keys, ps) && ColonFree(ps) && ShortAttempts(ps) && AtMostOne(OpenSlots(keys, step))
    requires FoundRunning(keys, step, attempt)
    ensures OpenSlots(keys, step) == if attempt == 0 then {} else {Slot(attempt)}
    ensures attempt != 0 ==> Key(step, attempt) in keys
  {
    hide Slot;
    if key :| key in keys && Matches(key, step) && attempt == DigitOf(key[|step| + 1]) {
      var p :| p in ps && IsStart(p) && key == Key(p.step, Normal(p.attempt));
      NameIsExact(p.step, step, Normal(p.attempt), attempt);
      SlotsHold(keys, step, attempt);
    } else {
      assert forall key :: key in keys ==> IsKeyOf(key, step) ==> Matches(key, step);
    }
  }

  /** A key of a colon-free name matches that name only. */
  lemma NameIsExact(name: string, step: string, attempt: int, read: int)
    requires ':' !in name && 0 < attempt < 80 && Matches(Key(name, attempt), step)
    requires read == DigitOf(Key(name, attempt)[|step| + 1])
    ensures name == step && read == attempt
  {
    var key := Key(name, attempt);
    assert forall i :: 0 <= i < |name| ==> key[i] == name[i] && name[i] != ':';
    assert key[..|name|] == name;
  }

  /**
    When a completion is counted, whatever order the map is searched in: exactly if some running key
    matches the step, and every key that does shows the digit of an attempt of the step that is running.
  */
  lemma CompletionCountedIff(running: set<string>, ps: seq<Payload>, step: string)
    requires KeysFrom(running, ps) && ShortAttempts(ps)
    ensures (forall found :: FoundRunning(running, step, found) ==> found != 0 && Key(step, found) in running) <==>
              && (exists key :: key in running && Matches(key, step))
              && (forall key :: key in running && Matches(key, step) ==> [key[|step| + 1]] in OpenSlots(running, step))
  {
    hide KeysFrom, Key, Slot, IsCharacter, OpenSlots, DigitOf;
    forall key | key in running && Matches(key, step)
      ensures var found := DigitOf(key[|step| + 1]);
              [key[|step| + 1]] in OpenSlots(running, step) <==> found != 0 && Key(step, found) in running
    {
      DigitReads(running, ps, step, key[|step| + 1]);
    }
    if !exists key :: key in running && Matches(key, step) {
      assert FoundRunning(running, step, 0);
    }
    forall key | key in running && Matches(key, step) ensures FoundRunning(running, step, DigitOf(key[|step| + 1])) {}
  }

  /** The byte at the digit's place leads back to a running key iff it is that key's digit. */
  lemma DigitReads(running: set<string>, ps: seq<Payload>, step: string, c: char)
    requires KeysFrom(running, ps) && ShortAttempts(ps)
    ensures [c] in OpenSlots(running, step) <==> DigitOf(c) != 0 && Key(step, DigitOf(c)) in running
  {
    hide OpenSlots, Key, KeysFrom, ShortAttempts, IsCharacter;
    SlotsHold(running, step, DigitOf(c));
    if [c] in OpenSlots(running, step) {
      var _ := OpenIsShort(running, ps, step, [c]);
    }
    if Key(step, DigitOf(c)) in running && DigitOf(c) != 0 {
      var _ := OpenIsShort(running, ps, step, Slot(DigitOf(c)));
    }
  }

  /** With short attempts every open slot is the one byte of its attempt. */
  lemma OpenIsShort(running: set<string>, ps: seq<Payload>, step: string, slot: string) returns (attempt: int)
    requires KeysFrom(running, ps) && ShortAttempts(ps) && slot in OpenSlots(running, step)
    ensures 0 < attempt < 80 && slot == [(48 + attempt) as char]
  {
    hide IsCharacter, Utf8, Key;
    var key :| key in running && IsKeyOf(key, step) && key[|step| + 1..] == slot;
    var p :| p in ps && IsStart(p) && key == Key(p.step, Normal(p.attempt));
    attempt := Normal(p.attempt);
    KeyFits(p.step, attempt, step);
  }

  /** Every attempt is counted once as completed, failed or running, and none is owed. */
  predicate Conserves(c: Counts) {
    c.total == c.completed + c.failed + c.running && 0 <= c.running && 0 <= c.completed && 0 <= c.failed
  }

  function StartsOf(step: string): Payload -> bool {
    p => IsStart(p) && p.step == step
  }

  function StartsIn(ps: seq<Payload>, step: string): nat {
    Count(StartsOf(step), ps)
  }

  /** Holds of the counts and the open keys on every list of events. */
  ghost predicate Counted(ps: seq<Payload>, result: map<string, Counts>, running: set<string>) {
    forall step :: CountedStep(ps, CountsOf(result, step), running, step)
  }

  ghost predicate CountedStep(ps: seq<Payload>, c: Counts, running: set<string>, step: string) {
    Conserves(c) && c.total == StartsIn(ps, step) && |OpenKeys(running, step)| <= c.running
  }

  /** Holds of them when nothing is ambiguous. */
  ghost predicate Tallied(ps: seq<Payload>, result: map<string, Counts>, running: set<string>) {
    forall step :: TalliedStep(TallyOf(ps, step), CountsOf(result, step), running, step)
  }

  ghost predicate TalliedStep(t: Tally, c: Counts, running: set<string>, step: string) {
    c == Totals(t) && OpenSlots(running, step) == t.open
  }

  ghost predicate Clear(ps: seq<Payload>) {
    ShortAttempts(ps) && ColonFree(ps) && OneOpen(ps)
  }

  lemma StartCountedStep(ps: seq<Payload>, n: nat, c: Counts, running: set<string>, step: string)
    requires n < |ps| && IsStart(ps[n]) && CountedStep(ps[..n], c, running, step)
    ensures CountedStep(ps[..n + 1], if step == ps[n].step then c.(total := c.total + 1,
            running := c.running + 1) else c,
                        running + {Key(ps[n].step, Normal(ps[n].attempt))}, step)
  {
    hide Key, OpenKeys, StartsIn;
    StartsPush(ps, n, step);
    OpenCounts(running, ps[n].step, Normal(ps[n].attempt), step);
  }

  lemma StartCounted(ps: seq<Payload>, n: nat, result: map<string, Counts>, running: set<string>,
                     more: map<string, Counts>, keys: set<string>)
    requires n < |ps| && IsStart(ps[n]) && Counted(ps[..n], result, running)
    requires var c := CountsOf(result, ps[n].step);
             more == result[ps[n].step := c.(total := c.total + 1, running := c.running + 1)]
    requires keys == running + {Key(ps[n].step, Normal(ps[n].attempt))}
    ensures Counted(ps[..n + 1], more, keys)
  {
    hide CountedStep, Key, Normal;
    forall step ensures CountedStep(ps[..n + 1], CountsOf(more, step), keys, step) {
      StartCountedStep(ps, n, CountsOf(result, step), running, step);
    }
  }

  lemma StartTallied(ps: seq<Payload>, n: nat, result: map<string, Counts>, running: set<string>,
                     more: map<string, Counts>, keys: set<string>)
    requires n < |ps| && IsStart(ps[n]) && Tallied(ps[..n], result, running)
    requires var c := CountsOf(result, ps[n].step);
             more == result[ps[n].step := c.(total := c.total + 1, running := c.running + 1)]
    requires keys == running + {Key(ps[n].step, Normal(ps[n].attempt))}
    ensures Tallied(ps[..n + 1], more, keys)
  {
    hide Key, OpenKeys, OpenSlots, IsKeyOf, Slot, StartsIn, TallyOf;
    forall step ensures TalliedStep(TallyOf(ps[..n + 1], step), CountsOf(more, step), keys, step) {
      assert TalliedStep(TallyOf(ps[..n], step), CountsOf(result, step), running, step);
      TallyPush(ps, n, step);
      KeyAdded(running, ps[n].step, Normal(ps[n].attempt), step);
    }
  }

  lemma StartsPush(ps: seq<Payload>, n: nat, step: string)
    requires n < |ps|
    ensures StartsIn(ps[..n + 1], step) ==
            StartsIn(ps[..n], step) + if IsStart(ps[n]) && ps[n].step == step then 1 else 0
  {
    assert ps[..n + 1] == ps[..n] + [ps[n]];
    FilterPush(StartsOf(step), ps[..n], ps[n]);
  }

  /** An event that starts nothing and closes nothing. */
  lemma SkipCounted(ps: seq<Payload>, n: nat, result: map<string, Counts>, running: set<string>)
    requires n < |ps| && !IsStart(ps[n]) && Counted(ps[..n], result, running)
    ensures Counted(ps[..n + 1], result, running)
  {
    hide Key, OpenKeys, OpenSlots, IsKeyOf, Slot, StartsIn, TallyOf;
    forall step ensures CountedStep(ps[..n + 1], CountsOf(result, step), running, step) {
      assert CountedStep(ps[..n], CountsOf(result, step), running, step);
      StartsPush(ps, n, step);
    }
  }

  lemma SkipTallied(ps: seq<Payload>, n: nat, result: map<string, Counts>, running: set<string>)
    requires n < |ps| && Tallied(ps[..n], result, running)
    requires forall step :: step == StepOf(ps[n]) ==> Next(TallyOf(ps[..n], step), ps[n], step) == TallyOf(ps[..n],
             step)
    ensures Tallied(ps[..n + 1], result, running)
  {
    hide Key, OpenKeys, OpenSlots, IsKeyOf, Slot, StartsIn, TallyOf;
    forall step ensures TalliedStep(TallyOf(ps[..n + 1], step), CountsOf(result, step), running, step) {
      assert TalliedStep(TallyOf(ps[..n], step), CountsOf(result, step), running, step);
      TallyPush(ps, n, step);
    }
  }

  lemma OtherTallied(ps: seq<Payload>, n: nat, result: map<string, Counts>, running: set<string>)
    requires n < |ps| && !IsStepEvent(ps[n]) && Tallied(ps[..n], result, running)
    ensures Tallied(ps[..n + 1], result, running)
  {
    hide Tallied;
    SkipTallied(ps, n, result, running);
  }

  /** The effect of one event, where a completion has found the attempt `found`. */
  function CountEvent(result: map<string, Counts>, running: set<string>, p: Payload, found: int)
    : (map<string, Counts>, set<string>)
  {
    match p
    case StepStarted(step, attempt, _, _) =>
      var c := CountsOf(result, step);
      (result[step := c.(total := c.total + 1, running := c.running + 1)], running + {Key(step, Normal(attempt))})
    case StepCompleted(step, _, _, _) =>
      if found != 0 && Key(step, found) in running then
        (result[step := Completing(CountsOf(result, step))], running - {Key(step, found)})
      else (result, running)
    case StepFailed(step, _, attempt, _, _, _) =>
      if Key(step, attempt) in running then
        (result[step := Failing(CountsOf(result, step))], running - {Key(step, attempt)})
      else (result, running)
    case _ => (result, running)
  }

  /** The counts that some order of searching the map gives. */
  ghost predicate CountsAs(ps: seq<Payload>, result: map<string, Counts>, running: set<string>) {
    if ps == [] then result == map[] && running == {}
    else
      var p := ps[|ps| - 1];
      exists before, keys, found {:trigger CountEvent(before, keys, p, found)} ::
        && CountsAs(ps[..|ps| - 1], before, keys)
        && (p.StepCompleted? ==> FoundRunning(keys, p.step, found))
        && CountEvent(before, keys, p, found) == (result, running)
  }

  lemma CountsPush(ps: seq<Payload>, n: nat, before: map<string, Counts>, keys: set<string>, found: int)
    requires n < |ps| && CountsAs(ps[..n], before, keys)
    requires ps[n].StepCompleted? ==> FoundRunning(keys, ps[n].step, found)
    ensures CountsAs(ps[..n + 1], CountEvent(before, keys, ps[n], found).0, CountEvent(before, keys, ps[n], found).1)
  {
    hide CountEvent, FoundRunning;
    assert ps[..n + 1][..n] == ps[..n];
  }

  predicate Closes(before: Counts, after: Counts) {
    after == before.(running := before.running - 1, completed := before.completed + 1) ||
    after == before.(running := before.running - 1, failed := before.failed + 1)
  }

  lemma CloseCountedStep(ps: seq<Payload>, n: nat, c: Counts, running: set<string>, name: string, attempt: int,
                         done: Counts, step: string)
    requires n < |ps| && !IsStart(ps[n]) && CountedStep(ps[..n], c, running, step) && Key(name, attempt) in running
    requires if step == name then Closes(c, done) else done == c
    ensures CountedStep(ps[..n + 1], done, running - {Key(name, attempt)}, step)
  {
    hide Key, OpenKeys, StartsIn;
    StartsPush(ps, n, step);
    OpenCounts(running, name, attempt, step);
  }

  /** Closing an open attempt moves one from running to completed or failed. */
  lemma CloseCounted(ps: seq<Payload>, n: nat, result: map<string, Counts>, running: set<string>, name: string,
                     attempt: int, done: Counts)
    requires n < |ps| && !IsStart(ps[n]) && Counted(ps[..n], result, running) && Key(name, attempt) in running
    requires Closes(CountsOf(result, name), done)
    ensures Counted(ps[..n + 1], result[name := done], running - {Key(name, attempt)})
  {
    hide CountedStep, Key, Closes;
    var less, after := running - {Key(name, attempt)}, result[name := done];
    forall step ensures CountedStep(ps[..n + 1], CountsOf(after, step), less, step) {
      CloseCountedStep(ps, n, CountsOf(result, step), running, name, attempt,
          if step == name then done else CountsOf(result, step),
                       step);
    }
  }

  lemma CloseTallied(ps: seq<Payload>, n: nat, result: map<string, Counts>, running: set<string>, name: string,
                     attempt: int, done: Counts)
    requires n < |ps| && Tallied(ps[..n], result, running)
    requires StepOf(ps[n]) == name && done == Totals(Next(TallyOf(ps[..n], name), ps[n], name))
    requires Next(TallyOf(ps[..n], name), ps[n], name).open == TallyOf(ps[..n], name).open - {Slot(attempt)}
    ensures Tallied(ps[..n + 1], result[name := done], running - {Key(name, attempt)})
  {
    hide Key, OpenKeys, OpenSlots, IsKeyOf, Slot, StartsIn, TallyOf;
    var less, after := running - {Key(name, attempt)}, result[name := done];
    forall step ensures TalliedStep(TallyOf(ps[..n + 1], step), CountsOf(after, step), less, step) {
      assert TalliedStep(TallyOf(ps[..n], step), CountsOf(result, step), running, step);
      TallyPush(ps, n, step);
      KeyRemoved(running, name, attempt, step);
    }
  }

  function Completing(c: Counts): Counts {
    c.(running := c.running - 1, completed := c.completed + 1)
  }

  function Failing(c: Counts): Counts {
    c.(running := c.running - 1, failed := c.failed + 1)
  }

  lemma CompletionTallied(ps: seq<Payload>, n: nat, result: map<string, Counts>, running: set<string>, attempt: int)
    requires n < |ps| && ps[n].StepCompleted? && ShortAttempts(ps) && KeysFrom(running, ps) && Clear(ps)
    requires Tallied(ps[..n], result, running) && FoundRunning(running, ps[n].step, attempt)
    ensures if attempt != 0 && Key(ps[n].step, attempt) in running then
              Tallied(ps[..n + 1], result[ps[n].step := Completing(CountsOf(result, ps[n].step))],
                      running - {Key(ps[n].step, attempt)})
            else Tallied(ps[..n + 1], result, running)
  {
    hide Key, OpenKeys, OpenSlots, IsKeyOf, Slot, TallyOf, FoundRunning, KeysFrom, ColonFree, ShortAttempts;
    var name := ps[n].step;
    var c := CountsOf(result, name);
    assert AtMostOne(TallyOf(ps[..n], name).open);
    assert TalliedStep(TallyOf(ps[..n], name), c, running, name);
    MatchIsExact(running, ps, name, attempt);
    if attempt != 0 {
      CloseTallied(ps, n, result, running, name, attempt, Completing(c));
    } else {
      SkipTallied(ps, n, result, running);
    }
  }

  lemma FailureTallied(ps: seq<Payload>, n: nat, result: map<string, Counts>, running: set<string>)
    requires n < |ps| && ps[n].StepFailed? && Tallied(ps[..n], result, running)
    ensures if Key(ps[n].step, ps[n].attempt) in running then
              Tallied(ps[..n + 1], result[ps[n].step := Failing(CountsOf(result, ps[n].step))],
                      running - {Key(ps[n].step, ps[n].attempt)})
            else Tallied(ps[..n + 1], result, running)
  {
    hide Key, OpenKeys, OpenSlots, IsKeyOf, Slot, TallyOf;
    var name, attempt := ps[n].step, ps[n].attempt;
    var c := CountsOf(result, name);
    assert TalliedStep(TallyOf(ps[..n], name), c, running, name);
    SlotsHold(running, name, attempt);
    if Key(name, attempt) in running {
      CloseTallied(ps, n, result, running, name, attempt, Failing(c));
    } else {
      SkipTallied(ps, n, result, running);
    }
  }

  lemma NothingYetStep(step: string)
    ensures CountedStep([], NO_COUNTS, {}, step) && TalliedStep(TallyOf([], step), NO_COUNTS, {}, step)
  {
    hide IsKeyOf;
    assert OpenKeys({}, step) == {} && OpenSlots({}, step) == {};
  }

  lemma NothingYet(ps: seq<Payload>)
    ensures Counted(ps[..0], map[], {}) && Tallied(ps[..0], map[], {}) && KeysFrom({}, ps)
    ensures CountsAs(ps[..0], map[], {})
  {
    hide CountedStep, TalliedStep, TallyOf;
    var none: map<string, Counts> := map[];
    assert ps[..0] == [];
    forall step ensures CountedStep([], CountsOf(none, step), {}, step) {
      NothingYetStep(step);
    }
    forall step ensures TalliedStep(TallyOf([], step), CountsOf(none, step), {}, step) {
      NothingYetStep(step);
    }
  }

  lemma StartedKey(keys: set<string>, ps: seq<Payload>, n: nat)
    requires n < |ps| && IsStart(ps[n]) && KeysFrom(keys, ps)
    ensures KeysFrom(keys + {Key(ps[n].step, Normal(ps[n].attempt))}, ps)
  {
    hide Key;
    assert ps[n] in ps;
  }

  lemma FewerKeys(keys: set<string>, fewer: set<string>, ps: seq<Payload>)
    requires fewer <= keys && KeysFrom(keys, ps)
    ensures KeysFrom(fewer, ps)
  {
    hide Key;
  }

  lemma Conclude(ps: seq<Payload>, result: map<string, Counts>, running: set<string>)
    requires Counted(ps, result, running)
    ensures forall step :: Conserves(CountsOf(result, step)) && CountsOf(result, step).total == StartsIn(ps, step)
    ensures Tallied(ps, result, running) ==> forall step :: CountsOf(result, step) == Totals(TallyOf(ps, step))
  {
    hide StartsIn, TallyOf, OpenKeys, OpenSlots, Totals, CountsOf;
    forall step ensures Conserves(CountsOf(result, step)) && CountsOf(result, step).total == StartsIn(ps, step) {
      assert CountedStep(ps, CountsOf(result, step), running, step);
    }
    if Tallied(ps, result, running) {
      forall step ensures CountsOf(result, step) == Totals(TallyOf(ps, step)) {
        assert TalliedStep(TallyOf(ps, step), CountsOf(result, step), running, step);
      }
    }
  }

  method StepCounts(ps: seq<Payload>) returns (result: map<string, Counts>)
    ensures exists running :: CountsAs(ps, result, running)
    ensures forall step :: Conserves(CountsOf(result, step)) && CountsOf(result, step).total == StartsIn(ps, step)
    ensures ShortAttempts(ps) && ColonFree(ps) && OneOpen(ps) ==>
              forall step :: CountsOf(result, step) == Totals(TallyOf(ps, step))
  {
    hide Counted, CountedStep, CountsAs, Tallied, Key, TallyOf, Next, OneOpen, ColonFree, ShortAttempts, KeysFrom,
      Matches, DigitOf, FoundRunning, OpenKeys, OpenSlots, Totals, Conserves;
    result := map[];
    var running: set<string> := {};
    NothingYet(ps);
    for i := 0 to |ps|
      invariant Counted(ps[..i], result, running) && KeysFrom(running, ps) && CountsAs(ps[..i], result, running)
      invariant Clear(ps) ==> Tallied(ps[..i], result, running)
    {
      var p := ps[i];
      var was, keys := result, running;
      ghost var found := 0;
      if p.StepStarted? {
        var attempt := if p.attempt == 0 then 1 else p.attempt;
        var counts := CountsOf(result, p.step);
        result := result[p.step := counts.(total := counts.total + 1, running := counts.running + 1)];
        running := running + {Key(p.step, attempt)};
        StartCounted(ps, i, was, keys, result, running);
        if Clear(ps) { StartTallied(ps, i, was, keys, result, running); }
        StartedKey(keys, ps, i);
      } else if p.StepCompleted? {
        var attempt := FindRunningAttempt(running, p.step);
        found := attempt;
        if Clear(ps) { CompletionTallied(ps, i, result, running, attempt); }
        var key := Key(p.step, attempt);
        if attempt != 0 && key in running {
          var done := Completing(CountsOf(result, p.step));
          CloseCounted(ps, i, result, running, p.step, attempt, done);
          result := result[p.step := done];
          running := running - {key};
          FewerKeys(keys, running, ps);
        } else {
          SkipCounted(ps, i, result, running);
        }
      } else if p.StepFailed? {
        if Clear(ps) { FailureTallied(ps, i, result, running); }
        var key := Key(p.step, p.attempt);
        if key in running {
          var done := Failing(CountsOf(result, p.step));
          CloseCounted(ps, i, result, running, p.step, p.attempt, done);
          result := result[p.step := done];
          running := running - {key};
          FewerKeys(keys, running, ps);
        } else {
          SkipCounted(ps, i, result, running);
        }
      } else {
        SkipCounted(ps, i, result, running);
        if Clear(ps) { OtherTallied(ps, i, result, running); }
      }
      CountsPush(ps, i, was, keys, found);
    }
    assert ps[..|ps|] == ps;
    Conclude(ps, result, running);
  }

  // ----- Listing -----

  /** The result of looking for a pending attempt of a step. */
  ghost predicate FoundPending(pending: map<string, Pending>, step: string, attempt: int) {
    || (attempt == 0 && forall key :: key in pending ==> pending[key].step != step)
    || (exists key :: key in pending && pending[key].step == step && attempt == pending[key].attempt)
  }

  method FindPendingAttempt(pending: map<string, Pending>, step: string) returns (attempt: int)
    ensures FoundPending(pending, step, attempt)
  {
    var rest := pending.Keys;
    while rest != {}
      invariant rest <= pending.Keys
      invariant forall key :: key in pending && key !in rest ==> pending[key].step != step
    {
      var key :| key in rest;
      if pending[key].step == step {
        return pending[key].attempt;
      }
      rest := rest - {key};
    }
    return 0;
  }

  /** One entry per start event, in order. */
  ghost predicate ListsStarts(ps: seq<Payload>, vs: seq<Invocation>) {
    && |vs| == |Filter(IsStart, ps)|
    && forall i :: 0 <= i < |vs| ==> StartsAs(Filter(IsStart, ps)[i], vs[i])
  }

  predicate StartsAs(p: Payload, v: Invocation) {
    IsStart(p) && v.step == p.step && v.attempt == Normal(p.attempt)
  }

  /** A pending entry points at its own invocation, which no other pending entry points at. */
  ghost predicate Linked(vs: seq<Invocation>, pending: map<string, Pending>) {
    && (forall key :: key in pending ==> LinkedEntry(vs, key, pending[key]))
    && (forall a, b :: a in pending && b in pending && pending[a].index == pending[b].index ==> a == b)
  }

  predicate LinkedEntry(vs: seq<Invocation>, key: string, q: Pending) {
    key == Key(q.step, q.attempt) && q.attempt != 0 && q.index < |vs| &&
    vs[q.index].step == q.step && vs[q.index].attempt == q.attempt && vs[q.index].outcome == Started
  }

  ghost predicate Listed(ps: seq<Payload>, vs: seq<Invocation>, open: set<string>) {
    forall step :: ListedStep(TallyOf(ps, step), vs, open, step)
  }

  ghost predicate ListedStep(t: Tally, vs: seq<Invocation>, open: set<string>, step: string) {
    ListedAs(t, vs, step) && OpenSlots(open, step) == t.open
  }

  predicate ListedAs(t: Tally, vs: seq<Invocation>, step: string) {
    && CountOf(vs, step, Completed) == t.completed
    && CountOf(vs, step, Failed) == t.failed
    && CountOf(vs, step, Retrying) == t.retried
    && CountOf(vs, step, Started) == t.total - t.completed - t.failed - t.retried
  }

  lemma StartListed(ps: seq<Payload>, n: nat, vs: seq<Invocation>, open: set<string>, v: Invocation)
    requires n < |ps| && Listed(ps[..n], vs, open) && v.outcome == Started && StartsAs(ps[n], v)
    ensures Listed(ps[..n + 1], vs + [v], open + {Key(v.step, v.attempt)})
  {
    hide Key, OpenKeys, OpenSlots, IsKeyOf, Slot, TallyOf, CountOf;
    var now, longer, more := ps[..n + 1], vs + [v], open + {Key(v.step, v.attempt)};
    forall step ensures ListedStep(TallyOf(now, step), longer, more, step) {
      assert ListedStep(TallyOf(ps[..n], step), vs, open, step);
      TallyPush(ps, n, step);
      KeyAdded(open, v.step, v.attempt, step);
      CountPush(vs, v, step, Completed);
      CountPush(vs, v, step, Failed);
      CountPush(vs, v, step, Retrying);
      CountPush(vs, v, step, Started);
    }
  }

  lemma StartLinked(vs: seq<Invocation>, pending: map<string, Pending>, v: Invocation)
    requires Linked(vs, pending) && v.outcome == Started && v.attempt != 0
    ensures Linked(vs + [v], pending[Key(v.step, v.attempt) := Pending(v.step, v.attempt, |vs|)])
  {
    hide Key;
    var more := pending[Key(v.step, v.attempt) := Pending(v.step, v.attempt, |vs|)];
    forall key | key in more ensures LinkedEntry(vs + [v], key, more[key]) {
      if key != Key(v.step, v.attempt) {
        assert LinkedEntry(vs, key, pending[key]);
      }
    }
  }

  /** How an event ends the invocation it closes. */
  function Closed(v: Invocation, p: Payload): Invocation
    requires p.StepCompleted? || p.StepFailed?
  {
    if p.StepCompleted? then v.(outcome := Completed)
    else v.(outcome := if p.willRetry then Retrying else Failed, error := Some(p.error))
  }

  lemma CloseListed(ps: seq<Payload>, n: nat, vs: seq<Invocation>, pending: map<string, Pending>, attempt: int)
    requires n < |ps| && (ps[n].StepCompleted? || (ps[n].StepFailed? && ps[n].attempt == attempt))
    requires Listed(ps[..n], vs, pending.Keys) && Linked(vs, pending) && Key(ps[n].step, attempt) in pending
    requires AtMostOne(TallyOf(ps[..n], ps[n].step).open)
    ensures var i := pending[Key(ps[n].step, attempt)].index;
            i < |vs| && Listed(ps[..n + 1], vs[i := Closed(vs[i], ps[n])], pending.Keys - {Key(ps[n].step, attempt)})
  {
    hide OpenKeys, OpenSlots, IsKeyOf, Slot, TallyOf, CountOf, Key;
    var name, key := ps[n].step, Key(ps[n].step, attempt);
    assert LinkedEntry(vs, key, pending[key]);
    KeyFits(name, attempt, name);
    KeyFits(pending[key].step, pending[key].attempt, name);
    SlotsHold(pending.Keys, name, attempt);
    var i := pending[key].index;
    var v, less := Closed(vs[i], ps[n]), pending.Keys - {key};
    var now, changed := ps[..n + 1], vs[i := v];
    forall step ensures ListedStep(TallyOf(now, step), changed, less, step) {
      assert ListedStep(TallyOf(ps[..n], step), vs, pending.Keys, step);
      TallyPush(ps, n, step);
      KeyRemoved(pending.Keys, name, attempt, step);
      CountSet(vs, i, v, step, Completed);
      CountSet(vs, i, v, step, Failed);
      CountSet(vs, i, v, step, Retrying);
      CountSet(vs, i, v, step, Started);
    }
  }

  lemma CloseLinked(vs: seq<Invocation>, pending: map<string, Pending>, key: string, v: Invocation)
    requires Linked(vs, pending) && key in pending
    ensures var i := pending[key].index; i < |vs| && Linked(vs[i := v], pending - {key})
  {
    hide Key;
    assert LinkedEntry(vs, key, pending[key]);
    var i, less := pending[key].index, pending - {key};
    forall k | k in less ensures LinkedEntry(vs[i := v], k, less[k]) {
      assert LinkedEntry(vs, k, pending[k]) && pending[k].index != i;
    }
  }

  lemma SkipListed(ps: seq<Payload>, n: nat, vs: seq<Invocation>, open: set<string>)
    requires n < |ps| && Listed(ps[..n], vs, open)
    requires Next(TallyOf(ps[..n], StepOf(ps[n])), ps[n], StepOf(ps[n])) == TallyOf(ps[..n], StepOf(ps[n]))
    ensures Listed(ps[..n + 1], vs, open)
  {
    hide OpenSlots, TallyOf, CountOf;
    var now := ps[..n + 1];
    forall step ensures ListedStep(TallyOf(now, step), vs, open, step) {
      assert ListedStep(TallyOf(ps[..n], step), vs, open, step);
      TallyPush(ps, n, step);
    }
  }

  lemma OtherListed(ps: seq<Payload>, n: nat, vs: seq<Invocation>, open: set<string>)
    requires n < |ps| && Listed(ps[..n], vs, open) && !IsStepEvent(ps[n])
    ensures Listed(ps[..n + 1], vs, open)
  {
    hide Listed;
    SkipListed(ps, n, vs, open);
  }

  /** Without a pending attempt to close, a closing event changes nothing. */
  lemma IdleListed(ps: seq<Payload>, n: nat, vs: seq<Invocation>, pending: map<string, Pending>, attempt: int)
    requires n < |ps| && Listed(ps[..n], vs, pending.Keys) && Linked(vs, pending)
    requires || (ps[n].StepFailed? && attempt == ps[n].attempt && Key(ps[n].step, attempt) !in pending)
             || (ps[n].StepCompleted? && forall key :: key in pending ==> pending[key].step != ps[n].step)
    ensures Listed(ps[..n + 1], vs, pending.Keys)
  {
    hide Key, IsKeyOf, Slot, TallyOf, CountOf;
    var name := ps[n].step;
    assert ListedStep(TallyOf(ps[..n], name), vs, pending.Keys, name);
    if ps[n].StepFailed? {
      SlotsHold(pending.Keys, name, attempt);
    } else {
      forall key | key in pending ensures !IsKeyOf(key, name) {
        assert LinkedEntry(vs, key, pending[key]);
        KeyFits(pending[key].step, pending[key].attempt, name);
      }
    }
    SkipListed(ps, n, vs, pending.Keys);
  }

  lemma FoundIsOpen(vs: seq<Invocation>, pending: map<string, Pending>, step: string, attempt: int)
    requires Linked(vs, pending) && FoundPending(pending, step, attempt)
    ensures attempt != 0 <==> Key(step, attempt) in pending
    ensures attempt == 0 ==> forall key :: key in pending ==> pending[key].step != step
  {
    hide Key;
    if attempt == 0 {
      forall key | key in pending ensures pending[key].step != step {
        assert LinkedEntry(vs, key, pending[key]);
      }
      if Key(step, attempt) in pending {
        var q := pending[Key(step, attempt)];
        assert LinkedEntry(vs, Key(step, attempt), q);
        KeyFits(step, attempt, q.step);
        KeyFits(q.step, q.attempt, q.step);
      }
    } else {
      var key :| key in pending && pending[key].step == step && attempt == pending[key].attempt;
      assert LinkedEntry(vs, key, pending[key]);
    }
  }

  lemma StartsPushed(ps: seq<Payload>, n: nat, vs: seq<Invocation>, v: Invocation)
    requires n < |ps| && ListsStarts(ps[..n], vs) && StartsAs(ps[n], v)
    ensures ListsStarts(ps[..n + 1], vs + [v])
  {
    assert ps[..n + 1] == ps[..n] + [ps[n]];
    FilterPush(IsStart, ps[..n], ps[n]);
  }

  lemma StartsKept(ps: seq<Payload>, n: nat, vs: seq<Invocation>)
    requires n < |ps| && ListsStarts(ps[..n], vs) && !IsStart(ps[n])
    ensures ListsStarts(ps[..n + 1], vs)
  {
    assert ps[..n + 1] == ps[..n] + [ps[n]];
    FilterPush(IsStart, ps[..n], ps[n]);
  }

  lemma StartsStay(ps: seq<Payload>, vs: seq<Invocation>, i: nat, v: Invocation)
    requires ListsStarts(ps, vs) && i < |vs| && v.step == vs[i].step && v.attempt == vs[i].attempt
    ensures ListsStarts(ps, vs[i := v])
  {
    assert StartsAs(Filter(IsStart, ps)[i], vs[i]);
  }

  lemma NothingListed(ps: seq<Payload>)
    ensures Listed(ps[..0], [], {}) && Linked([], map[]) && ListsStarts(ps[..0], [])
  {
    hide TallyOf, OpenSlots, ListedAs;
    assert ps[..0] == [];
    forall step ensures ListedStep(TallyOf([], step), [], {}, step) {
      NothingListedStep(step);
    }
  }

  lemma NothingListedStep(step: string)
    ensures ListedStep(TallyOf([], step), [], {}, step)
  {
    hide IsKeyOf;
    assert OpenSlots({}, step) == {};
  }

  lemma EntryAt(vs: seq<Invocation>, pending: map<string, Pending>, key: string)
    requires Linked(vs, pending) && key in pending
    ensures pending[key].index < |vs| && (pending - {key}).Keys == pending.Keys - {key}
  {
    hide Key;
    assert LinkedEntry(vs, key, pending[key]);
  }

  lemma ListedSummary(ps: seq<Payload>, vs: seq<Invocation>, open: set<string>)
    requires Listed(ps, vs, open)
    ensures forall step :: ListedAs(TallyOf(ps, step), vs, step) && Summary(vs, step) == Totals(TallyOf(ps, step))
  {
    hide OpenSlots, TallyOf, CountOf;
    forall step ensures ListedAs(TallyOf(ps, step), vs, step) && Summary(vs, step) == Totals(TallyOf(ps, step)) {
      assert ListedStep(TallyOf(ps, step), vs, open, step);
    }
  }

  // ----- What became of each attempt -----

  /** What settles an attempt: its step completes, or the same attempt fails or starts once more. */
  predicate Settles(start: Payload, p: Payload)
    requires IsStart(start)
  {
    && (p.StepStarted? || p.StepCompleted? || p.StepFailed?) && p.step == start.step
    && (p.StepFailed? ==> Slot(p.attempt) == Slot(Normal(start.attempt)))
    && (p.StepStarted? ==> Slot(Normal(p.attempt)) == Slot(Normal(start.attempt)))
  }

  /** The first event after the start at `k` that settles it. */
  function SettledBy(ps: seq<Payload>, k: nat): (end: Option<Payload>)
    requires k < |ps| && IsStart(ps[k])
    ensures end.Some? ==> Settles(ps[k], end.value)
  {
    var n := |ps| - 1;
    if k == n then None
    else
      var before := SettledBy(ps[..n], k);
      if before.Some? then before else if Settles(ps[k], ps[n]) then Some(ps[n]) else None
  }

  predicate FirstSettles(ps: seq<Payload>, k: nat, j: int)
    requires k < |ps| && IsStart(ps[k])
  {
    k < j < |ps| && Settles(ps[k], ps[j]) && forall i :: k < i < j ==> !Settles(ps[k], ps[i])
  }

  lemma {:induction false} SettledByFirst(ps: seq<Payload>, k: nat)
    requires k < |ps| && IsStart(ps[k])
    ensures SettledBy(ps, k).None? <==> forall i :: k < i < |ps| ==> !Settles(ps[k], ps[i])
    ensures SettledBy(ps, k).Some? ==> exists j :: FirstSettles(ps, k, j) && SettledBy(ps, k) == Some(ps[j])
  {
    hide Settles;
    var n := |ps| - 1;
    if k < n {
      SettledByFirst(ps[..n], k);
      LastSettles(ps, k);
      hide SettledBy, FirstSettles;
      assert forall i :: k < i < n ==> ps[i] == ps[..n][i];
      if SettledBy(ps[..n], k).Some? {
        var j :| FirstSettles(ps[..n], k, j) && SettledBy(ps[..n], k) == Some(ps[..n][j]);
        FirstStays(ps, k, j);
      }
    }
  }

  lemma LastSettles(ps: seq<Payload>, k: nat)
    requires k < |ps| - 1 && IsStart(ps[k])
    ensures var n := |ps| - 1; var before := SettledBy(ps[..n], k);
            SettledBy(ps, k) == if before.Some? then before else if Settles(ps[k], ps[n]) then Some(ps[n]) else None
    ensures var n := |ps| - 1;
            Settles(ps[k], ps[n]) && (forall i :: k < i < n ==> !Settles(ps[k], ps[i])) ==> FirstSettles(ps, k, n)
  {
    hide Settles;
  }

  lemma FirstStays(ps: seq<Payload>, k: nat, j: int)
    requires k < |ps| - 1 && IsStart(ps[k]) && FirstSettles(ps[..|ps| - 1], k, j)
    ensures FirstSettles(ps, k, j) && ps[j] == ps[..|ps| - 1][j]
    ensures !forall i :: k < i < |ps| ==> !Settles(ps[k], ps[i])
  {
    hide Settles;
    assert Settles(ps[k], ps[j]);
  }

  /** The invocation that began at `k`: it is what the event that settles it makes of it. */
  function InvocationAt(ps: seq<Payload>, k: nat): Invocation
    requires k < |ps| && IsStart(ps[k])
  {
    var v := Invocation(ps[k].step, Normal(ps[k].attempt), Started, None);
    match SettledBy(ps, k)
    case None => v
    case Some(p) => if p.StepStarted? then v else Closed(v, p)
  }

  /** Where the attempts start. */
  function Starts(ps: seq<Payload>): (at: seq<nat>)
    ensures forall i :: 0 <= i < |at| ==> at[i] < |ps| && IsStart(ps[at[i]])
  {
    if ps == [] then []
    else
      var n := |ps| - 1;
      Starts(ps[..n]) + if IsStart(ps[n]) then [n] else []
  }

  lemma {:induction false} StartsAll(ps: seq<Payload>)
    ensures forall i, j :: 0 <= i < j < |Starts(ps)| ==> Starts(ps)[i] < Starts(ps)[j]
    ensures forall k :: k in Starts(ps) <==> 0 <= k < |ps| && IsStart(ps[k])
  {
    if ps != [] {
      StartsAll(ps[..|ps| - 1]);
    }
  }

  /** The list holds each start's invocation. */
  ghost predicate Accounts(ps: seq<Payload>, vs: seq<Invocation>) {
    |vs| == |Starts(ps)| && forall i :: 0 <= i < |vs| ==> vs[i] == InvocationAt(ps, Starts(ps)[i])
  }

  /** An entry is right, and pending exactly as long as nothing settled its attempt. */
  ghost predicate EntryFits(ps: seq<Payload>, k: nat, v: Invocation, i: nat, pending: map<string, Pending>)
    requires k < |ps| && IsStart(ps[k])
  {
    && v == InvocationAt(ps, k)
    && (SettledBy(ps, k).None? <==> Key(v.step, v.attempt) in pending && pending[Key(v.step, v.attempt)].index == i)
  }

  ghost predicate Follows(ps: seq<Payload>, vs: seq<Invocation>, pending: map<string, Pending>) {
    |vs| == |Starts(ps)| && forall i :: 0 <= i < |vs| ==> EntryFits(ps, Starts(ps)[i], vs[i], i, pending)
  }

  lemma SettledPush(ps: seq<Payload>, p: Payload, k: nat)
    requires k < |ps| && IsStart(ps[k])
    ensures SettledBy(ps + [p], k) ==
            if SettledBy(ps, k).Some? then SettledBy(ps, k) else if Settles(ps[k], p) then Some(p) else None
  {
    hide Settles;
    assert (ps + [p])[..|ps|] == ps;
  }

  lemma PositionsPush(ps: seq<Payload>, p: Payload)
    ensures Starts(ps + [p]) == Starts(ps) + if IsStart(p) then [|ps|] else []
  {
    assert (ps + [p])[..|ps|] == ps;
  }

  lemma SameKey(step: string, attempt: int, other: string, otherAttempt: int)
    ensures Key(step, attempt) == Key(other, otherAttempt) <==> step == other && Slot(attempt) == Slot(otherAttempt)
  {
    hide Slot, IsKeyOf;
    KeyFits(step, attempt, step);
    KeyFits(other, otherAttempt, step);
    KeyFits(other, otherAttempt, other);
  }

  /** An entry when one more event comes, if it then is pending just when it was and the event does not settle it. */
  lemma EntryPush(ps: seq<Payload>, p: Payload, k: nat, v: Invocation, i: nat, pending: map<string, Pending>,
      more: map<string, Pending>)
    requires k < |ps| && IsStart(ps[k]) && EntryFits(ps, k, v, i, pending)
    requires var key, open := Key(v.step, v.attempt), SettledBy(ps, k).None?;
             (key in more && more[key].index == i) <==> open && !Settles(ps[k], p)
    ensures var open := SettledBy(ps, k).None?;
            var now := if open && Settles(ps[k], p) && !p.StepStarted? then Closed(v, p) else v;
            EntryFits(ps + [p], k, now, i, more)
  {
    hide Settles, Key;
    SettledPush(ps, p, k);
    SettlesEnds(ps[k], p);
  }

  lemma SettlesEnds(start: Payload, p: Payload)
    requires IsStart(start)
    ensures Settles(start, p) ==> p.StepStarted? || p.StepCompleted? || p.StepFailed?
  {}

  lemma StartFollows(ps: seq<Payload>, vs: seq<Invocation>, pending: map<string, Pending>, p: Payload, v: Invocation)
    requires Follows(ps, vs, pending) && Linked(vs, pending)
    requires IsStart(p) && v == Invocation(p.step, Normal(p.attempt), Started, None)
    ensures Follows(ps + [p], vs + [v], pending[Key(v.step, v.attempt) := Pending(v.step, v.attempt, |vs|)])
  {
    hide Key, Slot, EntryFits;
    var key := Key(v.step, v.attempt);
    var more := pending[key := Pending(v.step, v.attempt, |vs|)];
    PositionsPush(ps, p);
    forall i | 0 <= i < |vs| ensures EntryFits(ps + [p], Starts(ps)[i], vs[i], i, more) {
      var k := Starts(ps)[i];
      assert EntryFits(ps, k, vs[i], i, pending);
      OpenEntry(ps, k, vs[i], i, pending);
      SameKey(vs[i].step, vs[i].attempt, v.step, v.attempt);
      EntryPush(ps, p, k, vs[i], i, pending, more);
    }
    NewEntry(ps, p, |vs|, more);
  }

  lemma NewEntry(ps: seq<Payload>, p: Payload, i: nat, pending: map<string, Pending>)
    requires IsStart(p) && Key(p.step, Normal(p.attempt)) in pending
    requires pending[Key(p.step, Normal(p.attempt))].index == i
    ensures EntryFits(ps + [p], |ps|, Invocation(p.step, Normal(p.attempt), Started, None), i, pending)
  {
    hide Key;
  }

  lemma OpenEntry(ps: seq<Payload>, k: nat, v: Invocation, i: nat, pending: map<string, Pending>)
    requires k < |ps| && IsStart(ps[k]) && EntryFits(ps, k, v, i, pending)
    ensures v.step == ps[k].step && v.attempt == Normal(ps[k].attempt)
    ensures SettledBy(ps, k).None? <==> Key(v.step, v.attempt) in pending && pending[Key(v.step, v.attempt)].index == i
  {
    hide Key, SettledBy;
  }

  /** With one attempt open, a closing event settles the entry whose key it takes off and no other. */
  lemma CloseFollows(ps: seq<Payload>, vs: seq<Invocation>, pending: map<string, Pending>, p: Payload, attempt: int)
    requires Follows(ps, vs, pending) && Linked(vs, pending)
    requires (p.StepCompleted? || (p.StepFailed? && p.attempt == attempt)) && Key(p.step, attempt) in pending
    requires AtMostOne(OpenSlots(pending.Keys, p.step))
    ensures var e := pending[Key(p.step, attempt)].index;
            e < |vs| && Follows(ps + [p], vs[e := Closed(vs[e], p)], pending - {Key(p.step, attempt)})
  {
    hide Key, Slot, EntryFits, OpenSlots;
    var key := Key(p.step, attempt);
    var e, less := pending[key].index, pending - {key};
    assert LinkedEntry(vs, key, pending[key]);
    PositionsPush(ps, p);
    var now := vs[e := Closed(vs[e], p)];
    SlotsHold(pending.Keys, p.step, attempt);
    SameKey(p.step, attempt, vs[e].step, vs[e].attempt);
    forall i | 0 <= i < |vs| ensures EntryFits(ps + [p], Starts(ps)[i], now[i], i, less) {
      var k := Starts(ps)[i];
      assert EntryFits(ps, k, vs[i], i, pending);
      OpenEntry(ps, k, vs[i], i, pending);
      SameKey(vs[i].step, vs[i].attempt, p.step, attempt);
      SlotsHold(pending.Keys, vs[i].step, vs[i].attempt);
      EntryPush(ps, p, k, vs[i], i, pending, less);
    }
  }

  /** An event that settles no pending attempt changes no entry. */
  lemma KeepFollows(ps: seq<Payload>, vs: seq<Invocation>, pending: map<string, Pending>, p: Payload)
    requires Follows(ps, vs, pending) && Linked(vs, pending) && !IsStart(p)
    requires p.StepCompleted? ==> forall key :: key in pending ==> pending[key].step != p.step
    requires p.StepFailed? ==> Key(p.step, p.attempt) !in pending
    ensures Follows(ps + [p], vs, pending)
  {
    hide Key, Slot, EntryFits;
    PositionsPush(ps, p);
    forall i | 0 <= i < |vs| ensures EntryFits(ps + [p], Starts(ps)[i], vs[i], i, pending) {
      var k := Starts(ps)[i];
      assert EntryFits(ps, k, vs[i], i, pending);
      OpenEntry(ps, k, vs[i], i, pending);
      if SettledBy(ps, k).None? {
        assert LinkedEntry(vs, Key(vs[i].step, vs[i].attempt), pending[Key(vs[i].step, vs[i].attempt)]);
        if p.StepFailed? { SameKey(vs[i].step, vs[i].attempt, p.step, p.attempt); }
      }
      EntryPush(ps, p, k, vs[i], i, pending, pending);
    }
  }

  lemma FollowsAccounts(ps: seq<Payload>, vs: seq<Invocation>, pending: map<string, Pending>)
    requires Follows(ps, vs, pending)
    ensures Accounts(ps, vs)
  {
    hide InvocationAt, SettledBy;
    forall i | 0 <= i < |vs| ensures vs[i] == InvocationAt(ps, Starts(ps)[i]) {
      assert EntryFits(ps, Starts(ps)[i], vs[i], i, pending);
    }
  }

  lemma OpenAsTallied(ps: seq<Payload>, n: nat, vs: seq<Invocation>, open: set<string>, step: string)
    requires OneOpen(ps) && n < |ps| && Listed(ps[..n], vs, open)
    ensures AtMostOne(OpenSlots(open, step))
  {
    hide OpenSlots, TallyOf, ListedAs;
    assert ListedStep(TallyOf(ps[..n], step), vs, open, step);
    assert AtMostOne(TallyOf(ps[..n], step).open);
  }

  lemma NothingFollows()
    ensures Follows([], [], map[])
  {}

  lemma CloseTold(ps: seq<Payload>, n: nat, vs: seq<Invocation>, pending: map<string, Pending>, attempt: int)
    requires OneOpen(ps) && n < |ps| && (ps[n].StepCompleted? || (ps[n].StepFailed? && ps[n].attempt == attempt))
    requires Listed(ps[..n], vs, pending.Keys) && Linked(vs, pending) && Key(ps[n].step, attempt) in pending
    requires Follows(ps[..n], vs, pending)
    ensures var i := pending[Key(ps[n].step, attempt)].index;
            && i < |vs|
            && Listed(ps[..n + 1], vs[i := Closed(vs[i], ps[n])], pending.Keys - {Key(ps[n].step, attempt)})
            && Follows(ps[..n + 1], vs[i := Closed(vs[i], ps[n])], pending - {Key(ps[n].step, attempt)})
  {
    hide Listed, Linked, Follows, OpenSlots, AtMostOne, Key;
    assert AtMostOne(TallyOf(ps[..n], ps[n].step).open);
    CloseListed(ps, n, vs, pending, attempt);
    OpenAsTallied(ps, n, vs, pending.Keys, ps[n].step);
    CloseFollows(ps[..n], vs, pending, ps[n], attempt);
    assert ps[..n + 1] == ps[..n] + [ps[n]];
  }

  lemma IdleTold(ps: seq<Payload>, n: nat, vs: seq<Invocation>, pending: map<string, Pending>, attempt: int)
    requires n < |ps| && Listed(ps[..n], vs, pending.Keys) && Linked(vs, pending) && Follows(ps[..n], vs, pending)
    requires || (ps[n].StepFailed? && attempt == ps[n].attempt && Key(ps[n].step, attempt) !in pending)
             || (ps[n].StepCompleted? && forall key :: key in pending ==> pending[key].step != ps[n].step)
    ensures Listed(ps[..n + 1], vs, pending.Keys) && Follows(ps[..n + 1], vs, pending)
  {
    hide Listed, Linked, Follows, Key;
    IdleListed(ps, n, vs, pending, attempt);
    KeepFollows(ps[..n], vs, pending, ps[n]);
    assert ps[..n + 1] == ps[..n] + [ps[n]];
  }

  method StepInvocations(ps: seq<Payload>) returns (vs: seq<Invocation>)
    ensures ListsStarts(ps, vs)
    ensures OneOpen(ps) ==> forall step :: ListedAs(TallyOf(ps, step), vs, step) &&
                                           Summary(vs, step) == Totals(TallyOf(ps, step))
    ensures OneOpen(ps) ==> Accounts(ps, vs)
  {
    hide OneOpen, AtMostOne, OpenSlots, Follows, Accounts;
    hide ListsStarts, Linked, Listed, Key, TallyOf, Next, FoundPending, Totals, Summary, ListedAs;
    vs := [];
    var pending: map<string, Pending> := map[];
    NothingListed(ps);
    assert pending.Keys == {};
    assert Follows(ps[..0], vs, pending) by { assert ps[..0] == []; NothingFollows(); }
    for i := 0 to |ps|
      invariant ListsStarts(ps[..i], vs) && Linked(vs, pending)
      invariant OneOpen(ps) ==> Listed(ps[..i], vs, pending.Keys) && Follows(ps[..i], vs, pending)
    {
      var p := ps[i];
      assert ps[..i + 1] == ps[..i] + [p];
      if p.StepStarted? {
        var attempt := if p.attempt == 0 then 1 else p.attempt;
        var v := Invocation(p.step, attempt, Started, None);
        StartsPushed(ps, i, vs, v);
        StartLinked(vs, pending, v);
        if OneOpen(ps) {
          StartListed(ps, i, vs, pending.Keys, v);
          StartFollows(ps[..i], vs, pending, p, v);
        }
        var key := Key(p.step, attempt);
        assert pending[key := Pending(p.step, attempt, |vs|)].Keys == pending.Keys + {key};
        pending := pending[key := Pending(p.step, attempt, |vs|)];
        vs := vs + [v];
      } else if p.StepCompleted? {
        StartsKept(ps, i, vs);
        var attempt := FindPendingAttempt(pending, p.step);
        FoundIsOpen(vs, pending, p.step, attempt);
        var key := Key(p.step, attempt);
        if attempt != 0 && key in pending {
          EntryAt(vs, pending, key);
          CloseLinked(vs, pending, key, Closed(vs[pending[key].index], p));
          StartsStay(ps[..i + 1], vs, pending[key].index, Closed(vs[pending[key].index], p));
          if OneOpen(ps) { CloseTold(ps, i, vs, pending, attempt); }
          var at := pending[key].index;
          vs := vs[at := vs[at].(outcome := Completed)];
          pending := pending - {key};
        } else if OneOpen(ps) {
          IdleTold(ps, i, vs, pending, attempt);
        }
      } else if p.StepFailed? {
        StartsKept(ps, i, vs);
        var key := Key(p.step, p.attempt);
        if key in pending {
          EntryAt(vs, pending, key);
          CloseLinked(vs, pending, key, Closed(vs[pending[key].index], p));
          StartsStay(ps[..i + 1], vs, pending[key].index, Closed(vs[pending[key].index], p));
          if OneOpen(ps) { CloseTold(ps, i, vs, pending, p.attempt); }
          var at := pending[key].index;
          vs := vs[at := vs[at].(outcome := if p.willRetry then Retrying else Failed, error := Some(p.error))];
          pending := pending - {key};
        } else if OneOpen(ps) {
          IdleTold(ps, i, vs, pending, p.attempt);
        }
      } else {
        StartsKept(ps, i, vs);
        if OneOpen(ps) {
          OtherListed(ps, i, vs, pending.Keys);
          KeepFollows(ps[..i], vs, pending, p);
        }
      }
    }
    assert ps[..|ps|] == ps;
    if OneOpen(ps) {
      ListedSummary(ps, vs, pending.Keys);
      FollowsAccounts(ps, vs, pending);
    }
  }
}

/** What executions look like in the projections, and what goes wrong when names or attempts are ambiguous. */
module Tallies {
  import opened Events
  import opened Definitions
  import opened Engine
  import opened Executions
  import opened Projections

  function After(ps: seq<Payload>, qs: seq<Payload>, step: string): Tally {
    TallyOf(ps + qs, step)
  }

  lemma AfterPush(ps: seq<Payload>, qs: seq<Payload>, n: nat, step: string)
    requires n < |qs|
    ensures After(ps, qs[..n + 1], step) == Next(After(ps, qs[..n], step), qs[n], step)
  {
    assert ps + qs[..n + 1] == ps + qs[..n] + [qs[n]];
    TallyPush(ps + qs[..n + 1], |ps + qs[..n]|, step);
    assert (ps + qs[..n + 1])[..|ps + qs[..n]|] == ps + qs[..n];
  }

  /** Retried attempts are counted as started and retried, and leave nothing open. */
  lemma {:induction false} RetriedTallies(ps: seq<Payload>, s: Step, choice: string, events: seq<Payload>, k: nat)
    requires Retried(s, choice, events, k) && TallyOf(ps, s.Label(choice)).open == {}
    ensures var t := TallyOf(ps, s.Label(choice));
            After(ps, events, s.Label(choice)) == t.(total := t.total + k, retried := t.retried + k)
    decreases k
  {
    hide TallyOf;
    var step := s.Label(choice);
    if k == 0 {
      assert ps + events == ps;
    } else {
      var n := 2 * k;
      RetriedTallies(ps, s, choice, events[..n - 2], k - 1);
      AfterPush(ps, events, n - 2, step);
      AfterPush(ps, events, n - 1, step);
      assert events[..n] == events;
      var t := After(ps, events[..n - 2], step);
      assert t.open + {Slot(k)} - {Slot(k)} == {};
    }
  }

  /** The attempt that follows them is open. */
  lemma AttemptingTallies(ps: seq<Payload>, s: Step, choice: string, events: seq<Payload>, k: nat)
    requires Attempting(s, choice, events, k) && TallyOf(ps, s.Label(choice)).open == {}
    ensures var t := TallyOf(ps, s.Label(choice));
            After(ps, events, s.Label(choice)) == t.(total := t.total + k + 1, retried := t.retried + k,
                open := {Slot(k + 1)})
  {
    hide TallyOf, Slot, Retried;
    var n := 2 * k;
    RetriedTallies(ps, s, choice, events[..n], k);
    AfterPush(ps, events, n, s.Label(choice));
    assert events[..n + 1] == events;
  }

  /**
    An execution that begins with nothing open is tallied as what it was: its retried attempts,
    then one completed or failed attempt and nothing open, or one attempt left open by a wait.
  */
  lemma ExecutionTallies(ps: seq<Payload>, s: Step, choice: string, events: seq<Payload>, ending: Ending, k: nat)
    requires EndedAt(s, choice, events, ending, k) && TallyOf(ps, s.Label(choice)).open == {}
    ensures var t := TallyOf(ps, s.Label(choice));
            var tried := t.(total := t.total + k + 1, retried := t.retried + k);
            After(ps, events, s.Label(choice)) ==
            match ending
            case Succeeded(_) => tried.(completed := t.completed + 1)
            case Failed(_) => tried.(failed := t.failed + 1)
            case Waiting => tried.(open := {Slot(k + 1)})
            case Cancelled => t.(total := t.total + k, retried := t.retried + k)
  {
    hide TallyOf, Slot, Retried, Attempting, After;
    match ending
    case Cancelled => RetriedTallies(ps, s, choice, events, k);
    case Waiting => AttemptingTallies(ps, s, choice, events, k);
    case _ =>
      var n := 2 * k + 1;
      AttemptingTallies(ps, s, choice, events[..n], k);
      AfterPush(ps, events, n, s.Label(choice));
      assert events[..n + 1] == events;
      assert {Slot(k + 1)} - {Slot(k + 1)} == {};
  }

  /** A wait after a retry, resumed: the new execution counts from 1 again while attempt 2 is still open. */
  lemma ResumedWaitOpensTwo(step: string, error: string)
    ensures TallyOf(Resumed(step, error), step).open == {"1", "2"} && !OneOpen(Resumed(step, error))
  {
    var ps := Resumed(step, error);
    TallyPush(ps, 0, step);
    TallyPush(ps, 1, step);
    TallyPush(ps, 2, step);
    TallyPush(ps, 3, step);
    assert ps[..0] == [] && ps[..4] == ps;
    assert TallyOf(ps[..1], step).open == {"1"};
    assert TallyOf(ps[..2], step).open == {};
    assert TallyOf(ps[..3], step).open == {"2"};
    assert "1" in TallyOf(ps[..4], step).open && "2" in TallyOf(ps[..4], step).open;
  }

  function Resumed(step: string, error: string): seq<Payload> {
    [StepStarted(step, 1, "", ""), StepFailed(step, error, 1, true, "", ""), StepStarted(step, 2, "", ""),
     StepStarted(step, 1, "", "")]
  }

  lemma CountMore(ps: seq<Payload>, before: map<string, Counts>, keys: set<string>, p: Payload, found: int)
    requires CountsAs(ps, before, keys) && (p.StepCompleted? ==> FoundRunning(keys, p.step, found))
    ensures CountsAs(ps + [p], CountEvent(before, keys, p, found).0, CountEvent(before, keys, p, found).1)
  {
    hide CountEvent, FoundRunning, CountsAs;
    assert (ps + [p])[..|ps|] == ps;
    CountsPush(ps + [p], |ps|, before, keys, found);
    assert (ps + [p])[..|ps| + 1] == ps + [p];
  }

  lemma NothingCounted()
    ensures CountsAs([], map[], {})
  {}

  /** Some order of searching the map counts the events so. */
  ghost predicate MayCount(ps: seq<Payload>, step: string, counts: Counts) {
    exists result, running :: CountsAs(ps, result, running) && CountsOf(result, step) == counts
  }

  lemma DigitKeys(step: string)
    ensures Key(step, 1) != Key(step, 2)
    ensures Matches(Key(step, 1), step) && Matches(Key(step, 2), step)
    ensures DigitOf(Key(step, 1)[|step| + 1]) == 1 && DigitOf(Key(step, 2)[|step| + 1]) == 2
  {
    KeyParts(step, Slot(1));
    KeyParts(step, Slot(2));
  }

  /** The counts of a resumed wait: three attempts, one retried, two running. */
  lemma ResumedCounts(step: string, error: string)
    ensures exists result :: CountsAs(Resumed(step, error), result, {Key(step, 1), Key(step, 2)}) &&
                             CountsOf(result, step) == Counts(3, 0, 1, 2)
  {
    var ps, k1, k2 := Resumed(step, error), Key(step, 1), Key(step, 2);
    DigitKeys(step);
    hide Key;
    var none: map<string, Counts> := map[];
    CountMore([], none, {}, ps[0], 0);
    var a := CountEvent(none, {}, ps[0], 0);
    assert a.1 == {k1} && CountsOf(a.0, step) == Counts(1, 0, 0, 1);
    CountMore([] + [ps[0]], a.0, a.1, ps[1], 0);
    var b := CountEvent(a.0, a.1, ps[1], 0);
    assert b.1 == {} && CountsOf(b.0, step) == Counts(1, 0, 1, 0);
    CountMore([] + [ps[0]] + [ps[1]], b.0, b.1, ps[2], 0);
    var c := CountEvent(b.0, b.1, ps[2], 0);
    assert c.1 == {k2} && CountsOf(c.0, step) == Counts(2, 0, 1, 1);
    CountMore([] + [ps[0]] + [ps[1]] + [ps[2]], c.0, c.1, ps[3], 0);
    var d := CountEvent(c.0, c.1, ps[3], 0);
    assert d.1 == {k1, k2} && CountsOf(d.0, step) == Counts(3, 0, 1, 2);
    assert [] + [ps[0]] + [ps[1]] + [ps[2]] + [ps[3]] == ps;
  }

  /**
    Two open attempts may be miscounted. Here the completion may be credited to attempt 1 or to
    attempt 2, and then the failure of attempt 1 is counted or not.
  */
  lemma TwoOpenMayMiscount(step: string, error: string)
    ensures var ps := Resumed(step, error) + [StepCompleted(step, None, "", "")]
                      + [StepFailed(step, error, 1, false, "", "")];
            MayCount(ps, step, Counts(3, 1, 1, 1)) && MayCount(ps, step, Counts(3, 1, 2, 0))
  {
    var start, done := Resumed(step, error), StepCompleted(step, None, "", "");
    var failed := StepFailed(step, error, 1, false, "", "");
    var k1, k2 := Key(step, 1), Key(step, 2);
    ResumedCounts(step, error);
    DigitKeys(step);
    TwoOpenAreAmbiguous(step);
    hide Key, CountsAs, FoundRunning, Resumed;
    var result :| CountsAs(start, result, {k1, k2}) && CountsOf(result, step) == Counts(3, 0, 1, 2);
    CountMore(start, result, {k1, k2}, done, 1);
    CountMore(start, result, {k1, k2}, done, 2);
    var a, b := CountEvent(result, {k1, k2}, done, 1), CountEvent(result, {k1, k2}, done, 2);
    assert a.1 == {k2} && b.1 == {k1};
    CountMore(start + [done], a.0, a.1, failed, 0);
    CountMore(start + [done], b.0, b.1, failed, 0);
    assert CountsOf(CountEvent(a.0, a.1, failed, 0).0, step) == Counts(3, 1, 1, 1);
    assert CountsOf(CountEvent(b.0, b.1, failed, 0).0, step) == Counts(3, 1, 2, 0);
  }

  /** With two attempts open the search may find either. */
  lemma TwoOpenAreAmbiguous(step: string)
    ensures var running := {Key(step, 1), Key(step, 2)};
            FoundRunning(running, step, 1) && FoundRunning(running, step, 2)
  {
    DigitKeys(step);
    hide Key, Matches, DigitOf;
    var running := {Key(step, 1), Key(step, 2)};
    assert Key(step, 1) in running && Key(step, 2) in running;
  }

  /** The key of a step whose name holds a colon may answer for another step. */
  lemma ColonNameAnswersForAnother(step: string, rest: string)
    requires rest != "" && DigitOf(rest[0]) != 1
    ensures var running := {Key(step, 1), Key(step + ":" + rest, 1)};
            FoundRunning(running, step, 1) && FoundRunning(running, step, DigitOf(rest[0]))
            && Key(step, DigitOf(rest[0])) !in running
  {
    var name, found := step + ":" + rest, DigitOf(rest[0]);
    var other := Key(name, 1);
    DigitKeys(step);
    ColonNameMatches(step, rest);
    OnlyOneReadsOne(rest[0]);
    NameIsLonger(step, rest);
    hide Key, Matches, DigitOf, Slot, IsCharacter;
    KeyFits(name, 1, step);
    KeyFits(step, found, step);
    KeyFits(step, 1, step);
    var running := {Key(step, 1), other};
    assert Key(step, 1) in running && other in running;
  }

  lemma NameIsLonger(step: string, rest: string)
    ensures step + ":" + rest != step
  {
    assert |step + ":" + rest| > |step|;
  }

  lemma ColonNameMatches(step: string, rest: string)
    requires rest != ""
    ensures var other := Key(step + ":" + rest, 1); Matches(other, step) && other[|step| + 1] == rest[0]
  {
    hide Slot;
    var other, tail := Key(step + ":" + rest, 1), rest + ":" + Slot(1);
    KeyParts(step, tail);
    assert other == step + ":" + tail;
    assert tail[0] == rest[0];
  }

  lemma OnlyOneReadsOne(c: char)
    requires DigitOf(c) != 1
    ensures Slot(DigitOf(c)) != Slot(1)
  {
    assert Slot(1) == "1";
  }

  /** A completion of that step may then go uncounted, though nothing else of the step is open. */
  lemma ColonNameMayLoseACompletion(step: string, rest: string)
    requires rest != "" && DigitOf(rest[0]) != 1
    ensures var ps := [StepStarted(step, 1, "", "")] + [StepStarted(step + ":" + rest, 1, "", "")]
                      + [StepCompleted(step, None, "", "")];
            MayCount(ps, step, Counts(1, 1, 0, 0)) && MayCount(ps, step, Counts(1, 0, 0, 1))
  {
    var name, found := step + ":" + rest, DigitOf(rest[0]);
    var first, second := StepStarted(step, 1, "", ""), StepStarted(name, 1, "", "");
    var done := StepCompleted(step, None, "", "");
    ColonNameAnswersForAnother(step, rest);
    NameIsLonger(step, rest);
    hide Key, FoundRunning, DigitOf, CountsAs;
    assert CountsAs([], map[], {}) by { NothingCounted(); }
    var none: map<string, Counts> := map[];
    CountMore([], none, {}, first, 0);
    assert [] + [first] == [first];
    var a := CountEvent(none, {}, first, 0);
    CountMore([first], a.0, a.1, second, 0);
    var b := CountEvent(a.0, a.1, second, 0);
    assert b.1 == {Key(step, 1), Key(name, 1)} && CountsOf(b.0, step) == Counts(1, 0, 0, 1);
    CountMore([first] + [second], b.0, b.1, done, 1);
    CountMore([first] + [second], b.0, b.1, done, found);
    assert CountsOf(CountEvent(b.0, b.1, done, 1).0, step) == Counts(1, 1, 0, 0);
    assert CountsOf(CountEvent(b.0, b.1, done, found).0, step) == Counts(1, 0, 0, 1);
  }
}
