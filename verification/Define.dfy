/** Dependency graphs of steps: order and cycles. */
module Graphs {
  import opened Events
  import opened Definitions

  /** `b` is a dependency of the step named `a`. */
  ghost predicate Edge(steps: seq<Step>, a: string, b: string) {
    exists i :: 0 <= i < |steps| && steps[i].name == a && b in steps[i].deps
  }

  /** Each name of a walk depends on the next. */
  ghost predicate Walk(steps: seq<Step>, p: seq<string>) {
    forall i, j :: 0 <= i < j < |p| && j == i + 1 ==> Edge(steps, p[i], p[j])
  }

  /** A walk along dependencies that comes back to its start. */
  ghost predicate Cycle(steps: seq<Step>, p: seq<string>) {
    |p| >= 2 && p[0] == p[|p| - 1] && Walk(steps, p)
  }

  ghost predicate Acyclic(steps: seq<Step>) {
    forall p :: !Cycle(steps, p)
  }

  ghost predicate NoRepeats(order: seq<string>) {
    forall i, j :: 0 <= i < j < |order| ==> order[i] != order[j]
  }

  /** Every edge from a listed name leads to a name listed before it. */
  ghost predicate Topological(steps: seq<Step>, order: seq<string>) {
    forall i, d :: 0 <= i < |order| && Edge(steps, order[i], d) ==> d in order[..i]
  }

  /** A list of all the names, once each, dependencies first. */
  ghost predicate IsOrder(steps: seq<Step>, order: seq<string>) {
    NoRepeats(order) && (forall n :: n in order <==> n in Names(steps)) && Topological(steps, order)
  }

  ghost predicate KnownDependencies(steps: seq<Step>) {
    forall i, d :: 0 <= i < |steps| && d in steps[i].deps ==> d in Names(steps)
  }

  ghost predicate DependsInto(steps: seq<Step>, a: string, nodes: set<string>) {
    exists b :: b in nodes && Edge(steps, a, b)
  }

  /** Every name in the set depends on a name in the set. */
  ghost predicate Stuck(steps: seq<Step>, nodes: set<string>) {
    forall a :: a in nodes ==> DependsInto(steps, a, nodes)
  }

  lemma Successor(steps: seq<Step>, nodes: set<string>, a: string) returns (b: string)
    requires DependsInto(steps, a, nodes)
    ensures b in nodes && Edge(steps, a, b)
  {
    b :| b in nodes && Edge(steps, a, b);
  }

  lemma {:induction false} WalkDescends(steps: seq<Step>, order: seq<string>, p: seq<string>, i: nat)
    requires Topological(steps, order) && |p| >= 1 && i < |order| && p[0] == order[i]
    requires Walk(steps, p)
    ensures |p| >= 2 ==> p[|p| - 1] in order[..i]
    decreases |p|
  {
    if |p| >= 2 {
      assert Edge(steps, p[0], p[1]);
      var j :| 0 <= j < i && order[j] == p[1];
      WalkDescends(steps, order, p[1..], j);
      assert order[j] in order[..i] && order[..j] <= order[..i];
    }
  }

  /** A topological order of all names rules out cycles. */
  lemma OrderMeansAcyclic(steps: seq<Step>, order: seq<string>)
    requires IsOrder(steps, order)
    ensures Acyclic(steps)
  {
    forall p ensures !Cycle(steps, p) {
      if Cycle(steps, p) {
        assert Edge(steps, p[0], p[1]);
        assert p[0] in Names(steps);
        var i :| 0 <= i < |order| && order[i] == p[0];
        WalkDescends(steps, order, p, i);
      }
    }
  }

  lemma {:induction false} LongWalk(steps: seq<Step>, nodes: set<string>, start: string,
      n: nat) returns (p: seq<string>)
    requires Stuck(steps, nodes) && start in nodes
    ensures |p| == n + 1 && p[0] == start && (forall i :: 0 <= i < |p| ==> p[i] in nodes)
    ensures Walk(steps, p)
    decreases n
  {
    hide Edge, DependsInto;
    if n == 0 {
      p := [start];
    } else {
      var next := Successor(steps, nodes, start);
      var rest := LongWalk(steps, nodes, next, n - 1);
      p := [start] + rest;
    }
  }

  lemma {:induction false} Pigeonhole(p: seq<string>, nodes: set<string>) returns (i: nat, j: nat)
    requires |p| > |nodes| && forall k :: 0 <= k < |p| ==> p[k] in nodes
    ensures i < j < |p| && p[i] == p[j]
    decreases |nodes|
  {
    var last := p[|p| - 1];
    if k :| 0 <= k < |p| - 1 && p[k] == last {
      i, j := k, |p| - 1;
    } else {
      i, j := Pigeonhole(p[..|p| - 1], nodes - {last});
    }
  }

  /** A nonempty set whose every member depends on a member contains a cycle. */
  lemma StuckHasCycle(steps: seq<Step>, nodes: set<string>)
    requires Stuck(steps, nodes) && nodes != {}
    ensures !Acyclic(steps)
  {
    hide Edge, Stuck;
    var start :| start in nodes;
    var p := LongWalk(steps, nodes, start, |nodes|);
    var i, j := Pigeonhole(p, nodes);
    var c := p[i..j + 1];
    assert forall k :: 0 <= k < |c| ==> c[k] == p[i + k];
    assert Cycle(steps, c);
  }
}

/** Building workflow definitions: validation and Kahn's algorithm. */
module Defining {
  import opened Events
  import opened Definitions
  import opened Graphs

  datatype SortResult = Sorted(order: seq<string>) | CycleDetected(nodes: set<string>)

  /** How many entries of a dependency list are not among the names done. */
  function Pending(deps: seq<string>, done: set<string>): nat {
    if deps == [] then 0
    else Pending(deps[..|deps| - 1], done) + if deps[|deps| - 1] in done then 0 else 1
  }

  lemma {:induction false} PendingZero(deps: seq<string>, done: set<string>)
    ensures Pending(deps, done) == 0 <==> forall d :: d in deps ==> d in done
  {
    if deps != [] {
      PendingZero(deps[..|deps| - 1], done);
      assert deps == deps[..|deps| - 1] + [deps[|deps| - 1]];
    }
  }

  lemma {:induction false} PendingNothing(deps: seq<string>)
    ensures Pending(deps, {}) == |deps|
  {
    if deps != [] {
      PendingNothing(deps[..|deps| - 1]);
    }
  }

  /** Finishing one more name settles its entries, however often it is repeated. */
  lemma {:induction false} PendingLess(deps: seq<string>, done: set<string>, u: string)
    requires u !in done
    ensures Pending(deps, done + {u}) == Pending(deps, done) - multiset(deps)[u]
  {
    if deps != [] {
      var init, last := deps[..|deps| - 1], deps[|deps| - 1];
      PendingLess(init, done, u);
      assert deps == init + [last];
    }
  }

  function DepsOf(steps: seq<Step>): map<string, seq<string>> {
    if steps == [] then map[] else DepsOf(steps[..|steps| - 1])[steps[|steps| - 1].name := steps[|steps| - 1].deps]
  }

  lemma {:induction false} DepsOfStep(steps: seq<Step>, i: nat)
    requires DistinctNames(steps) && i < |steps|
    ensures steps[i].name in DepsOf(steps) && DepsOf(steps)[steps[i].name] == steps[i].deps
  {
    if i < |steps| - 1 {
      DepsOfStep(steps[..|steps| - 1], i);
    }
  }

  lemma {:induction false} DepsOfKeys(steps: seq<Step>)
    ensures DepsOf(steps).Keys == Names(steps)
  {
    if steps != [] {
      DepsOfKeys(steps[..|steps| - 1]);
      forall n | n in Names(steps) ensures n in DepsOf(steps) {
        var i :| 0 <= i < |steps| && steps[i].name == n;
        assert i < |steps| - 1 ==> steps[..|steps| - 1][i].name == n;
      }
      forall n | n in Names(steps[..|steps| - 1]) ensures n in Names(steps) {
        var i :| 0 <= i < |steps| - 1 && steps[..|steps| - 1][i].name == n;
        assert steps[i].name == n;
      }
      assert steps[|steps| - 1].name in Names(steps);
    }
  }

  lemma EdgeIsDep(steps: seq<Step>, a: string, b: string)
    requires DistinctNames(steps)
    ensures Edge(steps, a, b) <==> a in DepsOf(steps) && b in DepsOf(steps)[a]
  {
    DepsOfKeys(steps);
    if a in Names(steps) {
      var i :| 0 <= i < |steps| && steps[i].name == a;
      DepsOfStep(steps, i);
      if Edge(steps, a, b) {
        var j :| 0 <= j < |steps| && steps[j].name == a && b in steps[j].deps;
        DepsOfStep(steps, j);
      }
    }
  }

  function Listed(dependents: map<string, seq<string>>, u: string): seq<string> {
    if u in dependents then dependents[u] else []
  }

  /** `dependents[u]` lists `v` as often as `v` repeats `u` among its dependencies. */
  ghost predicate Reversed(dependents: map<string, seq<string>>, deps: map<string, seq<string>>) {
    forall u, v :: multiset(Listed(dependents, u))[v] == if v in deps then multiset(deps[v])[u] else 0
  }

  method BuildDependents(steps: seq<Step>) returns (inDegree: map<string, int>, dependents: map<string, seq<string>>)
    requires DistinctNames(steps)
    ensures inDegree.Keys == Names(steps)
    ensures forall v :: v in inDegree ==> v in DepsOf(steps) && inDegree[v] == |DepsOf(steps)[v]|
    ensures Reversed(dependents, DepsOf(steps))
  {
    DepsOfKeys(steps);
    inDegree, dependents := map[], map[];
    assert Reversed(dependents, DepsOf(steps[..0]));
    hide Reversed;
    for i := 0 to |steps|
      invariant inDegree.Keys == DepsOf(steps[..i]).Keys
      invariant forall v :: v in inDegree ==> inDegree[v] == |DepsOf(steps[..i])[v]|
      invariant Reversed(dependents, DepsOf(steps[..i]))
    {
      var name, deps := steps[i].name, steps[i].deps;
      ghost var before := DepsOf(steps[..i]);
      assert steps[..i + 1][..i] == steps[..i];
      assert DepsOf(steps[..i + 1]) == before[name := deps];
      assert name !in before by { NotYet(steps, i); }
      inDegree := inDegree[name := |deps|];
      NoneAddedYet(dependents, before, name);
      assert deps[..0] == [];
      for k := 0 to |deps|
        invariant Reversed(dependents, before[name := deps[..k]])
      {
        dependents := AddDependent(dependents, before[name := deps[..k]], name, deps[k]);
        assert deps[..k + 1] == deps[..k] + [deps[k]];
        assert before[name := deps[..k]][name := deps[..k] + [deps[k]]] == before[name := deps[..k + 1]];
      }
      assert deps[..|deps|] == deps;
    }
    assert steps[..|steps|] == steps;
  }

  lemma NoneAddedYet(dependents: map<string, seq<string>>, deps: map<string, seq<string>>, name: string)
    requires Reversed(dependents, deps) && name !in deps
    ensures Reversed(dependents, deps[name := []])
  {
    forall u, v ensures multiset(Listed(dependents,
        u))[v] == if v in deps[name := []] then multiset(deps[name := []][v])[u] else 0 {
      assert multiset(Listed(dependents, u))[v] == if v in deps then multiset(deps[v])[u] else 0;
    }
  }

  lemma NotYet(steps: seq<Step>, i: nat)
    requires DistinctNames(steps) && i < |steps|
    ensures steps[i].name !in DepsOf(steps[..i])
  {
    DepsOfKeys(steps[..i]);
  }

  method AddDependent(dependents: map<string, seq<string>>, ghost deps: map<string, seq<string>>, name: string,
      dep: string)
    returns (r: map<string, seq<string>>)
    requires Reversed(dependents, deps) && name in deps
    ensures Reversed(r, deps[name := deps[name] + [dep]])
  {
    r := dependents[dep := Listed(dependents, dep) + [name]];
    ghost var after := deps[name := deps[name] + [dep]];
    forall u, v ensures multiset(Listed(r, u))[v] == if v in after then multiset(after[v])[u] else 0 {
      assert multiset(Listed(dependents, u))[v] == if v in deps then multiset(deps[v])[u] else 0;
      assert Listed(r, u) == if u == dep then Listed(dependents, u) + [name] else Listed(dependents, u);
    }
  }

  /** The names processed or queued are, once each, just those with no pending dependency entries. */
  ghost predicate Fronted(seen: seq<string>, inDegree: map<string, int>) {
    && NoRepeats(seen)
    && (forall v :: v in seen ==> v in inDegree)
    && (forall v :: v in inDegree ==> (v in seen <==> inDegree[v] == 0))
  }

  ghost predicate Counted(inDegree: map<string, int>, deps: map<string, seq<string>>, done: set<string>) {
    inDegree.Keys == deps.Keys && forall v :: v in deps ==> inDegree[v] == Pending(deps[v], done)
  }

  /** Processed names have their dependencies processed before them. */
  ghost predicate InOrder(order: seq<string>, deps: map<string, seq<string>>) {
    forall i :: 0 <= i < |order| ==> order[i] in deps && forall d :: d in deps[order[i]] ==> d in order[..i]
  }

  function Elements(order: seq<string>): set<string> {
    set n | n in order
  }

  lemma PendingAtLeast(deps: seq<string>, done: set<string>, u: string)
    requires u !in done
    ensures Pending(deps, done) >= multiset(deps)[u]
  {
    PendingLess(deps, done, u);
  }

  lemma FrontedStep(seen: seq<string>, inDegree: map<string, int>, v: string)
    requires Fronted(seen, inDegree) && v in inDegree && inDegree[v] >= 1
    ensures var lower := inDegree[v := inDegree[v] - 1];
            Fronted(if lower[v] == 0 then seen + [v] else seen, lower)
  {
    var lower := inDegree[v := inDegree[v] - 1];
    assert v !in seen;
    forall u | u in lower ensures (u in (if lower[v] == 0 then seen + [v] else seen)) <==> lower[u] == 0 {
      assert u in seen <==> inDegree[u] == 0;
    }
  }

  /** The in-degrees after the first few dependents have been handled. */
  ghost predicate Lowered(inDegree: map<string, int>, inDegree0: map<string, int>, handled: seq<string>) {
    inDegree.Keys == inDegree0.Keys && forall v :: v in inDegree ==> inDegree[v] == inDegree0[v] - multiset(handled)[v]
  }

  lemma LoweredMeansCounted(ds: seq<string>, inDegree: map<string, int>, inDegree0: map<string, int>,
                            deps: map<string, seq<string>>, done: set<string>, current: string)
    requires current !in done && Counted(inDegree0, deps, done) && Lowered(inDegree, inDegree0, ds)
    requires forall v :: multiset(ds)[v] == if v in deps then multiset(deps[v])[current] else 0
    ensures Counted(inDegree, deps, done + {current})
  {
    forall v | v in deps ensures inDegree[v] == Pending(deps[v], done + {current}) {
      PendingLess(deps[v], done, current);
    }
  }

  /** A dependent still to be handled has not reached zero yet. */
  lemma StillPositive(ds: seq<string>, k: nat, inDegree: map<string, int>, inDegree0: map<string, int>,
                      deps: map<string, seq<string>>, done: set<string>, current: string)
    requires k < |ds| && current !in done && Counted(inDegree0, deps, done) && Lowered(inDegree, inDegree0, ds[..k])
    requires forall v :: multiset(ds)[v] == if v in deps then multiset(deps[v])[current] else 0
    ensures ds[k] in inDegree && inDegree[ds[k]] >= 1
  {
    var v := ds[k];
    assert ds == ds[..k] + [v] + ds[k + 1..];
    assert multiset(ds)[v] > multiset(ds[..k])[v];
    PendingAtLeast(deps[v], done, current);
  }

  /** Reduce the in-degrees of the dependents of `current`; those that reach zero join the queue. */
  method ReleaseDependents(ds: seq<string>, inDegree0: map<string, int>, ghost seen0: seq<string>,
                           ghost deps: map<string, seq<string>>, ghost done: set<string>, ghost current: string)
    returns (inDegree: map<string, int>, released: seq<string>)
    requires current !in done && Counted(inDegree0, deps, done) && Fronted(seen0, inDegree0)
    requires forall v :: multiset(ds)[v] == if v in deps then multiset(deps[v])[current] else 0
    ensures Counted(inDegree, deps, done + {current}) && Fronted(seen0 + released, inDegree)
  {
    hide Fronted, Counted;
    inDegree, released := inDegree0, [];
    assert seen0 + [] == seen0;
    for k := 0 to |ds|
      invariant Lowered(inDegree, inDegree0, ds[..k])
      invariant Fronted(seen0 + released, inDegree)
    {
      var dependent := ds[k];
      assert ds[..k + 1] == ds[..k] + [dependent];
      StillPositive(ds, k, inDegree, inDegree0, deps, done, current);
      FrontedStep(seen0 + released, inDegree, dependent);
      inDegree := inDegree[dependent := inDegree[dependent] - 1];
      if inDegree[dependent] == 0 {
        assert seen0 + (released + [dependent]) == seen0 + released + [dependent];
        released := released + [dependent];
      }
    }
    assert ds[..|ds|] == ds;
    LoweredMeansCounted(ds, inDegree, inDegree0, deps, done, current);
  }

  /** The names without dependencies, in whatever order the map hands them out. */
  method Sources(inDegree: map<string, int>) returns (queue: seq<string>)
    ensures Fronted(queue, inDegree)
  {
    queue := [];
    var rest := inDegree.Keys;
    while rest != {}
      invariant rest <= inDegree.Keys && NoRepeats(queue)
      invariant forall v :: v in queue <==> v in inDegree && v !in rest && inDegree[v] == 0
      decreases rest
    {
      var name :| name in rest;
      rest := rest - {name};
      if inDegree[name] == 0 {
        queue := queue + [name];
      }
    }
  }

  /** The state of Kahn's algorithm between two names. */
  ghost predicate Sorting(order: seq<string>, queue: seq<string>, inDegree: map<string, int>,
                          deps: map<string, seq<string>>) {
    Counted(inDegree, deps, Elements(order)) && Fronted(order + queue, inDegree) && InOrder(order, deps)
  }

  /** Move the head of the queue to the order and release its dependents. */
  method ProcessHead(order0: seq<string>, queue0: seq<string>, inDegree0: map<string, int>,
                     dependents: map<string, seq<string>>, ghost deps: map<string, seq<string>>)
    returns (order: seq<string>, queue: seq<string>, inDegree: map<string, int>)
    requires queue0 != [] && Sorting(order0, queue0, inDegree0, deps) && Reversed(dependents, deps)
    ensures Sorting(order, queue, inDegree, deps)
    ensures deps.Keys - Elements(order) < deps.Keys - Elements(order0)
  {
    hide Fronted, Counted, InOrder, Reversed;
    var current := queue0[0];
    CurrentIsNew(order0, queue0, inDegree0, deps);
    ListedAsDeps(dependents, deps, current);
    var released;
    inDegree, released := ReleaseDependents(Listed(dependents, current), inDegree0, order0 + queue0, deps,
        Elements(order0), current);
    order, queue := order0 + [current], queue0[1..] + released;
    assert Elements(order) == Elements(order0) + {current};
    assert order0 + queue0 + released == order + queue;
  }

  /**
    Kahn's algorithm, for every order in which the first queue may come. It succeeds exactly on acyclic
    graphs, with an order of all names; otherwise it reports the names left over, each of which
    depends on another one left over.
  */
  method TopologicalSort(steps: seq<Step>) returns (r: SortResult)
    requires DistinctNames(steps) && KnownDependencies(steps)
    ensures r.Sorted? <==> Acyclic(steps)
    ensures r.Sorted? ==> IsOrder(steps, r.order)
    ensures r.CycleDetected? ==> r.nodes != {} && r.nodes <= Names(steps) && Stuck(steps, r.nodes)
  {
    hide Fronted, Counted, InOrder, Reversed, Stuck, Acyclic, IsOrder, KnownDependencies, DistinctNames, Topological;
    var inDegree, dependents := BuildDependents(steps);
    ghost var deps := DepsOf(steps);
    InitialCounts(steps, inDegree);
    var queue := Sources(inDegree);
    var order: seq<string> := [];
    assert [] + queue == queue && Elements([]) == {};
    while queue != []
      invariant Sorting(order, queue, inDegree, deps)
      decreases deps.Keys - Elements(order)
    {
      order, queue, inDegree := ProcessHead(order, queue, inDegree, dependents, deps);
    }
    assert order + [] == order;
    var nodes := set name | name in inDegree && inDegree[name] > 0;
    Finished(steps, order, inDegree, nodes);
    FrontedNoRepeats(order, inDegree);
    CountNames(steps, order);
    if |order| != |steps| {
      return CycleDetected(nodes);
    }
    return Sorted(order);
  }

  lemma FrontedNoRepeats(seen: seq<string>, inDegree: map<string, int>)
    requires Fronted(seen, inDegree)
    ensures NoRepeats(seen)
  {}

  lemma ListedAsDeps(dependents: map<string, seq<string>>, deps: map<string, seq<string>>, u: string)
    requires Reversed(dependents, deps)
    ensures forall v :: multiset(Listed(dependents, u))[v] == if v in deps then multiset(deps[v])[u] else 0
  {}

  /** Before anything is processed every entry is pending. */
  lemma InitialCounts(steps: seq<Step>, inDegree: map<string, int>)
    requires inDegree.Keys == Names(steps)
    requires forall v :: v in inDegree ==> v in DepsOf(steps) && inDegree[v] == |DepsOf(steps)[v]|
    ensures Counted(inDegree, DepsOf(steps), {}) && InOrder([], DepsOf(steps))
  {
    var deps := DepsOf(steps);
    DepsOfKeys(steps);
    forall v | v in deps ensures Pending(deps[v], {}) == |deps[v]| {
      PendingNothing(deps[v]);
    }
  }

  lemma SmallerSet<T>(a: set<T>, b: set<T>)
    requires a < b
    ensures |a| < |b|
  {
    var x :| x in b && x !in a;
    assert x in b - a;
    assert b == a + (b - a);
  }

  /** The head of the queue is not processed yet, and its dependencies are. */
  lemma CurrentIsNew(order: seq<string>, queue: seq<string>, inDegree: map<string, int>, deps: map<string, seq<string>>)
    requires queue != [] && Counted(inDegree, deps, Elements(order)) && Fronted(order + queue, inDegree) &&
             InOrder(order, deps)
    ensures queue[0] in deps && queue[0] !in Elements(order) && InOrder(order + [queue[0]], deps)
  {
    var current, seen := queue[0], order + queue;
    assert seen[|order|] == current;
    forall i | 0 <= i < |order| ensures order[i] != current {
      assert seen[i] == order[i];
    }
    PendingZero(deps[current], Elements(order));
    var longer := order + [current];
    forall i | 0 <= i < |longer| ensures longer[i] in deps && forall d :: d in deps[longer[i]] ==> d in longer[..i] {
      assert i < |order| ==> longer[..i] == order[..i];
      assert i == |order| ==> longer[..i] == order;
    }
  }

  /** With the queue empty, the names left over are stuck, and those processed are in order. */
  lemma Finished(steps: seq<Step>, order: seq<string>, inDegree: map<string, int>, nodes: set<string>)
    requires DistinctNames(steps) && KnownDependencies(steps)
    requires var deps := DepsOf(steps); Counted(inDegree, deps, Elements(order)) && Fronted(order, inDegree) &&
                                        InOrder(order, deps)
    requires forall n :: n in nodes <==> n in inDegree && inDegree[n] > 0
    ensures nodes <= Names(steps) && Stuck(steps, nodes) && Topological(steps, order)
    ensures forall n :: n in order <==> n in Names(steps) && n !in nodes
    ensures nodes != {} ==> !Acyclic(steps)
    ensures nodes == {} ==> IsOrder(steps, order) && Acyclic(steps)
  {
    var deps := DepsOf(steps);
    DepsOfKeys(steps);
    InOrderIsTopological(steps, order);
    hide Edge, DependsInto, Topological;
    forall a | a in nodes ensures DependsInto(steps, a, nodes) {
      StuckNode(steps, order, inDegree, nodes, a);
    }
    hide Counted, Fronted, InOrder, Acyclic;
    if nodes != {} {
      StuckHasCycle(steps, nodes);
    } else {
      OrderMeansAcyclic(steps, order);
    }
  }

  lemma InOrderIsTopological(steps: seq<Step>, order: seq<string>)
    requires DistinctNames(steps) && InOrder(order, DepsOf(steps))
    ensures Topological(steps, order)
  {
    hide Edge;
    forall i, d | 0 <= i < |order| && Edge(steps, order[i], d) ensures d in order[..i] {
      EdgeIsDep(steps, order[i], d);
    }
  }

  lemma StuckNode(steps: seq<Step>, order: seq<string>, inDegree: map<string, int>, nodes: set<string>, a: string)
    requires DistinctNames(steps) && KnownDependencies(steps)
    requires Counted(inDegree, DepsOf(steps), Elements(order)) && Fronted(order, inDegree)
    requires forall n :: n in nodes <==> n in inDegree && inDegree[n] > 0
    requires a in nodes
    ensures DependsInto(steps, a, nodes)
  {
    var deps := DepsOf(steps);
    DepsOfKeys(steps);
    PendingZero(deps[a], Elements(order));
    var b :| b in deps[a] && b !in Elements(order);
    EdgeIsDep(steps, a, b);
    assert Edge(steps, a, b);
    assert b in Names(steps);
  }

  lemma {:induction false} ElementsCount(order: seq<string>)
    requires NoRepeats(order)
    ensures |Elements(order)| == |order|
  {
    if order != [] {
      var init, last := order[..|order| - 1], order[|order| - 1];
      ElementsCount(init);
      assert Elements(order) == Elements(init) + {last};
    }
  }

  lemma {:induction false} NamesCount(steps: seq<Step>)
    requires DistinctNames(steps)
    ensures |Names(steps)| == |steps|
  {
    if steps != [] {
      var init, last := steps[..|steps| - 1], steps[|steps| - 1];
      NamesCount(init);
      DepsOfKeys(steps);
      DepsOfKeys(init);
      assert Names(steps) == Names(init) + {last.name};
      NotYet(steps, |steps| - 1);
    }
  }

  /** All names were processed exactly when as many were processed as there are steps. */
  lemma CountNames(steps: seq<Step>, order: seq<string>)
    requires DistinctNames(steps) && NoRepeats(order) && forall n :: n in order ==> n in Names(steps)
    ensures |order| == |steps| <==> forall n :: n in Names(steps) ==> n in order
  {
    ElementsCount(order);
    NamesCount(steps);
    assert Elements(order) <= Names(steps);
    if Elements(order) != Names(steps) {
      SmallerSet(Elements(order), Names(steps));
    }
  }

  // ---------------------------------------------------------------------------------------------
  // Define

  /** The panics of Define as results. */
  datatype DefineResult =
    | NoSteps
    | DuplicateName(name: string)
    | UnknownDependency(step: string, dep: string)
    | Cyclic(nodes: set<string>)
    | Defined(def: Definition)

  /** The steps by name; `repeated` is a name that occurs twice, if there is one. */
  method MapByName(steps: seq<Step>) returns (nodes: map<string, Step>, repeated: Option<string>)
    ensures repeated.None? <==> DistinctNames(steps)
    ensures repeated.Some? ==> exists i, j :: 0 <= i < j < |steps| && steps[i].name == steps[j].name == repeated.value
    ensures repeated.None? ==> nodes.Keys == Names(steps) && forall i :: 0 <= i < |steps| ==>
            nodes[steps[i].name] == steps[i]
  {
    nodes := map[];
    for i := 0 to |steps|
      invariant forall n :: n in nodes <==> exists k :: 0 <= k < i && steps[k].name == n
      invariant forall k, l :: 0 <= k < l < i ==> steps[k].name != steps[l].name
      invariant forall k :: 0 <= k < i ==> nodes[steps[k].name] == steps[k]
    {
      if steps[i].name in nodes {
        return nodes, Some(steps[i].name);
      }
      nodes := nodes[steps[i].name := steps[i]];
    }
    return nodes, None;
  }

  /** The first dependency, in step order, that names no step. */
  method FindUnknown(steps: seq<Step>, names: set<string>) returns (unknown: Option<(string, string)>)
    requires names == Names(steps)
    ensures unknown.None? <==> KnownDependencies(steps)
    ensures unknown.Some? ==> exists i :: 0 <= i < |steps| && steps[i].name == unknown.value.0 &&
                                          unknown.value.1 in steps[i].deps
    ensures unknown.Some? ==> unknown.value.1 !in Names(steps)
  {
    for i := 0 to |steps|
      invariant forall k, d :: 0 <= k < i && d in steps[k].deps ==> d in names
    {
      var deps := steps[i].deps;
      for k := 0 to |deps|
        invariant forall l :: 0 <= l < k ==> deps[l] in names
      {
        if deps[k] !in names {
          return Some((steps[i].name, deps[k]));
        }
      }
    }
    return None;
  }

  /** The steps in the given order of their names. */
  method Reorder(steps: seq<Step>, nodes: map<string, Step>, order: seq<string>) returns (sorted: seq<Step>)
    requires DistinctNames(steps) && IsOrder(steps, order)
    requires nodes.Keys == Names(steps) && forall i :: 0 <= i < |steps| ==> nodes[steps[i].name] == steps[i]
    ensures |sorted| == |order| && forall i :: 0 <= i < |order| ==> sorted[i] in steps && sorted[i].name == order[i]
  {
    sorted := [];
    for i := 0 to |order|
      invariant |sorted| == i
      invariant forall k :: 0 <= k < i ==> sorted[k] in steps && sorted[k].name == order[k]
    {
      assert order[i] in Names(steps);
      sorted := sorted + [nodes[order[i]]];
    }
  }

  /** Reordering by a topological order gives a permutation in which dependencies come first. */
  lemma ReorderedIsWellDefined(steps: seq<Step>, order: seq<string>, sorted: seq<Step>)
    requires DistinctNames(steps) && IsOrder(steps, order) && |sorted| == |order|
    requires forall i :: 0 <= i < |order| ==> sorted[i] in steps && sorted[i].name == order[i]
    ensures DistinctNames(sorted) && DependenciesFirst(sorted)
    ensures forall s :: s in sorted <==> s in steps
  {
    forall i, d | 0 <= i < |sorted| && d in sorted[i].deps ensures exists j :: 0 <= j < i && sorted[j].name == d {
      assert Edge(steps, order[i], d);
      var j :| 0 <= j < i && order[j] == d;
      assert sorted[j].name == d;
    }
    forall s | s in steps ensures s in sorted {
      assert s.name in Names(steps);
      var i :| 0 <= i < |order| && order[i] == s.name;
      assert sorted[i] == s;
    }
  }

  /**
    Define succeeds exactly on a nonempty list of distinctly named steps with known dependencies and
    no cycle, and then returns the same steps with every dependency before its dependents.
  */
  method Define(name: string, steps: seq<Step>) returns (r: DefineResult)
    ensures r.Defined? <==> steps != [] && DistinctNames(steps) && KnownDependencies(steps) && Acyclic(steps)
    ensures r.Defined? ==> r.def.name == name && r.def.version == "1" && WellDefined(r.def) && |r.def.steps| == |steps|
    ensures r.Defined? ==> forall s :: s in r.def.steps <==> s in steps
    ensures r.NoSteps? <==> steps == []
    ensures r.DuplicateName? <==> !DistinctNames(steps)
    ensures r.DuplicateName? ==> exists i, j :: 0 <= i < j < |steps| && steps[i].name == steps[j].name == r.name
    ensures r.UnknownDependency? <==> steps != [] && DistinctNames(steps) && !KnownDependencies(steps)
    ensures r.UnknownDependency? ==>
              r.dep !in Names(steps) && exists s :: s in steps && s.name == r.step && r.dep in s.deps
    ensures r.Cyclic? ==> r.nodes != {} && r.nodes <= Names(steps) && Stuck(steps, r.nodes)
  {
    hide Stuck, Acyclic, IsOrder, KnownDependencies, DependenciesFirst;
    if |steps| == 0 {
      return NoSteps;
    }
    var nodes, repeated := MapByName(steps);
    if repeated.Some? {
      return DuplicateName(repeated.value);
    }
    var unknown := FindUnknown(steps, nodes.Keys);
    if unknown.Some? {
      return UnknownDependency(unknown.value.0, unknown.value.1);
    }
    var sort := TopologicalSort(steps);
    if sort.CycleDetected? {
      return Cyclic(sort.nodes);
    }
    var sorted := Reorder(steps, nodes, sort.order);
    ReorderedIsWellDefined(steps, sort.order, sorted);
    NamesCount(steps);
    OrderLength(steps, sort.order);
    return Defined(Definition(name, "1", sorted));
  }

  lemma OrderLength(steps: seq<Step>, order: seq<string>)
    requires DistinctNames(steps) && IsOrder(steps, order)
    ensures |order| == |steps|
  {
    CountNames(steps, order);
  }
}
