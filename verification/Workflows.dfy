/** Workflow definitions: what NewWorkflow accepts, and the Kahn-style cycle test. */
module Workflows {
  import opened Basics
  import opened Graphs

  /** One agent call. A missing agent is `None`. */
  datatype Step = Step(id: string, agent: Option<string>, prompt: string, dependsOn: seq<string>)

  /** Retry settings, and the results an earlier attempt left behind. */
  datatype Options = Options(maxRetries: int, retryDelay: int, resume: seq<StepResult>)

  datatype Workflow = Workflow(steps: seq<Step>, options: Options)

  /** Why a workflow was rejected. */
  datatype Rejection =
    | NegativeOptions
    | NoSteps
    | MissingField
    | DuplicateId(id: string)
    | InvalidDependency(id: string)
    | UnknownDependency(id: string, dependency: string)
    | DuplicateDependency(id: string, dependency: string)
    | CyclicDependencies

  // ---------- Well-formed step lists ----------

  ghost predicate UniqueIds(steps: seq<Step>) {
    forall i, j :: 0 <= i < j < |steps| ==> steps[i].id != steps[j].id
  }

  ghost function Ids(steps: seq<Step>): set<string> {
    set i | 0 <= i < |steps| :: steps[i].id
  }

  predicate Complete(step: Step) {
    step.id != "" && step.prompt != "" && step.agent.Some?
  }

  /** The step list passes the first round of checks. */
  ghost predicate GoodRows(steps: seq<Step>) {
    UniqueIds(steps) && forall i :: 0 <= i < |steps| ==> Complete(steps[i])
  }

  /** A dependency list of step `id`: no repeats, no self-reference, only declared ids. */
  ghost predicate GoodDependencies(id: string, deps: seq<string>, ids: set<string>) {
    NoDup(deps) && forall d :: d in deps ==> d != "" && d != id && d in ids
  }

  ghost predicate GoodEdges(steps: seq<Step>, n: nat)
    requires n <= |steps|
  {
    forall i :: 0 <= i < n ==> GoodDependencies(steps[i].id, steps[i].dependsOn, Ids(steps))
  }

  /** Everything validation asks for except acyclicity. */
  ghost predicate WellFormed(steps: seq<Step>) {
    |steps| > 0 && GoodRows(steps) && GoodEdges(steps, |steps|)
  }

  /** Dependency k of step i is another declared step, and no earlier one on the list. */
  ghost predicate GoodEdge(steps: seq<Step>, i: nat, k: nat)
    requires i < |steps| && k < |steps[i].dependsOn|
  {
    var d := steps[i].dependsOn[k];
    && d != "" && d != steps[i].id && (exists j :: 0 <= j < |steps| && steps[j].id == d)
    && forall l :: 0 <= l < k ==> steps[i].dependsOn[l] != d
  }

  lemma GoodEdgesMeans(steps: seq<Step>, i: nat)
    requires i < |steps|
    ensures GoodDependencies(steps[i].id, steps[i].dependsOn, Ids(steps)) <==>
              forall k :: 0 <= k < |steps[i].dependsOn| ==> GoodEdge(steps, i, k)
  {
    var deps := steps[i].dependsOn;
    if GoodDependencies(steps[i].id, deps, Ids(steps)) {
      forall k | 0 <= k < |deps| ensures GoodEdge(steps, i, k) {
        assert deps[k] in deps;
        assert deps[k] in Ids(steps);
      }
    }
    if forall k :: 0 <= k < |deps| ==> GoodEdge(steps, i, k) {
      forall d | d in deps ensures d != "" && d != steps[i].id && d in Ids(steps) {
        var k :| 0 <= k < |deps| && deps[k] == d;
        assert GoodEdge(steps, i, k);
      }
      forall l, k | 0 <= l < k < |deps| ensures deps[l] != deps[k] {
        assert GoodEdge(steps, i, k);
      }
    }
  }

  /** What a definition has to look like, cycles aside: at least one step, each with an id
      of its own, a prompt and an agent, and dependencies on other declared steps, each
      listed once. */
  lemma WellFormedMeans(steps: seq<Step>)
    ensures WellFormed(steps) <==>
            && |steps| > 0
            && (forall i :: 0 <= i < |steps| ==> steps[i].id != "" && steps[i].prompt != "" && steps[i].agent.Some?)
            && (forall i, j :: 0 <= i < j < |steps| ==> steps[i].id != steps[j].id)
            && forall i, k :: 0 <= i < |steps| && 0 <= k < |steps[i].dependsOn| ==> GoodEdge(steps, i, k)
  {
    forall i | 0 <= i < |steps|
      ensures GoodDependencies(steps[i].id, steps[i].dependsOn, Ids(steps)) <==>
                forall k :: 0 <= k < |steps[i].dependsOn| ==> GoodEdge(steps, i, k)
    {
      GoodEdgesMeans(steps, i);
    }
    if |steps| > 0 && GoodRows(steps)
       && (forall i, k :: 0 <= i < |steps| && 0 <= k < |steps[i].dependsOn| ==> GoodEdge(steps, i, k)) {
      assert GoodEdges(steps, |steps|);
    }
  }

  ghost function GraphOf(steps: seq<Step>): (g: Graph)
    requires UniqueIds(steps)
    ensures g.Keys == Ids(steps)
    ensures forall i :: 0 <= i < |steps| ==> steps[i].id in g && g[steps[i].id] == steps[i].dependsOn
  {
    map i | 0 <= i < |steps| :: steps[i].id := steps[i].dependsOn
  }

  /** The step lists a workflow may have: well-formed and topologically sortable. */
  ghost predicate ValidDag(steps: seq<Step>) {
    WellFormed(steps) && Acyclic(GraphOf(steps))
  }

  ghost function Table(steps: seq<Step>): (t: map<string, Step>)
    requires UniqueIds(steps)
    ensures t.Keys == Ids(steps)
    ensures forall i :: 0 <= i < |steps| ==> steps[i].id in t && t[steps[i].id] == steps[i]
    ensures forall id :: id in t ==> t[id].id == id && t[id] in steps
  {
    map i | 0 <= i < |steps| :: steps[i].id := steps[i]
  }

  lemma WellFormedGraph(steps: seq<Step>)
    requires WellFormed(steps)
    ensures Closed(GraphOf(steps))
    ensures |GraphOf(steps).Keys| == |steps|
    ensures forall id :: id in Ids(steps) ==>
              GraphOf(steps)[id] == Table(steps)[id].dependsOn && NoDup(GraphOf(steps)[id])
  {
    var g := GraphOf(steps);
    forall id, d | id in g && d in g[id] ensures d in g {
      var i :| 0 <= i < |steps| && steps[i].id == id;
      assert GoodDependencies(steps[i].id, steps[i].dependsOn, Ids(steps));
    }
    forall id | id in g ensures NoDup(g[id]) {
      var i :| 0 <= i < |steps| && steps[i].id == id;
      assert GoodDependencies(steps[i].id, steps[i].dependsOn, Ids(steps));
    }
    var names := seq(|steps|, i requires 0 <= i < |steps| => steps[i].id);
    forall id | id in Ids(steps) ensures id in names {
      var i :| 0 <= i < |steps| && steps[i].id == id;
      assert names[i] == id;
    }
    assert Elems(names) == g.Keys;
    NoDupCardinality(names);
  }

  // ---------- hasCycle ----------

  function Kids(children: map<string, seq<string>>, id: string): seq<string> {
    if id in children then children[id] else []
  }

  /** One of the first n steps is c and depends on d. */
  ghost predicate Edge(steps: seq<Step>, n: nat, d: string, c: string)
    requires n <= |steps|
  {
    exists i :: 0 <= i < n && steps[i].id == c && d in steps[i].dependsOn
  }

  /** The dependants of d among the first n steps, each once, and step n too if `extra`. */
  ghost predicate KidsSoFar(steps: seq<Step>, kids: seq<string>, d: string, n: nat, extra: bool)
    requires n <= |steps| && (extra ==> n < |steps|)
  {
    && NoDup(kids)
    && forall c :: c in kids <==> Edge(steps, n, d, c) || (extra && steps[n].id == c)
  }

  ghost predicate ChildrenTable(steps: seq<Step>, children: map<string, seq<string>>, n: nat)
    requires n <= |steps|
  {
    forall d :: KidsSoFar(steps, Kids(children, d), d, n, false)
  }

  /** Files one step under each of its dependencies. */
  method AddChildren(steps: seq<Step>, n: nat, children0: map<string, seq<string>>)
    returns (children: map<string, seq<string>>)
    requires WellFormed(steps) && n < |steps|
    requires ChildrenTable(steps, children0, n)
    ensures ChildrenTable(steps, children, n + 1)
  {
    children := children0;
    var deps := steps[n].dependsOn;
    assert GoodDependencies(steps[n].id, deps, Ids(steps));
    forall d ensures KidsSoFar(steps, Kids(children, d), d, n, d in deps[..0]) {}
    for k := 0 to |deps|
      invariant forall d :: KidsSoFar(steps, Kids(children, d), d, n, d in deps[..k])
    {
      var dep := deps[k];
      ghost var was := children;
      assert deps[..k + 1] == deps[..k] + [dep];
      assert KidsSoFar(steps, Kids(was, dep), dep, n, dep in deps[..k]);
      assert steps[n].id !in Kids(was, dep);
      children := children[dep := Kids(children, dep) + [steps[n].id]];
      forall d ensures KidsSoFar(steps, Kids(children, d), d, n, d in deps[..k + 1]) {
        assert KidsSoFar(steps, Kids(was, d), d, n, d in deps[..k]);
      }
    }
    assert deps[..|deps|] == deps;
    forall d ensures KidsSoFar(steps, Kids(children, d), d, n + 1, false) {
      assert KidsSoFar(steps, Kids(children, d), d, n, d in deps);
      forall c ensures Edge(steps, n + 1, d, c) <==> Edge(steps, n, d, c) || (d in deps && steps[n].id == c) {}
    }
  }

  /** The two tables Kahn's algorithm starts from: the number of dependencies of each
      step, and the dependants of each step. */
  method CountDependencies(steps: seq<Step>)
    returns (dependencies: map<string, int>, children: map<string, seq<string>>)
    requires WellFormed(steps)
    ensures dependencies.Keys == GraphOf(steps).Keys
    ensures forall c :: c in GraphOf(steps) ==> dependencies[c] == |GraphOf(steps)[c]|
    ensures forall d :: KidsOf(GraphOf(steps), Kids(children, d), d)
  {
    dependencies, children := map[], map[];
    for n := 0 to |steps|
      invariant dependencies.Keys == set i | 0 <= i < n :: steps[i].id
      invariant forall i :: 0 <= i < n ==> dependencies[steps[i].id] == |steps[i].dependsOn|
      invariant ChildrenTable(steps, children, n)
    {
      dependencies := dependencies[steps[n].id := |steps[n].dependsOn|];
      children := AddChildren(steps, n, children);
    }
    ghost var g := GraphOf(steps);
    forall d ensures KidsOf(g, Kids(children, d), d) {
      assert KidsSoFar(steps, Kids(children, d), d, |steps|, false);
      forall c ensures Edge(steps, |steps|, d, c) <==> c in g && d in g[c] {
        if c in g {
          var i :| 0 <= i < |steps| && steps[i].id == c;
        }
      }
    }
  }

  /** The ids with no dependencies, in whatever order the map is iterated. */
  method Roots(dependencies: map<string, int>) returns (ready: seq<string>)
    ensures NoDup(ready)
    ensures forall c :: c in ready <==> c in dependencies && dependencies[c] == 0
  {
    ready := [];
    var todo := dependencies.Keys;
    while todo != {}
      invariant todo <= dependencies.Keys
      invariant NoDup(ready)
      invariant forall c :: c in ready <==> c in dependencies && c !in todo && dependencies[c] == 0
    {
      var id :| id in todo;
      todo := todo - {id};
      if dependencies[id] == 0 {
        ready := ready + [id];
      }
    }
  }

  /** The dependants of d, each once. */
  ghost predicate KidsOf(g: Graph, kids: seq<string>, d: string) {
    NoDup(kids) && forall c :: c in kids <==> c in g && d in g[c]
  }

  /** How many of the listed dependencies are not done. */
  ghost function Missing(deps: seq<string>, done: set<string>): nat {
    if deps == [] then 0
    else Missing(deps[..|deps| - 1], done) + (if deps[|deps| - 1] in done then 0 else 1)
  }

  lemma {:induction false} MissingAfter(deps: seq<string>, done: set<string>, id: string)
    requires NoDup(deps) && id !in done
    ensures Missing(deps, done) == Missing(deps, done + {id}) + (if id in deps then 1 else 0)
  {
    if deps != [] {
      var front := deps[..|deps| - 1];
      assert deps == front + [deps[|deps| - 1]];
      MissingAfter(front, done, id);
    }
  }

  lemma {:induction false} MissingBounds(deps: seq<string>, done: set<string>)
    ensures Missing(deps, done) == 0 <==> forall d :: d in deps ==> d in done
    ensures done == {} ==> Missing(deps, done) == |deps|
  {
    if deps != [] {
      var front := deps[..|deps| - 1];
      assert deps == front + [deps[|deps| - 1]];
      MissingBounds(front, done);
    }
  }

  /** What Kahn's loop keeps: the counts are the dependencies not yet done, and exactly
      the ids counted down to zero are done or ready. */
  ghost predicate Counted(g: Graph, dependencies: map<string, int>, ready: seq<string>, done: set<string>) {
    && NoDup(ready)
    && (forall c :: c in ready ==> c in g && c !in done)
    && dependencies.Keys == g.Keys
    && (forall c :: c in g ==> dependencies[c] == Missing(g[c], done))
    && (forall c :: c in g ==> (c in done || c in ready <==> dependencies[c] == 0))
  }

  /** Counts every kid down by one, releasing those that reach zero. `target` is what
      the counts are to become and `settled` the ids that must not be released again. */
  method CountDown(kids: seq<string>, dependencies0: map<string, int>, ready0: seq<string>,
                   ghost target: map<string, nat>, ghost settled: set<string>)
    returns (dependencies: map<string, int>, ready: seq<string>)
    requires NoDup(kids) && NoDup(ready0)
    requires dependencies0.Keys == target.Keys && Elems(kids) <= target.Keys
    requires forall c :: c in target ==> dependencies0[c] == target[c] + (if c in kids then 1 else 0)
    requires forall c :: c in ready0 ==> c in target && c !in settled
    requires forall c :: c in target ==> (c in settled || c in ready0 <==> dependencies0[c] == 0)
    ensures dependencies == target
    ensures NoDup(ready)
    ensures forall c :: c in ready ==> c in target && c !in settled
    ensures forall c :: c in target ==> (c in settled || c in ready <==> target[c] == 0)
  {
    dependencies, ready := dependencies0, ready0;
    for k := 0 to |kids|
      invariant dependencies.Keys == target.Keys
      invariant forall c :: c in target ==> dependencies[c] == target[c] + (if c in kids[k..] then 1 else 0)
      invariant NoDup(ready)
      invariant forall c :: c in ready ==> c in target && c !in settled
      invariant forall c :: c in target ==> (c in settled || c in ready <==> dependencies[c] == 0)
    {
      var child := kids[k];
      assert kids[k..] == [child] + kids[k + 1..];
      assert child in Elems(kids) && child !in kids[k + 1..];
      assert child !in settled && child !in ready;
      dependencies := dependencies[child := dependencies[child] - 1];
      if dependencies[child] == 0 {
        ready := ready + [child];
      }
    }
  }

  /** Pops `id`: its dependants lose one missing dependency each. */
  method ReleaseChildren(ghost g: Graph, kids: seq<string>, ghost id: string,
                         dependencies0: map<string, int>, ready0: seq<string>, ghost done: set<string>)
    returns (dependencies: map<string, int>, ready: seq<string>)
    requires KidsOf(g, kids, id) && forall c :: c in g ==> NoDup(g[c])
    requires Counted(g, dependencies0, [id] + ready0, done)
    ensures Counted(g, dependencies, ready, done + {id})
  {
    ghost var target: map<string, nat> := map c | c in g :: Missing(g[c], done + {id});
    NoDupTail(id, ready0);
    assert forall c :: c in [id] + ready0 <==> c == id || c in ready0;
    forall c | c in g ensures dependencies0[c] == target[c] + (if c in kids then 1 else 0) {
      MissingAfter(g[c], done, id);
    }
    dependencies, ready := CountDown(kids, dependencies0, ready0, target, done + {id});
  }

  lemma NoDupTail(x: string, xs: seq<string>)
    requires NoDup([x] + xs)
    ensures NoDup(xs) && x !in xs
  {
    var all := [x] + xs;
    forall i, j | 0 <= i < j < |xs| ensures xs[i] != xs[j] {
      assert all[i + 1] == xs[i] && all[j + 1] == xs[j];
    }
    forall i | 0 <= i < |xs| ensures xs[i] != x {
      assert all[0] == x && all[i + 1] == xs[i];
    }
  }

  lemma PopReady(g: Graph, dependencies: map<string, int>, ready: seq<string>, done: seq<string>)
    requires Layered(g, done) && ready != [] && Counted(g, dependencies, ready, Elems(done))
    ensures Layered(g, done + [ready[0]])
    ensures Elems(done + [ready[0]]) == Elems(done) + {ready[0]}
    ensures ready[0] in g.Keys - Elems(done)
  {
    var id := ready[0];
    assert id in ready;
    MissingBounds(g[id], Elems(done));
    assert (done + [id])[..|done|] == done;
  }

  lemma NothingReady(g: Graph, dependencies: map<string, int>, done: seq<string>)
    requires Closed(g) && Layered(g, done) && Counted(g, dependencies, [], Elems(done))
    ensures |done| == |g.Keys| <==> Acyclic(g)
    ensures Acyclic(g) <==> !HasCyclicPath(g)
  {
    forall c {:trigger g[c]} | c in g && c !in done ensures exists d :: d in g[c] && d !in done {
      MissingBounds(g[c], Elems(done));
    }
    MaximalLayering(g, done);
  }

  /** Reports a cycle exactly when there is one, whatever order the maps are walked in:
      the answer is false iff a topological order exists, and true iff some non-empty
      dependency path returns to its start. */
  method HasCycle(steps: seq<Step>) returns (cyclic: bool)
    requires WellFormed(steps)
    ensures cyclic <==> !Acyclic(GraphOf(steps))
    ensures cyclic <==> HasCyclicPath(GraphOf(steps))
  {
    WellFormedGraph(steps);
    var dependencies, children := CountDependencies(steps);
    var ready := Roots(dependencies);
    NothingDone(GraphOf(steps), dependencies, ready);
    var visited := Drain(GraphOf(steps), children, dependencies, ready);
    cyclic := visited != |steps|;
  }

  lemma NothingDone(g: Graph, dependencies: map<string, int>, ready: seq<string>)
    requires NoDup(ready) && dependencies.Keys == g.Keys
    requires forall c :: c in g ==> dependencies[c] == |g[c]|
    requires forall c :: c in ready <==> c in dependencies && dependencies[c] == 0
    ensures Counted(g, dependencies, ready, {})
  {
    forall c | c in g ensures Missing(g[c], {}) == |g[c]| {
      MissingBounds(g[c], {});
    }
  }

  /** Pops ready ids until none is left, and says how many there were. */
  method Drain(ghost g: Graph, children: map<string, seq<string>>, dependencies0: map<string, int>, ready0: seq<string>)
    returns (visited: nat)
    requires Closed(g) && (forall c :: c in g ==> NoDup(g[c]))
    requires forall d :: KidsOf(g, Kids(children, d), d)
    requires Counted(g, dependencies0, ready0, {})
    ensures visited == |g.Keys| <==> Acyclic(g)
    ensures Acyclic(g) <==> !HasCyclicPath(g)
  {
    var dependencies, ready := dependencies0, ready0;
    visited := 0;
    ghost var done: seq<string> := [];
    assert Elems(done) == {};
    while |ready| > 0
      invariant Layered(g, done)
      invariant Counted(g, dependencies, ready, Elems(done))
      invariant visited == |done|
      decreases g.Keys - Elems(done)
    {
      var id := ready[0];
      assert ready == [id] + ready[1..];
      PopReady(g, dependencies, ready, done);
      ready := ready[1..];
      visited := visited + 1;
      dependencies, ready := ReleaseChildren(g, Kids(children, id), id, dependencies, ready, Elems(done));
      done := done + [id];
    }
    NothingReady(g, dependencies, done);
  }

  // ---------- NewWorkflow ----------

  /** Validation got past the rows and stopped at dependency k of step i. */
  ghost predicate StopsAtDependency(steps: seq<Step>, i: nat, k: nat, id: string, dependency: string) {
    && i < |steps| && k < |steps[i].dependsOn|
    && steps != [] && GoodRows(steps) && GoodEdges(steps, i)
    && GoodDependencies(steps[i].id, steps[i].dependsOn[..k], Ids(steps))
    && steps[i].id == id && steps[i].dependsOn[k] == dependency
  }

  /** The rejection names the first defect in the order the checks are made. */
  ghost predicate Explains(steps: seq<Step>, options: Options, reason: Rejection) {
    var negative := options.maxRetries < 0 || options.retryDelay < 0;
    match reason
    case NegativeOptions => negative
    case NoSteps => !negative && steps == []
    case MissingField => !negative &&
      exists i :: 0 <= i < |steps| && GoodRows(steps[..i]) && !Complete(steps[i])
    case DuplicateId(id) => !negative &&
      exists i :: 0 <= i < |steps| && GoodRows(steps[..i]) && Complete(steps[i]) && steps[i].id == id
          && id in Ids(steps[..i])
    case InvalidDependency(id) => !negative &&
      exists i: nat, k: nat, d :: StopsAtDependency(steps, i, k, id, d) && (d == "" || d == id)
    case UnknownDependency(id, d) => !negative && d != "" && d != id && d !in Ids(steps) &&
      exists i: nat, k: nat :: StopsAtDependency(steps, i, k, id, d)
    case DuplicateDependency(id, d) => !negative && d != "" && d != id && d in Ids(steps) &&
      exists i: nat, k: nat :: StopsAtDependency(steps, i, k, id, d) && d in steps[i].dependsOn[..k]
    case CyclicDependencies => !negative && WellFormed(steps) && HasCyclicPath(GraphOf(steps))
  }

  method CheckRows(steps: seq<Step>) returns (r: Result<set<string>, Rejection>)
    ensures r.Ok? ==> GoodRows(steps) && r.value == Ids(steps)
    ensures r.Err? ==> !GoodRows(steps)
    ensures r.Err? ==> forall options: Options :: options.maxRetries >= 0 && options.retryDelay >= 0 ==>
              Explains(steps, options, r.error)
  {
    var seen: set<string> := {};
    for i := 0 to |steps|
      invariant GoodRows(steps[..i])
      invariant seen == Ids(steps[..i])
    {
      var step := steps[i];
      if step.id == "" || step.prompt == "" || step.agent.None? {
        return Err(MissingField);
      }
      if step.id in seen {
        return Err(DuplicateId(step.id));
      }
      OneMoreRow(steps[..i], step);
      assert steps[..i + 1] == steps[..i] + [step];
      seen := seen + {step.id};
    }
    assert steps[..|steps|] == steps;
    r := Ok(seen);
  }

  lemma OneMoreRow(rows: seq<Step>, step: Step)
    requires GoodRows(rows)
    ensures Ids(rows + [step]) == Ids(rows) + {step.id}
    ensures step.id !in Ids(rows) && Complete(step) ==> GoodRows(rows + [step])
  {
    var more := rows + [step];
    forall id | id in Ids(rows) + {step.id} ensures id in Ids(more) {
      if id == step.id {
        assert more[|rows|].id == id;
      } else {
        var j :| 0 <= j < |rows| && rows[j].id == id;
        assert more[j].id == id;
      }
    }
    if step.id !in Ids(rows) {
      forall j | 0 <= j < |rows| ensures rows[j].id != step.id {}
    }
  }

  method CheckDependencies(steps: seq<Step>, seen: set<string>) returns (r: Option<Rejection>)
    requires steps != [] && GoodRows(steps) && seen == Ids(steps)
    ensures r.None? <==> GoodEdges(steps, |steps|)
    ensures r.Some? ==> forall options: Options :: options.maxRetries >= 0 && options.retryDelay >= 0 ==>
              Explains(steps, options, r.value)
  {
    for i := 0 to |steps|
      invariant GoodEdges(steps, i)
    {
      var step := steps[i];
      var dependencies: set<string> := {};
      for k := 0 to |step.dependsOn|
        invariant GoodDependencies(step.id, step.dependsOn[..k], Ids(steps))
        invariant dependencies == Elems(step.dependsOn[..k])
      {
        var dependency := step.dependsOn[k];
        assert StopsAtDependency(steps, i, k, step.id, dependency);
        assert dependency in step.dependsOn;
        if dependency == "" || dependency == step.id {
          return Some(InvalidDependency(step.id));
        }
        if dependency !in seen {
          return Some(UnknownDependency(step.id, dependency));
        }
        if dependency in dependencies {
          return Some(DuplicateDependency(step.id, dependency));
        }
        assert step.dependsOn[..k + 1] == step.dependsOn[..k] + [dependency];
        dependencies := dependencies + {dependency};
      }
      assert step.dependsOn[..|step.dependsOn|] == step.dependsOn;
    }
    r := None;
  }

  /** Accepts exactly the well-formed DAGs with non-negative options, unchanged; every
      rejection names the first defect found. */
  method NewWorkflow(steps: seq<Step>, options: Options) returns (r: Result<Workflow, Rejection>)
    ensures r.Ok? <==> options.maxRetries >= 0 && options.retryDelay >= 0 && ValidDag(steps)
    ensures r.Ok? ==> r.value == Workflow(steps, options)
    ensures r.Err? ==> Explains(steps, options, r.error)
  {
    if options.maxRetries < 0 || options.retryDelay < 0 {
      return Err(NegativeOptions);
    }
    if |steps| == 0 {
      return Err(NoSteps);
    }
    var rows := CheckRows(steps);
    if rows.Err? {
      return Err(rows.error);
    }
    var edges := CheckDependencies(steps, rows.value);
    if edges.Some? {
      return Err(edges.value);
    }
    var cyclic := HasCycle(steps);
    if cyclic {
      return Err(CyclicDependencies);
    }
    r := Ok(Workflow(steps, options));
  }
}
