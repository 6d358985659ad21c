/** Resuming: a run that starts from the recorded successes of an earlier run of the same
    workflow, and when it returns what the uninterrupted run would have returned. */
module Resumption {
  import opened Basics
  import opened Graphs
  import opened Workflows
  import opened Prompts
  import opened Semantics

  // ---------- Every plan has a solution ----------

  ghost function OneWaveMore(w: Plan, env: Env, earlier: map<string, StepResult>, d: nat): map<string, StepResult> {
    map id | id in w.g && w.depth[id] <= d :: if id in earlier then earlier[id] else Verdict(w, env, earlier, id)
  }

  /** What becomes of a step whose wave comes right after `earlier`. */
  ghost function Verdict(w: Plan, env: Env, earlier: map<string, StepResult>, id: string): StepResult
    requires id in w.g
  {
    if AllSucceeded(earlier, w.g[id]) then Execute(env, w.maxRetries, w.table[id], earlier) else SkippedResult(id)
  }

  ghost predicate SolvesTo(w: Plan, env: Env, d: nat, f: map<string, StepResult>) {
    && f.Keys == (set id | id in w.g && w.depth[id] <= d)
    && forall id {:trigger StepEquation(w, env, f, id)} :: id in f ==> StepEquation(w, env, f, id)
  }

  /** The results of waves 0 to d. */
  lemma {:induction false} SolutionTo(w: Plan, env: Env, d: nat) returns (f: map<string, StepResult>)
    ensures SolvesTo(w, env, d, f)
  {
    if d == 0 {
      f := w.seeds;
      SeedsSolve(w, env);
    } else {
      var earlier := SolutionTo(w, env, d - 1);
      f := OneWaveMore(w, env, earlier, d);
      NextWaveSolves(w, env, earlier, d);
    }
  }

  lemma SeedsSolve(w: Plan, env: Env)
    ensures SolvesTo(w, env, 0, w.seeds)
  {
  }

  lemma NextWaveSolves(w: Plan, env: Env, earlier: map<string, StepResult>, d: nat)
    requires d > 0 && SolvesTo(w, env, d - 1, earlier)
    ensures SolvesTo(w, env, d, OneWaveMore(w, env, earlier, d))
  {
    var f := OneWaveMore(w, env, earlier, d);
    forall id | id in f ensures StepEquation(w, env, f, id) {
      LaterWavesDoNotMatter(w, env, earlier, f, d - 1, id);
    }
  }

  lemma LaterWavesDoNotMatter(w: Plan, env: Env, earlier: map<string, StepResult>, f: map<string, StepResult>, d: nat,
                              id: string)
    requires earlier.Keys == set u | u in w.g && w.depth[u] <= d
    requires f.Keys == set u | u in w.g && w.depth[u] <= d + 1
    requires forall u :: u in earlier ==> f[u] == earlier[u]
    requires id in earlier ==> StepEquation(w, env, earlier, id)
    requires id in f && id !in earlier ==> f[id] == Verdict(w, env, earlier, id)
    requires id in f
    ensures StepEquation(w, env, f, id)
  {
    if id !in w.seeds {
      SameBefore(w, earlier, f, d, id);
    }
  }

  /** Within the earlier waves, and for the next one, dependencies and prompts see the
      same results. */
  lemma SameBefore(w: Plan, earlier: map<string, StepResult>, f: map<string, StepResult>, d: nat, id: string)
    requires earlier.Keys == set u | u in w.g && w.depth[u] <= d
    requires f.Keys == set u | u in w.g && w.depth[u] <= d + 1
    requires forall u :: u in earlier ==> f[u] == earlier[u]
    requires id in f && id !in w.seeds
    ensures AllSucceeded(f, w.g[id]) <==> AllSucceeded(earlier, w.g[id])
    ensures id in earlier ==> Before(w, f, w.depth[id]) == Before(w, earlier, w.depth[id])
    ensures id !in earlier ==> Before(w, f, w.depth[id]) == earlier
  {
    forall k | 0 <= k < |w.g[id]| ensures w.g[id][k] in earlier {}
  }

  ghost function Highest(depth: map<string, nat>): (d: nat)
    ensures forall id :: id in depth ==> depth[id] <= d
  {
    if depth == map[] then 0
    else
      var id :| id in depth;
      var rest := Highest(depth - {id});
      assert forall u :: u in depth ==> u == id || u in depth - {id};
      if rest < depth[id] then depth[id] else rest
  }

  /** Together with SolutionUnique: a run's results are determined by the workflow and
      the agents' replies. */
  lemma SolutionExists(w: Plan, env: Env) returns (f: map<string, StepResult>)
    ensures Solves(w, env, f)
  {
    f := SolutionTo(w, env, Highest(w.depth));
  }

  // ---------- Plans with recorded results ----------

  /** The results of the steps that succeeded. */
  ghost predicate RecordedIn(seeds: map<string, StepResult>, f: map<string, StepResult>) {
    forall id :: id in seeds ==> id in f && f[id].status == Succeeded && f[id].id == id && seeds[id] == f[id]
  }

  /** The same steps, started from recorded results. */
  ghost function Resumed(w: Plan, seeds: map<string, StepResult>): (r: Plan)
    requires seeds.Keys <= w.g.Keys
    requires forall id :: id in seeds ==> seeds[id].id == id && seeds[id].status == Succeeded
    ensures r.g == w.g && r.table == w.table && r.maxRetries == w.maxRetries && r.seeds == seeds
  {
    DepthsTable(w.g, w.rank, seeds.Keys);
    Tables(w.g, w.rank, Depths(w.g, w.rank, seeds.Keys), w.table, seeds, w.maxRetries)
  }

  // ---------- When resuming changes nothing ----------

  /** Everything the step's prompt refers to lies in an earlier wave. */
  ghost predicate ReferencesBefore(w: Tables, id: string)
    requires w.Shaped() && id in w.g
  {
    forall u :: u in References(w.table[id].prompt) ==> u in w.g && w.depth[u] < w.depth[id]
  }

  /** Plans of the same steps that may start from different recorded results. */
  ghost predicate SameSteps(w: Tables, r: Tables) {
    r.g == w.g && r.table == w.table && r.maxRetries == w.maxRetries
  }

  /** In both plans the prompts of the steps to be run see only earlier waves. */
  ghost predicate SeesTheSame(w: Plan, r: Plan)
    requires SameSteps(w, r)
  {
    forall id {:trigger ReferencesBefore(w, id)} :: id in w.g && id !in r.seeds ==>
          ReferencesBefore(w, id) && ReferencesBefore(r, id)
  }

  /** A resumed run returns the results of the fresh one whenever every reference of a
      step it has to run again lies in an earlier wave of both runs. Nothing else is
      asked of the resumed set: it need not be closed under dependencies. */
  lemma ResumePreserves(w: Plan, r: Plan, env: Env, f: map<string, StepResult>, f2: map<string, StepResult>)
    requires w.seeds == map[] && SameSteps(w, r) && SeesTheSame(w, r)
    requires Solves(w, env, f) && RecordedIn(r.seeds, f) && Solves(r, env, f2)
    ensures f2 == f
  {
    forall id | id in w.g ensures f2[id] == f[id] {
      AgreeUpTo(w, r, env, f, f2, r.depth[id]);
    }
  }

  lemma {:induction false} AgreeUpTo(w: Plan, r: Plan, env: Env, f: map<string, StepResult>,
                                     f2: map<string, StepResult>, d: nat)
    requires w.seeds == map[] && SameSteps(w, r) && SeesTheSame(w, r)
    requires Solves(w, env, f) && RecordedIn(r.seeds, f) && Solves(r, env, f2)
    ensures forall id :: id in w.g && r.depth[id] <= d ==> f2[id] == f[id]
  {
    if d > 0 {
      AgreeUpTo(w, r, env, f, f2, d - 1);
    }
    forall id | id in w.g && r.depth[id] == d ensures f2[id] == f[id] {
      assert StepEquation(r, env, f2, id) && StepEquation(w, env, f, id);
      if id !in r.seeds {
        SameStep(w, r, env, f, f2, id);
      }
    }
  }

  /** Two plans agree on a step if they agree on what it depends on and refers to. */
  lemma SameStep(w: Plan, r: Plan, env: Env, f: map<string, StepResult>, f2: map<string, StepResult>, id: string)
    requires SameSteps(w, r)
    requires f.Keys == f2.Keys == w.g.Keys && id in w.g && id !in w.seeds && id !in r.seeds
    requires StepEquation(w, env, f, id) && StepEquation(r, env, f2, id)
    requires ReferencesBefore(w, id) && ReferencesBefore(r, id)
    requires forall u :: u in w.g && r.depth[u] < r.depth[id] ==> f2[u] == f[u]
    ensures f2[id] == f[id]
  {
    SameSight(w, r, f, f2, id);
    SameDependencies(w.g, r, f, f2, id);
  }

  lemma SameDependencies(g: Graph, r: Plan, f: map<string, StepResult>, f2: map<string, StepResult>, id: string)
    requires r.g == g && f.Keys == f2.Keys == g.Keys && id in g && id !in r.seeds
    requires forall u :: u in g && r.depth[u] < r.depth[id] ==> f2[u] == f[u]
    ensures AllSucceeded(f2, g[id]) <==> AllSucceeded(f, g[id])
  {
    assert forall k :: 0 <= k < |g[id]| ==> f2[g[id][k]] == f[g[id][k]];
  }

  lemma SameSight(w: Tables, r: Tables, f: map<string, StepResult>, f2: map<string, StepResult>, id: string)
    requires w.Shaped() && r.Shaped() && SameSteps(w, r) && f.Keys == f2.Keys == w.g.Keys && id in w.g
    requires ReferencesBefore(w, id) && ReferencesBefore(r, id)
    requires forall u :: u in w.g && r.depth[u] < r.depth[id] ==> f2[u] == f[u]
    ensures Render(w.table[id].prompt, Before(r, f2, r.depth[id]))
            == Render(w.table[id].prompt, Before(w, f, w.depth[id]))
  {
    RenderAgrees(w.table[id].prompt, Before(r, f2, r.depth[id]), Before(w, f, w.depth[id]));
  }

  /** Prompts refer to direct dependencies only. */
  ghost predicate DirectReferences(w: Plan) {
    forall id, u :: id in w.g && u in References(w.table[id].prompt) ==> u in w.g[id]
  }

  lemma DirectReferencesComeBefore(w: Plan, id: string)
    requires DirectReferences(w) && id in w.g && id !in w.seeds
    ensures ReferencesBefore(w, id)
  {
    forall u | u in References(w.table[id].prompt) ensures u in w.g && w.depth[u] < w.depth[id] {
      assert u in w.g[id];
      var k :| 0 <= k < |w.g[id]| && w.g[id][k] == u;
    }
  }

  /** Whatever the agents do, resuming any set of recorded successes preserves every
      result. */
  ghost predicate ResumeIsTransparent(w: Plan) {
    forall env, f, r: Plan, f2 ::
      SameSteps(w, r) && Solves(w, env, f) && RecordedIn(r.seeds, f) && Solves(r, env, f2) ==> f2 == f
  }

  /** For prompts that an uninterrupted run can render, resuming is transparent for
      every environment and every set of recorded successes exactly when prompts refer
      to direct dependencies only. */
  lemma TransparentIffDirect(w: Plan)
    requires w.seeds == map[] && forall id :: id in w.g ==> ReferencesBefore(w, id)
    ensures ResumeIsTransparent(w) <==> DirectReferences(w)
  {
    if DirectReferences(w) {
      forall env, f, r: Plan, f2 | SameSteps(w, r) && Solves(w, env, f) && RecordedIn(r.seeds, f) && Solves(r, env, f2)
        ensures f2 == f
      {
        DirectReferencesAreSafe(w, r);
        ResumePreserves(w, r, env, f, f2);
      }
    } else {
      var id, u :| id in w.g && u in References(w.table[id].prompt) && u !in w.g[id];
      var env, f, r, f2 := IndirectReferenceBreaks(w, id, u);
    }
  }

  lemma DirectReferencesAreSafe(w: Plan, r: Plan)
    requires SameSteps(w, r) && DirectReferences(w) && w.seeds == map[]
    ensures SeesTheSame(w, r)
  {
    forall id | id in w.g && id !in r.seeds ensures ReferencesBefore(w, id) && ReferencesBefore(r, id) {
      DirectReferencesComeBefore(w, id);
      DirectReferencesComeBefore(r, id);
    }
  }

  /** Every call is answered. */
  function AlwaysAnswers(): Env {
    Env((_, _, _) => Answer(""), (_, _) => None)
  }

  lemma EverythingSucceeds(w: Plan, f: map<string, StepResult>)
    requires forall id :: id in w.g ==> ReferencesBefore(w, id)
    requires Solves(w, AlwaysAnswers(), f)
    ensures forall id :: id in w.g ==> f[id].status == Succeeded
  {
    forall id | id in w.g ensures f[id].status == Succeeded {
      SucceedsUpTo(w, f, w.depth[id]);
    }
  }

  lemma {:induction false} SucceedsUpTo(w: Plan, f: map<string, StepResult>, d: nat)
    requires forall id :: id in w.g ==> ReferencesBefore(w, id)
    requires Solves(w, AlwaysAnswers(), f)
    ensures forall id :: id in w.g && w.depth[id] <= d ==> f[id].status == Succeeded
  {
    if d > 0 {
      SucceedsUpTo(w, f, d - 1);
    }
    forall id | id in w.g && w.depth[id] == d ensures f[id].status == Succeeded {
      assert StepEquation(w, AlwaysAnswers(), f, id);
      if id !in w.seeds {
        assert ReferencesBefore(w, id);
        ReferencesDecide(w, AlwaysAnswers(), f, id);
      }
    }
  }

  /** A reference to a step that is not a direct dependency fails to resolve when
      everything but the two steps is resumed. */
  lemma IndirectReferenceBreaks(w: Plan, id: string, u: string)
    returns (env: Env, f: map<string, StepResult>, r: Plan, f2: map<string, StepResult>)
    requires w.seeds == map[] && forall x :: x in w.g ==> ReferencesBefore(w, x)
    requires id in w.g && u in References(w.table[id].prompt) && u !in w.g[id]
    ensures SameSteps(w, r) && Solves(w, env, f) && RecordedIn(r.seeds, f) && Solves(r, env, f2)
    ensures f[id].status == Succeeded && f2[id].status == Failed
  {
    env := AlwaysAnswers();
    f := SolutionExists(w, env);
    EverythingSucceeds(w, f);
    SolutionSkipRule(w, env, f);
    assert ReferencesBefore(w, id);
    r := AllButTwo(w, f, id, u);
    f2 := SolutionExists(r, env);
    OthersAreDependencies(w, id, u);
    ReadyStepFails(w, r, env, f2, id, u);
  }

  lemma OthersAreDependencies(w: Plan, id: string, u: string)
    requires id in w.g && u !in w.g[id]
    ensures forall k :: 0 <= k < |w.g[id]| ==> w.g[id][k] in w.g.Keys - {id, u}
  {
    assert forall k :: 0 <= k < |w.g[id]| ==> w.g[id][k] in w.g && w.rank[w.g[id][k]] < w.rank[id];
  }

  lemma AllButTwo(w: Plan, f: map<string, StepResult>, id: string, u: string) returns (r: Plan)
    requires f.Keys == w.g.Keys && forall x :: x in f ==> f[x].id == x && f[x].status == Succeeded
    ensures SameSteps(w, r) && RecordedIn(r.seeds, f) && r.seeds.Keys == w.g.Keys - {id, u}
  {
    WithoutMeans(f, id, u);
    r := Resumed(w, Without(f, id, u));
  }

  ghost function Without(f: map<string, StepResult>, id: string, u: string): map<string, StepResult> {
    map x | x in f && x != id && x != u :: f[x]
  }

  lemma WithoutMeans(f: map<string, StepResult>, id: string, u: string)
    requires forall x :: x in f ==> f[x].id == x && f[x].status == Succeeded
    ensures Without(f, id, u).Keys == f.Keys - {id, u} && RecordedIn(Without(f, id, u), f)
    ensures forall x :: x in Without(f, id, u) ==>
              Without(f, id, u)[x].id == x && Without(f, id, u)[x].status == Succeeded
  {
  }

  // ---------- References further up ----------

  ghost predicate UpstreamReferences(w: Tables)
    requires w.Shaped()
  {
    forall id, u :: id in w.g && u in References(w.table[id].prompt) ==> Upstream(w.g, u, id)
  }

  lemma DirectIsUpstream(w: Plan)
    requires DirectReferences(w)
    ensures UpstreamReferences(w)
  {
    forall id, u | id in w.g && u in References(w.table[id].prompt) ensures Upstream(w.g, u, id) {
      assert u in w.g[id];
      var k :| 0 <= k < |w.g[id]| && w.g[id][k] == u;
      assert DepPath(w.g, [id, u]);
    }
  }

  ghost predicate DependencyClosed(g: Graph, ids: set<string>) {
    forall id, d :: id in ids && id in g && d in g[id] ==> d in ids
  }

  /** If the recorded successes are closed under dependencies, as those of any run are,
      then prompts may refer to anything upstream. */
  lemma ClosedResumePreserves(w: Plan, r: Plan, env: Env, f: map<string, StepResult>, f2: map<string, StepResult>)
    requires w.seeds == map[] && SameSteps(w, r)
    requires UpstreamReferences(w) && DependencyClosed(w.g, r.seeds.Keys)
    requires Solves(w, env, f) && RecordedIn(r.seeds, f) && Solves(r, env, f2)
    ensures f2 == f
  {
    forall id | id in w.g && id !in r.seeds ensures ReferencesBefore(w, id) && ReferencesBefore(r, id) {
      UpstreamComesBefore(w, id);
      UpstreamComesBefore(r, id);
    }
    ResumePreserves(w, r, env, f, f2);
  }

  lemma UpstreamComesBefore(w: Plan, id: string)
    requires UpstreamReferences(w) && DependencyClosed(w.g, w.seeds.Keys) && id in w.g && id !in w.seeds
    ensures ReferencesBefore(w, id)
  {
    forall u | u in References(w.table[id].prompt) ensures u in w.g && w.depth[u] < w.depth[id] {
      assert Upstream(w.g, u, id);
      var p :| DepPath(w.g, p) && |p| >= 2 && p[0] == id && p[|p| - 1] == u;
      DepthFallsAlongPath(w, p, |p| - 1);
    }
  }

  lemma {:induction false} DepthFallsAlongPath(w: Plan, p: seq<string>, k: nat)
    requires DependencyClosed(w.g, w.seeds.Keys) && DepPath(w.g, p) && k < |p| && p[0] !in w.seeds
    ensures k > 0 ==> w.depth[p[k]] < w.depth[p[0]]
  {
    if k > 0 {
      DepthFallsAlongPath(w, p, k - 1);
      assert p[k - 1 + 1] in w.g[p[k - 1]];
    }
  }

  /** Whatever the agents do, resuming any dependency-closed set of recorded successes
      preserves every result. */
  ghost predicate ClosedResumeIsTransparent(w: Plan) {
    forall env, f, r: Plan, f2 ::
      (SameSteps(w, r) && DependencyClosed(w.g, r.seeds.Keys)
       && Solves(w, env, f) && RecordedIn(r.seeds, f) && Solves(r, env, f2)) ==> f2 == f
  }

  /** For prompts that an uninterrupted run can render, and recorded successes that are
      closed under dependencies, resuming is transparent exactly when prompts refer to
      steps upstream only. */
  lemma ClosedTransparentIffUpstream(w: Plan)
    requires w.seeds == map[] && forall id :: id in w.g ==> ReferencesBefore(w, id)
    ensures ClosedResumeIsTransparent(w) <==> UpstreamReferences(w)
  {
    if UpstreamReferences(w) {
      forall env, f, r: Plan, f2 | SameSteps(w, r) && DependencyClosed(w.g, r.seeds.Keys)
          && Solves(w, env, f) && RecordedIn(r.seeds, f) && Solves(r, env, f2)
        ensures f2 == f
      {
        ClosedResumePreserves(w, r, env, f, f2);
      }
    } else {
      var id, u :| id in w.g && u in References(w.table[id].prompt) && !Upstream(w.g, u, id);
      var env, f, r, f2 := SidewaysReferenceBreaks(w, id, u);
    }
  }

  /** A reference to a step that is not upstream fails to resolve when exactly the steps
      upstream are resumed. */
  lemma SidewaysReferenceBreaks(w: Plan, id: string, u: string)
    returns (env: Env, f: map<string, StepResult>, r: Plan, f2: map<string, StepResult>)
    requires w.seeds == map[] && forall x :: x in w.g ==> ReferencesBefore(w, x)
    requires id in w.g && u in References(w.table[id].prompt) && !Upstream(w.g, u, id)
    ensures SameSteps(w, r) && DependencyClosed(w.g, r.seeds.Keys)
    ensures Solves(w, env, f) && RecordedIn(r.seeds, f) && Solves(r, env, f2)
    ensures f[id].status == Succeeded && f2[id].status == Failed
  {
    env := AlwaysAnswers();
    f := SolutionExists(w, env);
    EverythingSucceeds(w, f);
    SolutionSkipRule(w, env, f);
    assert ReferencesBefore(w, id);
    r := UpstreamSeeded(w, f, id);
    f2 := SolutionExists(r, env);
    UpstreamOfIsClosed(w.g, id);
    NothingAboveItself(w, id);
    ReadyStepFails(w, r, env, f2, id, u);
  }

  ghost function UpstreamOf(g: Graph, id: string): set<string> {
    set x | x in g && Upstream(g, x, id)
  }

  lemma UpstreamSeeded(w: Plan, f: map<string, StepResult>, id: string) returns (r: Plan)
    requires f.Keys == w.g.Keys && forall x :: x in f ==> f[x].id == x && f[x].status == Succeeded
    ensures SameSteps(w, r) && RecordedIn(r.seeds, f) && r.seeds.Keys == UpstreamOf(w.g, id)
  {
    var seeds := map x | x in UpstreamOf(w.g, id) :: f[x];
    r := Resumed(w, seeds);
  }

  lemma PathSnoc(g: Graph, p: seq<string>, d: string)
    requires DepPath(g, p) && d in g[p[|p| - 1]] && d in g
    ensures DepPath(g, p + [d])
  {
    var q := p + [d];
    forall i | 0 <= i < |q| - 1 ensures q[i + 1] in g[q[i]] {
      if i < |p| - 1 { assert p[i + 1] in g[p[i]]; }
    }
  }

  /** Dependencies of what is upstream are upstream, and so are direct dependencies. */
  lemma UpstreamOfIsClosed(g: Graph, id: string)
    requires forall x, k :: x in g && 0 <= k < |g[x]| ==> g[x][k] in g
    requires id in g
    ensures DependencyClosed(g, UpstreamOf(g, id))
    ensures forall k :: 0 <= k < |g[id]| ==> g[id][k] in UpstreamOf(g, id)
  {
    forall x, d | x in UpstreamOf(g, id) && d in g[x] ensures d in UpstreamOf(g, id) {
      var p :| DepPath(g, p) && |p| >= 2 && p[0] == id && p[|p| - 1] == x;
      PathSnoc(g, p, d);
      assert Upstream(g, d, id);
    }
    forall k | 0 <= k < |g[id]| ensures g[id][k] in UpstreamOf(g, id) {
      PathSnoc(g, [id], g[id][k]);
      assert Upstream(g, g[id][k], id);
    }
  }

  lemma NothingAboveItself(w: Plan, id: string)
    requires w.seeds == map[] && id in w.g
    ensures id !in UpstreamOf(w.g, id)
  {
    forall p | DepPath(w.g, p) && |p| >= 2 && p[0] == id ensures p[|p| - 1] != id {
      DepthFallsAlongPath(w, p, |p| - 1);
    }
  }

  /** With its dependencies resumed, a step runs in the first wave, where a step that was
      not resumed cannot be seen. */
  lemma ReadyStepFails(w: Plan, r: Plan, env: Env, f2: map<string, StepResult>, id: string, u: string)
    requires SameSteps(w, r) && id in w.g && id !in r.seeds && u !in r.seeds
    requires forall k :: 0 <= k < |w.g[id]| ==> w.g[id][k] in r.seeds
    requires u in References(w.table[id].prompt) && Solves(r, env, f2)
    ensures f2[id].status == Failed
  {
    assert r.depth[id] > 1 ==> OneBelow(r.g, r.depth, id);
    assert r.depth[id] == 1;
    assert forall k :: 0 <= k < |w.g[id]| ==> StepEquation(r, env, f2, w.g[id][k]);
    ReferencesDecide(r, env, f2, id);
  }

  /** The successes of a run that started from nothing are closed under dependencies. */
  lemma SuccessesAreClosed(w: Plan, env: Env, f: map<string, StepResult>)
    requires w.seeds == map[] && Solves(w, env, f)
    ensures DependencyClosed(w.g, set id | id in f && f[id].status == Succeeded)
  {
    forall id, d | id in f && f[id].status == Succeeded && d in w.g[id] ensures d in f && f[d].status == Succeeded {
      SolutionSkipRule(w, env, f);
      assert AllSucceeded(f, w.g[id]);
    }
  }

  // ---------- Workflows with a Resume option ----------

  /** The same definition, with results to resume from. */
  ghost function WithResume(w: Workflow, entries: seq<StepResult>): Workflow {
    Workflow(w.steps, w.options.(resume := entries))
  }

  /** Succeeded entries for known steps are those of f; other entries may be anything. */
  ghost predicate TakenFrom(w: Workflow, entries: seq<StepResult>, f: map<string, StepResult>) {
    forall r :: r in entries && r.status == Succeeded && r.id in Ids(w.steps) ==> r.id in f && r == f[r.id]
  }

  lemma SeedsAreTaken(w: Workflow, entries: seq<StepResult>, f: map<string, StepResult>)
    requires Accepted(w) && w.options.resume == [] && TakenFrom(w, entries, f)
    ensures Accepted(WithResume(w, entries)) && SameSteps(PlanOf(w), PlanOf(WithResume(w, entries)))
    ensures PlanOf(w).seeds == map[] && RecordedIn(PlanOf(WithResume(w, entries)).seeds, f)
  {
    SeedsSucceeded(Ids(w.steps), entries);
  }

  /** What Run returns for a workflow resumed from any of its recorded successes is what
      it returns without them, if prompts refer to direct dependencies. */
  lemma ResumedRunAgrees(w: Workflow, env: Env, f: map<string, StepResult>, entries: seq<StepResult>,
                         f2: map<string, StepResult>)
    requires Accepted(w) && w.options.resume == [] && Solves(PlanOf(w), env, f)
    requires forall step :: step in w.steps ==> References(step.prompt) <= Elems(step.dependsOn)
    requires TakenFrom(w, entries, f)
    ensures Accepted(WithResume(w, entries))
    ensures Solves(PlanOf(WithResume(w, entries)), env, f2) ==> f2 == f
  {
    SeedsAreTaken(w, entries, f);
    forall id, u | id in PlanOf(w).g && u in References(PlanOf(w).table[id].prompt) ensures u in PlanOf(w).g[id] {
      var step := PlanOf(w).table[id];
      assert step in w.steps && u in Elems(step.dependsOn);
    }
    if Solves(PlanOf(WithResume(w, entries)), env, f2) {
      DirectReferencesAreSafe(PlanOf(w), PlanOf(WithResume(w, entries)));
      ResumePreserves(PlanOf(w), PlanOf(WithResume(w, entries)), env, f, f2);
    }
  }

  // ---------- Partial results ----------

  /** Whatever the prompt refers to is available in this part, and in an earlier wave. */
  ghost predicate AllSeen(w: Plan, part: map<string, StepResult>, id: string)
    requires id in w.g
  {
    forall u :: u in References(w.table[id].prompt) ==>
      u in part && part[u].status == Succeeded && u in w.g && w.depth[u] < w.depth[id]
  }

  lemma UpstreamIsSeen(w: Plan, part: map<string, StepResult>, id: string)
    requires w.seeds == map[] && UpstreamReferences(w) && id in w.g && AllSucceeded(part, w.g[id])
    requires forall u :: u in part && part[u].status == Succeeded && u in w.g ==> AllSucceeded(part, w.g[u])
    ensures AllSeen(w, part, id)
  {
    UpstreamComesBefore(w, id);
    forall u | u in References(w.table[id].prompt) ensures u in part && part[u].status == Succeeded {
      assert Upstream(w.g, u, id);
      var p :| DepPath(w.g, p) && |p| >= 2 && p[0] == id && p[|p| - 1] == u;
      UpstreamIsThere(w, part, p, |p| - 1);
    }
  }

  lemma DirectIsSeen(w: Plan, part: map<string, StepResult>, id: string)
    requires w.seeds == map[] && DirectReferences(w) && id in w.g && AllSucceeded(part, w.g[id])
    ensures AllSeen(w, part, id)
  {
    DirectReferencesComeBefore(w, id);
    forall u | u in References(w.table[id].prompt) ensures u in part && part[u].status == Succeeded {
      assert u in w.g[id];
      var k :| 0 <= k < |w.g[id]| && w.g[id][k] == u;
    }
  }

  lemma SeenPartAgrees(w: Plan, env: Env, f: map<string, StepResult>, part: map<string, StepResult>, id: string)
    requires w.seeds == map[] && Solves(w, env, f) && forall u :: u in part ==> u in f && part[u] == f[u]
    requires id in w.g && AllSucceeded(part, w.g[id]) && AllSeen(w, part, id)
    ensures Execute(env, w.maxRetries, w.table[id], part) == f[id]
  {
    assert StepEquation(w, env, f, id) && AllSucceeded(f, w.g[id]);
    RenderAgrees(w.table[id].prompt, part, Before(w, f, w.depth[id]));
  }

  /** Whatever part of the results a run has so far, in this or any other order: a ready
      step comes to its result in the uninterrupted run, and a blocked step is skipped
      there too. With direct references the part may be anything; with references
      further up it is closed under dependencies. */
  lemma PartialRunAgrees(w: Plan, env: Env, f: map<string, StepResult>, part: map<string, StepResult>, id: string)
    requires w.seeds == map[] && Solves(w, env, f) && id in w.g
    requires forall u :: u in part ==> u in f && part[u] == f[u]
    requires
      || DirectReferences(w)
      || (UpstreamReferences(w) && forall u :: u in part && part[u].status == Succeeded ==> AllSucceeded(part, w.g[u]))
    ensures AllSucceeded(part, w.g[id]) ==> Execute(env, w.maxRetries, w.table[id], part) == f[id]
    ensures AnyFailed(part, w.g[id]) ==> f[id] == SkippedResult(id)
  {
    assert StepEquation(w, env, f, id);
    if AnyFailed(part, w.g[id]) {
      assert !AllSucceeded(f, w.g[id]);
    }
    if AllSucceeded(part, w.g[id]) {
      if DirectReferences(w) {
        DirectIsSeen(w, part, id);
      } else {
        UpstreamIsSeen(w, part, id);
      }
      SeenPartAgrees(w, env, f, part, id);
    }
  }

  lemma {:induction false} UpstreamIsThere(w: Plan, part: map<string, StepResult>, p: seq<string>, k: nat)
    requires forall u :: u in part && part[u].status == Succeeded && u in w.g ==> AllSucceeded(part, w.g[u])
    requires DepPath(w.g, p) && 0 < k < |p| && AllSucceeded(part, w.g[p[0]])
    ensures p[k] in part && part[p[k]].status == Succeeded
  {
    if k > 1 {
      UpstreamIsThere(w, part, p, k - 1);
    }
    assert p[k - 1 + 1] in w.g[p[k - 1]];
    assert AllSucceeded(part, w.g[p[k - 1]]);
  }
}
