/** What a run of a workflow means, independently of scheduling: the outcome of one
    step, the wave each step belongs to, and the final result of every step. */
module Semantics {
  import opened Basics
  import opened Graphs
  import opened Workflows
  import opened Prompts

  /** What an agent call returns. */
  datatype Reply = Answer(output: string) | Fault(error: string)

  /** The outside world of one run: the reply to call number k of a step, and whether
      the run is found cancelled while backing off before that call. A run makes each
      call at most once, so these functions describe any agents, deterministic or not. */
  datatype Env = Env(reply: (string, string, nat) -> Reply, cancel: (string, nat) -> Option<string>)

  /** No back-off is found cancelled. */
  ghost predicate Uninterrupted(env: Env) {
    forall id, k :: env.cancel(id, k).None?
  }

  // ---------- One step ----------

  /** The result of a step from call k on. */
  function Attempt(env: Env, maxRetries: int, id: string, prompt: string, k: nat): StepResult
    decreases maxRetries - k
  {
    match env.reply(id, prompt, k)
    case Answer(output) => StepResult(id, Succeeded, k, output, "")
    case Fault(error) =>
      if k >= maxRetries then StepResult(id, Failed, k, "", error)
      else match env.cancel(id, k + 1)
        case Some(why) => StepResult(id, Failed, k + 1, "", why)
        case None => Attempt(env, maxRetries, id, prompt, k + 1)
  }

  /** The result says exactly what happened: every earlier call failed and was retried;
      the step succeeded with the last answer, or ran out of retries on the last fault,
      or was cancelled while backing off. */
  ghost predicate OutcomeOf(env: Env, maxRetries: nat, id: string, prompt: string, from: nat, r: StepResult) {
    && r.id == id && from <= r.attempts
    && (r.attempts <= maxRetries || r.attempts == from)
    && (forall k :: from <= k < r.attempts ==> env.reply(id, prompt, k).Fault?)
    && (forall k :: from < k < r.attempts ==> env.cancel(id, k).None?)
    && (r.status == Succeeded || r.status == Failed)
    && (r.status == Succeeded ==>
          && r.error == "" && env.reply(id, prompt, r.attempts) == Answer(r.output)
          && (r.attempts > from ==> env.cancel(id, r.attempts).None?))
    && (r.status == Failed ==>
          && r.output == ""
          && ((r.attempts > from && env.cancel(id, r.attempts) == Some(r.error))
              || (r.attempts >= maxRetries && env.reply(id, prompt, r.attempts) == Fault(r.error)
                  && (r.attempts > from ==> env.cancel(id, r.attempts).None?))))
  }

  lemma {:induction false} AttemptOutcome(env: Env, maxRetries: nat, id: string, prompt: string, k: nat)
    ensures OutcomeOf(env, maxRetries, id, prompt, k, Attempt(env, maxRetries, id, prompt, k))
    decreases maxRetries - k
  {
    if env.reply(id, prompt, k).Fault? && k < maxRetries && env.cancel(id, k + 1).None? {
      AttemptOutcome(env, maxRetries, id, prompt, k + 1);
    }
  }

  /** The number of agent calls behind a result: one more than the retries, or exactly as
      many if the run was cancelled while backing off for the last of them. */
  function CallsBehind(env: Env, r: StepResult): nat {
    if r.attempts > 0 && env.cancel(r.id, r.attempts).Some? then r.attempts else r.attempts + 1
  }

  // ---------- One workflow ----------

  predicate AllSucceeded(results: map<string, StepResult>, deps: seq<string>) {
    forall k :: 0 <= k < |deps| ==> deps[k] in results && results[deps[k]].status == Succeeded
  }

  /** Some listed dependency has finished without succeeding. */
  predicate AnyFailed(results: map<string, StepResult>, deps: seq<string>) {
    exists k :: 0 <= k < |deps| && deps[k] in results && results[deps[k]].status != Succeeded
  }

  function SkippedResult(id: string): StepResult {
    StepResult(id, Skipped, 0, "", "dependency failed")
  }

  /** What a ready step comes to when its prompt is rendered against `results`. */
  function Execute(env: Env, maxRetries: int, step: Step, results: map<string, StepResult>): StepResult {
    match Render(step.prompt, results)
    case Err(error) => StepResult(step.id, Failed, 0, "", error)
    case Ok(prompt) => Attempt(env, maxRetries, step.id, prompt, 0)
  }

  /** Workflows that NewWorkflow accepts. */
  ghost predicate Accepted(w: Workflow) {
    w.options.maxRetries >= 0 && w.options.retryDelay >= 0 && ValidDag(w.steps)
  }

  /** Results carried over from an earlier attempt: the first succeeded entry of each
      known step. */
  ghost function Seeds(ids: set<string>, resume: seq<StepResult>): map<string, StepResult> {
    if resume == [] then map[]
    else
      var earlier := Seeds(ids, resume[..|resume| - 1]);
      var last := resume[|resume| - 1];
      if last.status == Succeeded && last.id in ids && last.id !in earlier then earlier[last.id := last] else earlier
  }

  ghost function SeedsOf(w: Workflow): map<string, StepResult> {
    Seeds(Ids(w.steps), w.options.resume)
  }

  lemma {:induction false} SeedsSucceeded(ids: set<string>, resume: seq<StepResult>)
    ensures forall id :: id in Seeds(ids, resume) ==>
              id in ids && Seeds(ids, resume)[id].id == id && Seeds(ids, resume)[id].status == Succeeded
    ensures forall id :: id in Seeds(ids, resume) ==> Seeds(ids, resume)[id] in resume
  {
    if resume != [] {
      SeedsSucceeded(ids, resume[..|resume| - 1]);
    }
  }

  /** The first succeeded entry of a known step is the one that counts. */
  lemma {:induction false} FirstEntrySeeds(ids: set<string>, resume: seq<StepResult>, k: nat)
    requires k < |resume| && resume[k].status == Succeeded && resume[k].id in ids
    requires forall i :: 0 <= i < k ==> resume[i].id != resume[k].id || resume[i].status != Succeeded
    ensures resume[k].id in Seeds(ids, resume) && Seeds(ids, resume)[resume[k].id] == resume[k]
  {
    var front := resume[..|resume| - 1];
    if k < |front| {
      FirstEntrySeeds(ids, front, k);
    } else {
      SeedsSucceeded(ids, front);
      assert forall i :: 0 <= i < |front| ==> front[i] == resume[i];
    }
  }

  // ---------- Waves ----------

  ghost predicate Ranked(g: Graph, rank: map<string, nat>) {
    && rank.Keys == g.Keys
    && forall id, k :: id in g && 0 <= k < |g[id]| ==> g[id][k] in g && rank[g[id][k]] < rank[id]
  }

  /** The wave in which a step runs: resumed steps are there from the start, any other
      step comes one wave after the last of its dependencies. */
  ghost function Depth(g: Graph, rank: map<string, nat>, seeds: set<string>, id: string): nat
    requires Ranked(g, rank) && id in g
    decreases rank[id], |g[id]| + 1
  {
    if id in seeds then 0 else 1 + DeepestOf(g, rank, seeds, id, |g[id]|)
  }

  /** The greatest depth among the first k dependencies. */
  ghost function DeepestOf(g: Graph, rank: map<string, nat>, seeds: set<string>, id: string, k: nat): nat
    requires Ranked(g, rank) && id in g && k <= |g[id]|
    decreases rank[id], k
  {
    if k == 0 then 0
    else
      var dep := g[id][k - 1];
      var (a, b) := (DeepestOf(g, rank, seeds, id, k - 1), Depth(g, rank, seeds, dep));
      if a < b then b else a
  }

  lemma {:induction false} DeepestOfBounds(g: Graph, rank: map<string, nat>, seeds: set<string>, id: string, k: nat)
    requires Ranked(g, rank) && id in g && k <= |g[id]|
    ensures forall i :: 0 <= i < k ==> Depth(g, rank, seeds, g[id][i]) <= DeepestOf(g, rank, seeds, id, k)
    ensures DeepestOf(g, rank, seeds, id, k) == 0
         || exists i :: 0 <= i < k && Depth(g, rank, seeds, g[id][i]) == DeepestOf(g, rank, seeds, id, k)
  {
    if k > 0 {
      DeepestOfBounds(g, rank, seeds, id, k - 1);
    }
  }

  ghost function Depths(g: Graph, rank: map<string, nat>, seeds: set<string>): map<string, nat>
    requires Ranked(g, rank)
  {
    map id | id in g :: Depth(g, rank, seeds, id)
  }

  /** Waves by the facts that fix them: resumed steps have depth 0, and any other step
      lies exactly one below its deepest dependency. */
  ghost predicate DepthTable(g: Graph, seeds: set<string>, depth: map<string, nat>) {
    && depth.Keys == g.Keys
    && (forall id :: id in g ==> (id in seeds <==> depth[id] == 0))
    && (forall id, k :: id in g && id !in seeds && 0 <= k < |g[id]| ==> g[id][k] in g && depth[g[id][k]] < depth[id])
    && (forall id {:trigger OneBelow(g, depth, id)} :: id in g && depth[id] > 1 ==> OneBelow(g, depth, id))
  }

  /** Some dependency lies in the wave just before. */
  ghost predicate OneBelow(g: Graph, depth: map<string, nat>, id: string)
    requires depth.Keys == g.Keys && id in g
  {
    exists k :: 0 <= k < |g[id]| && g[id][k] in g && depth[g[id][k]] + 1 == depth[id]
  }

  lemma DepthsTable(g: Graph, rank: map<string, nat>, seeds: set<string>)
    requires Ranked(g, rank)
    ensures DepthTable(g, seeds, Depths(g, rank, seeds))
  {
    forall id | id in g
      ensures id in seeds <==> Depth(g, rank, seeds, id) == 0
      ensures forall k :: id !in seeds && 0 <= k < |g[id]| ==>
                Depth(g, rank, seeds, g[id][k]) < Depth(g, rank, seeds, id)
      ensures Depth(g, rank, seeds, id) > 1 ==>
                exists k :: 0 <= k < |g[id]| && Depth(g, rank, seeds, g[id][k]) == Depth(g, rank, seeds, id) - 1
    {
      DeepestOfBounds(g, rank, seeds, id, |g[id]|);
    }
  }

  // ---------- Plans ----------

  /** The tables of a workflow: its graph, ranks and waves, its steps by id, and the
      results it starts from. */
  datatype Tables = Tables(g: Graph, rank: map<string, nat>, depth: map<string, nat>, table: map<string, Step>,
                           seeds: map<string, StepResult>, maxRetries: nat)
  {
    /** All tables speak about the same steps. */
    ghost predicate Shaped() {
      g.Keys == rank.Keys == depth.Keys == table.Keys && seeds.Keys <= g.Keys
    }

    /** Ranks fall along dependencies, waves are as they must be, and rows agree. */
    ghost predicate Good() {
      && Shaped()
      && Ranked(g, rank)
      && DepthTable(g, seeds.Keys, depth)
      && (forall id :: id in table ==> table[id].id == id && table[id].dependsOn == g[id])
      && (forall id :: id in seeds ==> seeds[id].id == id && seeds[id].status == Succeeded)
    }
  }

  type Plan = t: Tables | t.Good() witness Tables(map[], map[], map[], map[], map[], 0)

  ghost function Ranks(g: Graph): map<string, nat>
    requires Acyclic(g)
  {
    map id | id in g :: Rank(g, id)
  }

  lemma RanksFall(g: Graph)
    requires Closed(g) && Acyclic(g)
    ensures Ranked(g, Ranks(g))
  {
    forall id, k | id in g && 0 <= k < |g[id]| ensures g[id][k] in g && Rank(g, g[id][k]) < Rank(g, id) {
      RankDecreases(g, id, g[id][k]);
    }
  }

  ghost function TablesOf(w: Workflow): Tables
    requires Accepted(w)
  {
    var g := GraphOf(w.steps);
    WellFormedGraph(w.steps);
    RanksFall(g);
    Tables(g, Ranks(g), Depths(g, Ranks(g), SeedsOf(w).Keys), Table(w.steps), SeedsOf(w), w.options.maxRetries)
  }

  lemma TablesAreGood(w: Workflow)
    requires Accepted(w)
    ensures TablesOf(w).Good()
  {
    var g := GraphOf(w.steps);
    WellFormedGraph(w.steps);
    RanksFall(g);
    SeedsSucceeded(Ids(w.steps), w.options.resume);
    DepthsTable(g, Ranks(g), SeedsOf(w).Keys);
  }

  /** The plan of an accepted workflow. */
  ghost function PlanOf(w: Workflow): (plan: Plan)
    requires Accepted(w)
    ensures plan.g == GraphOf(w.steps) && plan.table == Table(w.steps)
    ensures plan.seeds == SeedsOf(w) && plan.maxRetries == w.options.maxRetries
  {
    TablesAreGood(w);
    TablesOf(w)
  }

  // ---------- Results ----------

  /** The results of the waves before d. */
  ghost function Before(w: Tables, f: map<string, StepResult>, d: nat): map<string, StepResult>
    requires f.Keys <= w.depth.Keys
  {
    map u | u in f && w.depth[u] < d :: f[u]
  }

  /** The equation a step's result satisfies: a resumed step keeps its recorded result;
      a step whose dependencies all succeeded is executed, its prompt seeing exactly the
      earlier waves; any other step is skipped. */
  ghost predicate StepEquation(w: Plan, env: Env, f: map<string, StepResult>, id: string)
    requires f.Keys <= w.g.Keys && id in f
  {
    if id in w.seeds then f[id] == w.seeds[id]
    else if AllSucceeded(f, w.g[id]) then
      f[id] == Execute(env, w.maxRetries, w.table[id], Before(w, f, w.depth[id]))
    else f[id] == SkippedResult(id)
  }

  /** f is the outcome of running the plan in this environment. */
  ghost predicate Solves(w: Plan, env: Env, f: map<string, StepResult>)
  {
    && f.Keys == w.g.Keys
    && forall id {:trigger StepEquation(w, env, f, id)} :: id in f ==> StepEquation(w, env, f, id)
  }

  /** The equations have one solution: what a run returns does not depend on scheduling. */
  lemma SolutionUnique(w: Plan, env: Env, f1: map<string, StepResult>, f2: map<string, StepResult>)
    requires Solves(w, env, f1) && Solves(w, env, f2)
    ensures f1 == f2
  {
    forall id | id in w.g ensures f1[id] == f2[id] {
      SolutionsAgree(w, env, f1, f2, w.depth[id]);
    }
  }

  lemma {:induction false} SolutionsAgree(w: Plan, env: Env, f1: map<string, StepResult>, f2: map<string, StepResult>,
                                          d: nat)
    requires Solves(w, env, f1) && Solves(w, env, f2)
    ensures forall id :: id in w.g && w.depth[id] <= d ==> f1[id] == f2[id]
  {
    if d > 0 {
      SolutionsAgree(w, env, f1, f2, d - 1);
      assert Before(w, f1, d) == Before(w, f2, d);
    }
    forall id | id in w.g && w.depth[id] == d ensures f1[id] == f2[id] {
      assert StepEquation(w, env, f1, id) && StepEquation(w, env, f2, id);
      if id !in w.seeds {
        assert AllSucceeded(f1, w.g[id]) <==> AllSucceeded(f2, w.g[id]);
      }
    }
  }

  lemma ExecuteShape(env: Env, maxRetries: nat, step: Step, results: map<string, StepResult>)
    ensures Execute(env, maxRetries, step, results).id == step.id
    ensures Execute(env, maxRetries, step, results).status in {Succeeded, Failed}
    ensures Execute(env, maxRetries, step, results).attempts <= maxRetries
  {
    match Render(step.prompt, results)
    case Err(_) =>
    case Ok(prompt) => AttemptOutcome(env, maxRetries, step.id, prompt, 0);
  }

  /** A prompt reference, declared as a dependency or not, resolves iff the step it names
      succeeded in an earlier wave; a ready step reaches its agent iff all of its
      references resolve, and otherwise fails without a call. */
  lemma ReferencesDecide(w: Plan, env: Env, f: map<string, StepResult>, id: string)
    requires Solves(w, env, f) && id in f && id !in w.seeds && AllSucceeded(f, w.g[id])
    ensures (forall u :: u in References(w.table[id].prompt) ==>
               u in f && f[u].status == Succeeded && w.depth[u] < w.depth[id])
            <==> Render(w.table[id].prompt, Before(w, f, w.depth[id])).Ok?
    ensures Render(w.table[id].prompt, Before(w, f, w.depth[id])).Ok? ==>
              f[id] == Attempt(env, w.maxRetries, id, Render(w.table[id].prompt, Before(w, f, w.depth[id])).value, 0)
    ensures Render(w.table[id].prompt, Before(w, f, w.depth[id])).Err? ==>
              f[id] == StepResult(id, Failed, 0, "", Render(w.table[id].prompt, Before(w, f, w.depth[id])).error)
  {
    assert StepEquation(w, env, f, id);
    RenderSucceeds(w.table[id].prompt, Before(w, f, w.depth[id]));
  }

  // ---------- Skips ----------

  /** Complete results in which exactly the unresumed steps with an unsuccessful
      dependency are skipped. */
  ghost predicate SkipRule(w: Plan, f: map<string, StepResult>) {
    && f.Keys == w.g.Keys
    && (forall id :: id in f ==> f[id].id == id && f[id].status in {Succeeded, Failed, Skipped})
    && (forall id {:trigger AllSucceeded(f, w.g[id])} :: id in f ==>
          (f[id].status == Skipped <==> id !in w.seeds && !AllSucceeded(f, w.g[id])))
  }

  lemma SolutionSkipRule(w: Plan, env: Env, f: map<string, StepResult>)
    requires Solves(w, env, f)
    ensures SkipRule(w, f)
  {
    forall id | id in f
      ensures f[id].id == id && f[id].status in {Succeeded, Failed, Skipped}
      ensures f[id].status == Skipped <==> id !in w.seeds && !AllSucceeded(f, w.g[id])
    {
      assert StepEquation(w, env, f, id);
      ExecuteShape(env, w.maxRetries, w.table[id], Before(w, f, w.depth[id]));
    }
  }

  /** A dependency path whose last step failed and whose other steps were skipped. */
  ghost predicate SkipChain(w: Plan, f: map<string, StepResult>, p: seq<string>)
    requires w.g.Keys == f.Keys
  {
    && DepPath(w.g, p) && |p| >= 2
    && f[p[|p| - 1]].status == Failed
    && forall i :: 0 <= i < |p| - 1 ==> f[p[i]].status == Skipped
  }

  lemma {:induction false} SkippedHasChain(w: Plan, f: map<string, StepResult>, id: string) returns (p: seq<string>)
    requires SkipRule(w, f) && id in f && f[id].status == Skipped
    ensures SkipChain(w, f, p) && p[0] == id
    decreases w.rank[id]
  {
    assert !AllSucceeded(f, w.g[id]);
    var k :| 0 <= k < |w.g[id]| && !(w.g[id][k] in f && f[w.g[id][k]].status == Succeeded);
    var d := w.g[id][k];
    if f[d].status == Failed {
      p := [id, d];
    } else {
      var rest := SkippedHasChain(w, f, d);
      PathCons(w.g, id, rest);
      p := [id] + rest;
    }
  }

  /** A step ends skipped iff it was not resumed and a dependency path through skipped
      steps leads to a failed one. */
  lemma SkipCharacterised(w: Plan, env: Env, f: map<string, StepResult>, id: string)
    requires Solves(w, env, f) && id in f
    ensures f[id].status == Skipped <==> id !in w.seeds && exists p :: SkipChain(w, f, p) && p[0] == id
    ensures f[id].status == Skipped ==> f[id] == StepResult(id, Skipped, 0, "", "dependency failed")
  {
    assert StepEquation(w, env, f, id);
    ExecuteShape(env, w.maxRetries, w.table[id], Before(w, f, w.depth[id]));
    SolutionSkipRule(w, env, f);
    assert AllSucceeded(f, w.g[id]) || !AllSucceeded(f, w.g[id]);
    if f[id].status == Skipped {
      var p := SkippedHasChain(w, f, id);
    } else {
      assert forall p :: SkipChain(w, f, p) ==> f[p[0]].status == Skipped;
    }
  }

  /** Without resumed steps, everything that depends on a failed step, directly or not,
      is skipped. */
  lemma {:induction false} FailureReaches(w: Plan, f: map<string, StepResult>, p: seq<string>, k: nat)
    requires SkipRule(w, f) && w.seeds == map[] && DepPath(w.g, p) && k < |p| - 1
    requires f[p[|p| - 1]].status == Failed
    ensures f[p[k]].status == Skipped
    decreases |p| - k
  {
    if k + 1 < |p| - 1 {
      FailureReaches(w, f, p, k + 1);
    }
    assert p[k + 1] in w.g[p[k]];
    assert !AllSucceeded(f, w.g[p[k]]);
  }

  /** Without resume: skipped iff some upstream step failed. */
  lemma SkippedIffUpstreamFailed(w: Plan, env: Env, f: map<string, StepResult>, id: string)
    requires Solves(w, env, f) && id in f && w.seeds == map[]
    ensures f[id].status == Skipped <==> exists u :: u in f && Upstream(w.g, u, id) && f[u].status == Failed
  {
    SolutionSkipRule(w, env, f);
    if f[id].status == Skipped {
      var p := SkippedHasChain(w, f, id);
      assert Upstream(w.g, p[|p| - 1], id);
    }
    forall p | DepPath(w.g, p) && |p| >= 2 && p[0] == id && f[p[|p| - 1]].status == Failed
      ensures f[id].status == Skipped
    {
      FailureReaches(w, f, p, 0);
    }
  }

  // ---------- Depth is the longest chain ----------

  /** Without resume, the depth of a step is the number of steps on the longest
      dependency path that starts at it. */
  lemma DepthIsLongestPath(w: Plan, id: string)
    requires w.seeds == map[] && id in w.g
    ensures forall p :: DepPath(w.g, p) && p[0] == id ==> |p| <= w.depth[id]
    ensures exists p :: DepPath(w.g, p) && p[0] == id && |p| == w.depth[id]
  {
    forall p | DepPath(w.g, p) && p[0] == id ensures |p| <= w.depth[id] {
      PathWithinDepth(w, p, 0);
    }
    var p := DeepestPath(w, id);
  }

  lemma {:induction false} PathWithinDepth(w: Plan, p: seq<string>, k: nat)
    requires w.seeds == map[] && DepPath(w.g, p) && k < |p|
    ensures |p| - k <= w.depth[p[k]]
    decreases |p| - k
  {
    if k < |p| - 1 {
      PathWithinDepth(w, p, k + 1);
      assert p[k + 1] in w.g[p[k]];
    }
  }

  lemma {:induction false} DeepestPath(w: Plan, id: string) returns (p: seq<string>)
    requires w.seeds == map[] && id in w.g
    ensures DepPath(w.g, p) && p[0] == id && |p| == w.depth[id]
    decreases w.depth[id]
  {
    if w.depth[id] <= 1 {
      p := [id];
    } else {
      assert OneBelow(w.g, w.depth, id);
      var k :| 0 <= k < |w.g[id]| && w.depth[w.g[id][k]] == w.depth[id] - 1;
      var rest := DeepestPath(w, w.g[id][k]);
      PathCons(w.g, id, rest);
      p := [id] + rest;
    }
  }
}
