/** The wave executor: Workflow.Run and its helpers, with the two maps they share. */
module Executions {
  import opened Basics
  import opened Workflows
  import opened Prompts
  import opened Semantics

  /** Names the first failed step of a run, in declaration order. */
  datatype WorkflowError = WorkflowError(stepId: string, message: string)

  function Message(err: WorkflowError): string {
    "workflow failed at step \"" + err.stepId + "\": " + err.message
  }

  // ---------- One step ----------

  /** runStep: calls the agent until it answers, retries run out, or the run is
      cancelled during a back-off. Reports also how many calls were made and the total
      back-off that was scheduled. */
  method RunStep(env: Env, options: Options, id: string, prompt: string)
    returns (result: StepResult, calls: nat, cancelled: bool, scheduled: int)
    requires options.maxRetries >= 0
    ensures result == Attempt(env, options.maxRetries, id, prompt, 0)
    ensures calls == if cancelled then result.attempts else result.attempts + 1
    ensures calls == CallsBehind(env, result)
    ensures cancelled ==> result.status == Failed && result.attempts > 0
    ensures cancelled ==> env.cancel(id, result.attempts) == Some(result.error)
    ensures calls <= options.maxRetries + 1
    ensures 2 * scheduled == options.retryDelay * (result.attempts * (result.attempts + 1))
  {
    result := StepResult(id, Running, 0, "", "");
    calls, cancelled, scheduled := 0, false, 0;
    while true
      invariant result.id == id && result.output == ""
      invariant calls == result.attempts <= options.maxRetries && !cancelled
      invariant result.attempts > 0 ==> env.cancel(id, result.attempts).None?
      invariant Attempt(env, options.maxRetries, id, prompt, 0)
                == Attempt(env, options.maxRetries, id, prompt, result.attempts)
      invariant 2 * scheduled == options.retryDelay * (result.attempts * (result.attempts + 1))
      decreases options.maxRetries - result.attempts
    {
      calls := calls + 1;
      match env.reply(id, prompt, result.attempts) {
        case Answer(output) =>
          result := result.(status := Succeeded, output := output, error := "");
          return;
        case Fault(error) =>
          result := result.(error := error);
      }
      if result.attempts >= options.maxRetries {
        result := result.(status := Failed);
        return;
      }
      result := result.(attempts := result.attempts + 1, status := Retrying);
      scheduled := scheduled + result.attempts * options.retryDelay;
      NextTriangle(options.retryDelay, result.attempts);
      match env.cancel(id, result.attempts) {
        case Some(why) =>
          result := result.(status := Failed, error := why);
          cancelled := true;
          return;
        case None =>
      }
    }
  }

  lemma NextTriangle(d: int, n: nat)
    requires n > 0
    ensures d * ((n - 1) * n) + 2 * (n * d) == d * (n * (n + 1))
  {
    assert (n - 1) * n + 2 * n == n * (n + 1);
    assert d * ((n - 1) * n) + d * (2 * n) == d * ((n - 1) * n + 2 * n);
    assert 2 * (n * d) == d * (2 * n);
  }

  method DependenciesSucceeded(step: Step, results: map<string, StepResult>) returns (ok: bool)
    ensures ok <==> AllSucceeded(results, step.dependsOn)
  {
    for k := 0 to |step.dependsOn|
      invariant AllSucceeded(results, step.dependsOn[..k])
    {
      var id := step.dependsOn[k];
      if id !in results || results[id].status != Succeeded {
        return false;
      }
    }
    ok := true;
  }

  method HasFailedDependency(step: Step, results: map<string, StepResult>) returns (failed: bool)
    ensures failed <==> AnyFailed(results, step.dependsOn)
  {
    for k := 0 to |step.dependsOn|
      invariant forall j :: 0 <= j < k ==>
                  step.dependsOn[j] !in results || results[step.dependsOn[j]].status == Succeeded
    {
      var id := step.dependsOn[k];
      if id in results && results[id].status != Succeeded {
        return true;
      }
    }
    failed := false;
  }

  // ---------- Sorting a wave ----------

  ghost predicate SortedById(s: seq<Step>) {
    forall i, j :: 0 <= i < j < |s| ==> Less(s[i].id, s[j].id)
  }

  function InsertById(s: seq<Step>, step: Step): seq<Step> {
    if s == [] || Less(step.id, s[0].id) then [step] + s else [s[0]] + InsertById(s[1..], step)
  }

  lemma {:induction false} InsertByIdSorted(s: seq<Step>, step: Step)
    requires SortedById(s) && forall x :: x in s ==> x.id != step.id
    ensures SortedById(InsertById(s, step))
    ensures forall x :: x in InsertById(s, step) <==> x in s || x == step
  {
    if s != [] {
      LessTotal(step.id, s[0].id);
      assert s == [s[0]] + s[1..];
      if Less(step.id, s[0].id) {
        forall i | 0 < i < |s| ensures Less(step.id, s[i].id) { LessTransitive(step.id, s[0].id, s[i].id); }
      } else {
        var tail := InsertById(s[1..], step);
        InsertByIdSorted(s[1..], step);
        forall i | 0 <= i < |tail| ensures Less(s[0].id, tail[i].id) {
          assert tail[i] in tail;
        }
      }
    }
  }

  // ---------- What the loop keeps ----------

  /** Every unresumed result is justified by finished dependencies. */
  ghost predicate Decided(w: Plan, results: map<string, StepResult>)
    requires results.Keys <= w.g.Keys
  {
    forall id {:trigger AnyFailed(results, w.g[id])} :: id in results && id !in w.seeds ==>
      AllSucceeded(results, w.g[id]) || AnyFailed(results, w.g[id])
  }

  /** The results so far satisfy their equations. */
  ghost predicate SolvesSoFar(w: Plan, env: Env, results: map<string, StepResult>)
  {
    && results.Keys <= w.g.Keys
    && Decided(w, results)
    && forall id {:trigger StepEquation(w, env, results, id)} :: id in results ==> StepEquation(w, env, results, id)
  }

  /** Waves up to k are complete; of later steps only skips are known. */
  ghost predicate WavesDone(w: Tables, results: map<string, StepResult>, k: nat)
    requires w.Shaped() && results.Keys <= w.g.Keys
  {
    && (forall id :: id in w.g && w.depth[id] <= k ==> id in results)
    && (forall id :: id in results && w.depth[id] > k ==> results[id].status == Skipped)
  }

  /** `remaining` is the rest of the step table. */
  ghost predicate IsRemaining(w: Tables, remaining: map<string, Step>, results: map<string, StepResult>)
    requires w.Shaped()
  {
    && remaining.Keys == w.g.Keys - results.Keys
    && forall id :: id in remaining ==> remaining[id] == w.table[id]
  }

  ghost predicate NoneBlocked(remaining: map<string, Step>, results: map<string, StepResult>) {
    forall id :: id in remaining ==> !AnyFailed(results, remaining[id].dependsOn)
  }

  /** The state between two waves. */
  ghost predicate WaveState(w: Plan, env: Env, k: nat, remaining: map<string, Step>, results: map<string, StepResult>)
  {
    && SolvesSoFar(w, env, results)
    && WavesDone(w, results, k)
    && IsRemaining(w, remaining, results)
    && NoneBlocked(remaining, results)
  }

  /** Exactly the steps of the next wave are ready. */
  lemma ReadyIsNextWave(w: Plan, env: Env, k: nat, remaining: map<string, Step>, results: map<string, StepResult>,
                        id: string)
    requires WaveState(w, env, k, remaining, results) && id in remaining
    ensures AllSucceeded(results, remaining[id].dependsOn) <==> w.depth[id] == k + 1
  {
    var deps := w.g[id];
    assert w.depth[id] > k;
    assert id !in w.seeds;
    if AllSucceeded(results, deps) && w.depth[id] > 1 {
      assert OneBelow(w.g, w.depth, id);
      var j :| 0 <= j < |deps| && w.depth[deps[j]] + 1 == w.depth[id];
      assert results[deps[j]].status == Succeeded;
    }
    if w.depth[id] == k + 1 {
      forall j | 0 <= j < |deps| ensures deps[j] in results && results[deps[j]].status == Succeeded {
        assert w.depth[deps[j]] <= k;
      }
    }
  }

  /** While steps remain, the next wave is not empty: the scheduler cannot stall. */
  lemma NeverStalls(w: Plan, env: Env, k: nat, remaining: map<string, Step>, results: map<string, StepResult>)
    returns (next: string)
    requires WaveState(w, env, k, remaining, results) && remaining != map[]
    ensures next in remaining && AllSucceeded(results, remaining[next].dependsOn)
  {
    var some :| some in remaining;
    next := DescendToReady(w, env, k, remaining, results, some);
  }

  lemma {:induction false} DescendToReady(w: Plan, env: Env, k: nat, remaining: map<string, Step>,
                                          results: map<string, StepResult>, id: string)
    returns (next: string)
    requires WaveState(w, env, k, remaining, results) && id in remaining
    ensures next in remaining && AllSucceeded(results, remaining[next].dependsOn)
    decreases w.depth[id]
  {
    if w.depth[id] == k + 1 {
      ReadyIsNextWave(w, env, k, remaining, results, id);
      next := id;
    } else {
      assert id !in w.seeds && w.depth[id] > 1;
      assert OneBelow(w.g, w.depth, id);
      var j :| 0 <= j < |w.g[id]| && w.depth[w.g[id][j]] + 1 == w.depth[id];
      assert w.g[id][j] in remaining;
      next := DescendToReady(w, env, k, remaining, results, w.g[id][j]);
    }
  }

  // ---------- How a wave and a skip cascade move the state ----------

  /** Results of later steps do not disturb the equations of earlier ones. */
  lemma EquationSurvives(w: Plan, env: Env, k: nat, results: map<string, StepResult>, more: map<string, StepResult>,
                         id: string)
    requires SolvesSoFar(w, env, results) && WavesDone(w, results, k)
    requires results.Keys <= more.Keys <= w.g.Keys
    requires forall u :: u in results ==> more[u] == results[u]
    requires id in results
    ensures Decision(w, env, more, id)
  {
    assert StepEquation(w, env, results, id);
    if id !in w.seeds {
      if AllSucceeded(results, w.g[id]) {
        ExecuteShape(env, w.maxRetries, w.table[id], Before(w, results, w.depth[id]));
        assert w.depth[id] <= k;
        assert Before(w, more, w.depth[id]) == Before(w, results, w.depth[id]);
      } else {
        assert AnyFailed(results, w.g[id]);
        FailureStays(results, more, w.g[id]);
      }
    }
  }

  lemma FailureStays(results: map<string, StepResult>, more: map<string, StepResult>, deps: seq<string>)
    requires forall u :: u in results ==> u in more && more[u] == results[u]
    requires AnyFailed(results, deps)
    ensures AnyFailed(more, deps) && !AllSucceeded(more, deps)
  {
    var j :| 0 <= j < |deps| && deps[j] in results && results[deps[j]].status != Succeeded;
    assert deps[j] in more && more[deps[j]].status != Succeeded;
  }

  lemma SuccessStays(results: map<string, StepResult>, more: map<string, StepResult>, deps: seq<string>)
    requires forall u :: u in results ==> u in more && more[u] == results[u]
    requires AllSucceeded(results, deps)
    ensures AllSucceeded(more, deps)
  {
    forall j | 0 <= j < |deps| ensures deps[j] in more && more[deps[j]].status == Succeeded {
      assert deps[j] in results;
    }
  }

  /** `wave` are the remaining steps whose dependencies all succeeded, `rest` the others. */
  ghost predicate Splits(remaining: map<string, Step>, results: map<string, StepResult>, wave: map<string, Step>,
                         rest: map<string, Step>) {
    && (forall id :: id in wave ==> id in remaining && AllSucceeded(results, remaining[id].dependsOn))
    && (forall id {:trigger AllSucceeded(results, remaining[id].dependsOn)} ::
          id in remaining && AllSucceeded(results, remaining[id].dependsOn) ==> id in wave)
    && rest.Keys == remaining.Keys - wave.Keys
    && (forall id :: id in wave ==> wave[id] == remaining[id])
    && (forall id :: id in rest ==> rest[id] == remaining[id])
  }

  /** The wave as a list in id order. */
  ghost predicate Lists(ready: seq<Step>, wave: map<string, Step>) {
    && SortedById(ready)
    && (forall x :: x in ready ==> x.id in wave && wave[x.id] == x)
    && (forall id :: id in wave ==> wave[id].id == id)
    && (forall id {:trigger wave[id] in ready} :: id in wave ==> wave[id] in ready)
  }

  /** `results` are the results before the wave plus those of its completed steps. */
  ghost predicate WaveApplied(env: Env, maxRetries: int, wave: map<string, Step>, pending: set<string>,
                              before: map<string, StepResult>, results: map<string, StepResult>) {
    && results.Keys == before.Keys + (wave.Keys - pending)
    && (forall id :: id in before ==> results[id] == before[id])
    && (forall id {:trigger Execute(env, maxRetries, wave[id], before)} ::
          id in wave && id !in pending ==> results[id] == Execute(env, maxRetries, wave[id], before))
  }

  lemma WaveAdvances(w: Plan, env: Env, k: nat, remaining: map<string, Step>, before: map<string, StepResult>,
                     wave: map<string, Step>, rest: map<string, Step>, after: map<string, StepResult>)
    requires WaveState(w, env, k, remaining, before)
    requires Splits(remaining, before, wave, rest)
    requires WaveApplied(env, w.maxRetries, wave, {}, before, after)
    ensures SolvesSoFar(w, env, after) && WavesDone(w, after, k + 1) && IsRemaining(w, rest, after)
    ensures FreshWave(w, k, before, wave, after)
  {
    ReadyAreNextWave(w, env, k, remaining, before, wave, rest);
    WaveEquations(w, env, k, remaining, before, wave, after);
    WaveIsFresh(w, k, remaining, before, wave, after);
    WaveKeysAdvance(w, k, remaining, before, wave, rest, after);
  }

  lemma ReadyAreNextWave(w: Plan, env: Env, k: nat, remaining: map<string, Step>, before: map<string, StepResult>,
                         wave: map<string, Step>, rest: map<string, Step>)
    requires WaveState(w, env, k, remaining, before)
    requires Splits(remaining, before, wave, rest)
    ensures IsNextWave(w, k, remaining, before, wave)
    ensures rest.Keys == remaining.Keys - wave.Keys
    ensures forall id :: id in wave ==> id in w.table && wave[id] == w.table[id] && AllSucceeded(before, w.g[id])
  {
    forall id | id in remaining ensures id in wave <==> w.depth[id] == k + 1 {
      ReadyIsNextWave(w, env, k, remaining, before, id);
    }
  }

  lemma WaveEquations(w: Plan, env: Env, k: nat, remaining: map<string, Step>, before: map<string, StepResult>,
                      wave: map<string, Step>, after: map<string, StepResult>)
    requires SolvesSoFar(w, env, before) && IsNextWave(w, k, remaining, before, wave)
    requires forall id :: id in wave ==> wave[id] == w.table[id] && AllSucceeded(before, w.g[id])
    requires WaveApplied(env, w.maxRetries, wave, {}, before, after)
    ensures SolvesSoFar(w, env, after)
    ensures forall id :: id in wave ==> after[id].status != Skipped
  {
    forall id | id in after ensures Decision(w, env, after, id) && (id in wave ==> after[id].status != Skipped) {
      if id in before {
        EquationSurvives(w, env, k, before, after, id);
      } else {
        WaveStepEquation(w, env, k, remaining, before, wave, after, id);
      }
    }
    DecisionsSolve(w, env, after);
  }

  /** `wave` holds the remaining steps of depth k + 1, all ready. */
  ghost predicate IsNextWave(w: Tables, k: nat, remaining: map<string, Step>, before: map<string, StepResult>,
                             wave: map<string, Step>)
    requires w.Shaped()
  {
    && before.Keys <= w.g.Keys
    && WavesDone(w, before, k)
    && IsRemaining(w, remaining, before)
    && forall id :: id in wave <==> id in remaining && w.depth[id] == k + 1
  }

  lemma WaveIsFresh(w: Plan, k: nat, remaining: map<string, Step>, before: map<string, StepResult>,
                    wave: map<string, Step>, after: map<string, StepResult>)
    requires IsNextWave(w, k, remaining, before, wave)
    requires after.Keys == before.Keys + wave.Keys && forall id :: id in before ==> after[id] == before[id]
    requires forall id :: id in wave ==> after[id].status != Skipped
    ensures FreshWave(w, k, before, wave, after)
  {
  }

  lemma WaveKeysAdvance(w: Tables, k: nat, remaining: map<string, Step>, before: map<string, StepResult>,
                        wave: map<string, Step>, rest: map<string, Step>, after: map<string, StepResult>)
    requires w.Shaped() && IsNextWave(w, k, remaining, before, wave)
    requires rest.Keys == remaining.Keys - wave.Keys && forall id :: id in rest ==> rest[id] == remaining[id]
    requires after.Keys == before.Keys + wave.Keys && forall id :: id in before ==> after[id] == before[id]
    ensures WavesDone(w, after, k + 1) && IsRemaining(w, rest, after)
  {
  }

  /** The result of this step satisfies its equation and is justified. */
  ghost predicate Decision(w: Plan, env: Env, results: map<string, StepResult>, id: string)
    requires results.Keys <= w.g.Keys && id in results
  {
    StepEquation(w, env, results, id)
        && (id !in w.seeds ==> AllSucceeded(results, w.g[id]) || AnyFailed(results, w.g[id]))
  }

  lemma DecisionsSolve(w: Plan, env: Env, results: map<string, StepResult>)
    requires results.Keys <= w.g.Keys
    requires forall id :: id in results ==> Decision(w, env, results, id)
    ensures SolvesSoFar(w, env, results)
  {
  }

  lemma WaveStepEquation(w: Plan, env: Env, k: nat, remaining: map<string, Step>, before: map<string, StepResult>,
                         wave: map<string, Step>, after: map<string, StepResult>, id: string)
    requires IsNextWave(w, k, remaining, before, wave) && after.Keys <= w.g.Keys
    requires WaveApplied(env, w.maxRetries, wave, {}, before, after)
    requires id in wave && wave[id] == w.table[id] && AllSucceeded(before, w.g[id])
    ensures Decision(w, env, after, id)
    ensures after[id].status != Skipped
  {
    SuccessStays(before, after, w.g[id]);
    WaveSeesEarlierWaves(w, k, remaining, before, wave, after);
    RenderAgrees(wave[id].prompt, Before(w, after, k + 1), before);
    assert after[id] == Execute(env, w.maxRetries, wave[id], before);
    ExecuteShape(env, w.maxRetries, wave[id], before);
  }

  /** Of the results at the start of a wave, prompts can use exactly those of earlier
      waves: anything else there is a skip. */
  lemma WaveSeesEarlierWaves(w: Plan, k: nat, remaining: map<string, Step>, before: map<string, StepResult>,
                             wave: map<string, Step>, after: map<string, StepResult>)
    requires IsNextWave(w, k, remaining, before, wave)
    requires after.Keys == before.Keys + wave.Keys && forall id :: id in before ==> after[id] == before[id]
    ensures forall u :: Output(Before(w, after, k + 1), u) == Output(before, u)
  {
    forall u ensures Output(Before(w, after, k + 1), u) == Output(before, u) {
      if u in before && w.depth[u] > k {
        assert before[u].status == Skipped;
      }
    }
  }

  /** What skipBlocked does: it moves steps from `remaining` to the results as skipped,
      each because of a finished, unsuccessful dependency. */
  ghost predicate Cascaded(remaining0: map<string, Step>, results0: map<string, StepResult>,
                           remaining: map<string, Step>, results: map<string, StepResult>) {
    && remaining.Keys <= remaining0.Keys
    && (forall id :: id in remaining ==> remaining[id] == remaining0[id])
    && results.Keys == results0.Keys + (remaining0.Keys - remaining.Keys)
    && (forall id :: id in results0 ==> results[id] == results0[id])
    && (forall id :: id in remaining0 && id !in remaining ==> results[id] == SkippedResult(id))
    && (forall id {:trigger AnyFailed(results, remaining0[id].dependsOn)} ::
          id in remaining0 && id !in remaining ==> AnyFailed(results, remaining0[id].dependsOn))
  }

  lemma SkipOne(remaining0: map<string, Step>, results0: map<string, StepResult>,
                remaining: map<string, Step>, results: map<string, StepResult>, id: string)
    requires Cascaded(remaining0, results0, remaining, results)
    requires id in remaining && id !in results && AnyFailed(results, remaining[id].dependsOn)
    ensures Cascaded(remaining0, results0, remaining - {id}, results[id := SkippedResult(id)])
  {
    var more := results[id := SkippedResult(id)];
    forall u {:trigger AnyFailed(more, remaining0[u].dependsOn)} | u in remaining0 && u !in remaining - {id}
      ensures AnyFailed(more, remaining0[u].dependsOn)
    {
      assert AnyFailed(results, remaining0[u].dependsOn);
      FailureStays(results, more, remaining0[u].dependsOn);
    }
  }

  lemma CascadeKeeps(w: Plan, env: Env, k: nat, remaining0: map<string, Step>, results0: map<string, StepResult>,
                     remaining: map<string, Step>, results: map<string, StepResult>)
    requires SolvesSoFar(w, env, results0) && WavesDone(w, results0, k) && IsRemaining(w, remaining0, results0)
    requires Cascaded(remaining0, results0, remaining, results) && NoneBlocked(remaining, results)
    ensures WaveState(w, env, k, remaining, results)
  {
    forall id | id in results ensures Decision(w, env, results, id) {
      if id in results0 {
        EquationSurvives(w, env, k, results0, results, id);
      } else {
        SkippedDecision(w, env, k, remaining0, results0, remaining, results, id);
      }
    }
    DecisionsSolve(w, env, results);
    CascadeKeys(w, k, remaining0, results0, remaining, results);
  }

  lemma CascadeKeys(w: Tables, k: nat, remaining0: map<string, Step>, results0: map<string, StepResult>,
                    remaining: map<string, Step>, results: map<string, StepResult>)
    requires w.Shaped() && results0.Keys <= w.g.Keys && WavesDone(w, results0, k)
             && IsRemaining(w, remaining0, results0)
    requires Cascaded(remaining0, results0, remaining, results)
    ensures results.Keys <= w.g.Keys && WavesDone(w, results, k) && IsRemaining(w, remaining, results)
  {
  }

  lemma SkippedDecision(w: Plan, env: Env, k: nat, remaining0: map<string, Step>, results0: map<string, StepResult>,
                        remaining: map<string, Step>, results: map<string, StepResult>, id: string)
    requires results0.Keys <= w.g.Keys && WavesDone(w, results0, k)
    requires IsRemaining(w, remaining0, results0) && Cascaded(remaining0, results0, remaining, results)
    requires id in results && id !in results0 && results.Keys <= w.g.Keys
    ensures Decision(w, env, results, id)
  {
    assert AnyFailed(results, remaining0[id].dependsOn);
    FailureStays(results, results, w.g[id]);
  }

  /** What happens in one turn of the wave loop: the steps that were ready, what remained
      without them, the results with theirs, and the results in the order of completion. */
  datatype Middle = Middle(wave: map<string, Step>, rest: map<string, Step>, after: map<string, StepResult>,
                           batch: seq<StepResult>)

  /** The ready steps were run and completed. */
  ghost predicate WaveRun(env: Env, maxRetries: int, remaining: map<string, Step>, before: map<string, StepResult>,
                          m: Middle) {
    && Splits(remaining, before, m.wave, m.rest)
    && WaveApplied(env, maxRetries, m.wave, {}, before, m.after)
    && Batch(m.wave, {}, m.after, m.batch)
  }

  /** The steps still to run and the results, between two waves. */
  datatype Point = Point(remaining: map<string, Step>, results: map<string, StepResult>)

  /** One turn of the wave loop: what Execution.NextWave does. */
  ghost predicate Turn(w: Plan, env: Env, k: nat, p: Point, m: Middle, q: Point) {
    && WaveState(w, env, k, p.remaining, p.results)
    && WaveRun(env, w.maxRetries, p.remaining, p.results, m)
    && Cascaded(m.rest, m.after, q.remaining, q.results)
  }

  ghost predicate TurnAt(w: Plan, env: Env, points: seq<Point>, middles: seq<Middle>, k: nat)
    requires k < |middles| && |points| == |middles| + 1
  {
    Turn(w, env, k, points[k], middles[k], points[k + 1])
  }

  /** Turn after turn. */
  ghost predicate Turns(w: Plan, env: Env, points: seq<Point>, middles: seq<Middle>) {
    && |points| == |middles| + 1
    && forall k {:trigger TurnAt(w, env, points, middles, k)} :: 0 <= k < |middles| ==>
         TurnAt(w, env, points, middles, k)
  }

  /** All reports, wave after wave. */
  function Reported(middles: seq<Middle>): seq<StepResult> {
    if middles == [] then []
    else Reported(middles[..|middles| - 1]) + middles[|middles| - 1].batch
  }

  /** The turns so far, from the seeds on. */
  ghost predicate RunSoFar(w: Plan, env: Env, points: seq<Point>, middles: seq<Middle>, now: Point,
                           observed: seq<StepResult>) {
    && Turns(w, env, points, middles) && points[0].results == w.seeds && points[|middles|] == now
    && observed == Reported(middles)
  }

  /** The turns of a whole run, from the seeds to its results. */
  ghost predicate RanThrough(w: Plan, env: Env, points: seq<Point>, middles: seq<Middle>,
                             results: map<string, StepResult>, observed: seq<StepResult>) {
    results.Keys == w.table.Keys && RunSoFar(w, env, points, middles, Point(map[], results), observed)
  }

  lemma OneMoreTurn(w: Plan, env: Env, points: seq<Point>, middles: seq<Middle>, observed: seq<StepResult>,
                    p: Point, m: Middle, q: Point)
    requires RunSoFar(w, env, points, middles, p, observed) && Turn(w, env, |middles|, p, m, q)
    ensures RunSoFar(w, env, points + [q], middles + [m], q, observed + m.batch)
  {
    TurnsGrow(w, env, points, middles, m, q);
    ReportedGrows(middles, m);
  }

  lemma TurnsGrow(w: Plan, env: Env, points: seq<Point>, middles: seq<Middle>, m: Middle, q: Point)
    requires Turns(w, env, points, middles) && Turn(w, env, |middles|, points[|middles|], m, q)
    ensures Turns(w, env, points + [q], middles + [m])
  {
    var (points2, middles2) := (points + [q], middles + [m]);
    forall k | 0 <= k < |middles2| ensures TurnAt(w, env, points2, middles2, k) {
      if k < |middles| {
        assert TurnAt(w, env, points, middles, k);
      }
    }
  }

  lemma ReportedGrows(middles: seq<Middle>, m: Middle)
    ensures Reported(middles + [m]) == Reported(middles) + m.batch
  {
    assert (middles + [m])[..|middles|] == middles;
  }

  // ---------- OnStepState ----------

  /** The reports of one wave: one per completed step, carrying its result. */
  ghost predicate Batch(wave: map<string, Step>, pending: set<string>, results: map<string, StepResult>,
                        batch: seq<StepResult>) {
    && (forall j :: 0 <= j < |batch| ==>
          && batch[j].id in wave && batch[j].id !in pending
          && batch[j].id in results && batch[j] == results[batch[j].id])
    && OnceEach(batch)
    && (forall id :: id in wave && id !in pending ==> id in results)
    && (forall id {:trigger results[id] in batch} :: id in wave && id !in pending ==> results[id] in batch)
  }

  ghost function Repeat(x: nat, n: nat): seq<nat> {
    seq(n, _ => x)
  }

  /** The calls of OnStepState so far: once for every step that executed, with its
      result, each in the wave given by its depth, wave after wave. */
  ghost predicate Schedule(w: Tables, results: map<string, StepResult>, observed: seq<StepResult>, waves: seq<nat>)
    requires w.Shaped() && results.Keys <= w.g.Keys
  {
    && |observed| == |waves|
    && (forall i :: 0 <= i < |observed| ==> Executed(w, results, observed[i]) && waves[i] == w.depth[observed[i].id])
    && OnceEach(observed) && WaveByWave(waves)
    && Covers(w, results, observed)
  }

  ghost predicate OnceEach(observed: seq<StepResult>) {
    forall i, j :: 0 <= i < j < |observed| ==> observed[i].id != observed[j].id
  }

  ghost predicate WaveByWave(waves: seq<nat>) {
    forall i, j :: 0 <= i < j < |waves| ==> waves[i] <= waves[j]
  }

  ghost predicate Covers(w: Tables, results: map<string, StepResult>, observed: seq<StepResult>) {
    forall id {:trigger results[id] in observed} ::
      id in results && id !in w.seeds && results[id].status != Skipped ==> results[id] in observed
  }

  /** A step that was neither resumed nor skipped, with its result. */
  ghost predicate Executed(w: Tables, results: map<string, StepResult>, r: StepResult) {
    r.id in results && r == results[r.id] && r.id !in w.seeds && r.status != Skipped
  }

  ghost predicate WavesWithin(waves: seq<nat>, k: nat) {
    forall i :: 0 <= i < |waves| ==> waves[i] <= k
  }

  lemma ScheduleGrows(w: Tables, k: nat, before: map<string, StepResult>, wave: map<string, Step>,
                      after: map<string, StepResult>,
                      observed: seq<StepResult>, waves: seq<nat>, batch: seq<StepResult>)
    requires w.Shaped() && FreshWave(w, k, before, wave, after)
    requires Schedule(w, before, observed, waves) && WavesWithin(waves, k)
    requires Batch(wave, {}, after, batch)
    ensures Schedule(w, after, observed + batch, waves + Repeat(k + 1, |batch|))
    ensures WavesWithin(waves + Repeat(k + 1, |batch|), k + 1)
  {
    NewReportsDiffer(w, k, before, wave, after, observed, batch);
    NewReportsCover(w, k, before, wave, after, observed, batch);
  }

  lemma NewReportsDiffer(w: Tables, k: nat, before: map<string, StepResult>, wave: map<string, Step>,
                         after: map<string, StepResult>,
                         observed: seq<StepResult>, batch: seq<StepResult>)
    requires w.Shaped() && FreshWave(w, k, before, wave, after)
    requires OnceEach(observed) && OnceEach(batch)
    requires forall i :: 0 <= i < |observed| ==> observed[i].id in before
    requires forall j :: 0 <= j < |batch| ==> batch[j].id in wave
    ensures OnceEach(observed + batch)
  {
  }

  lemma NewReportsCover(w: Tables, k: nat, before: map<string, StepResult>, wave: map<string, Step>,
                        after: map<string, StepResult>,
                        observed: seq<StepResult>, batch: seq<StepResult>)
    requires w.Shaped() && FreshWave(w, k, before, wave, after)
    requires Covers(w, before, observed) && Batch(wave, {}, after, batch)
    ensures Covers(w, after, observed + batch)
  {
    forall id {:trigger after[id] in observed + batch} | id in after && id !in w.seeds && after[id].status != Skipped
      ensures after[id] in observed + batch
    {
      if id in before {
        assert before[id] in observed;
      } else {
        assert after[id] in batch;
      }
    }
  }

  /** Skips are not reported. */
  lemma ScheduleIgnoresSkips(w: Tables, before: map<string, StepResult>, after: map<string, StepResult>,
                             observed: seq<StepResult>, waves: seq<nat>)
    requires w.Shaped() && before.Keys <= after.Keys <= w.g.Keys
    requires forall id :: id in after ==> if id in before then after[id] == before[id] else after[id].status == Skipped
    requires Schedule(w, before, observed, waves)
    ensures Schedule(w, after, observed, waves)
  {
    forall id {:trigger after[id] in observed} | id in after && id !in w.seeds && after[id].status != Skipped
      ensures after[id] in observed
    {
      assert before[id] in observed;
    }
  }

  /** The step's prompt can be rendered, so its agent is called. */
  ghost predicate Reaches(step: Step, results: map<string, StepResult>) {
    Render(step.prompt, results).Ok?
  }

  /** Exactly the completed steps of the wave that could be rendered were called, each as
      often as its result says. */
  ghost predicate CallsFrom(env: Env, wave: map<string, Step>, pending: set<string>, before: map<string, StepResult>,
                            results: map<string, StepResult>, calls0: map<string, nat>, calls: map<string, nat>) {
    && (forall id {:trigger id in calls} :: id in calls <==>
          id in calls0 || (id in wave && id !in pending && Reaches(wave[id], before)))
    && (forall id :: id in calls0 ==> id in calls && calls[id] == calls0[id])
    && (forall id :: id in calls && id !in calls0 ==> id in results && calls[id] == CallsBehind(env, results[id]))
  }

  lemma BatchGrows(wave: map<string, Step>, pending: set<string>, results: map<string, StepResult>,
                   batch: seq<StepResult>, result: StepResult)
    requires result.id in pending && result.id in wave && result.id !in results
    requires Batch(wave, pending, results, batch)
    ensures Batch(wave, pending - {result.id}, results[result.id := result], batch + [result])
  {
    var (r2, b2) := (results[result.id := result], batch + [result]);
    forall id {:trigger r2[id] in b2} | id in wave && id !in pending - {result.id} ensures id in r2 && r2[id] in b2 {
      if id == result.id {
        assert b2[|batch|] == result;
      } else {
        assert results[id] in batch;
      }
    }
  }

  /** The state of a wave while some of its steps are still in flight. */
  ghost predicate WaveProgress(env: Env, maxRetries: int, wave: map<string, Step>, pending: set<string>,
                               before: map<string, StepResult>, results: map<string, StepResult>,
                               batch: seq<StepResult>,
                               calls0: map<string, nat>, calls: map<string, nat>) {
    && WaveApplied(env, maxRetries, wave, pending, before, results)
    && Batch(wave, pending, results, batch)
    && CallsFrom(env, wave, pending, before, results, calls0, calls)
  }

  ghost function CountCalls(calls: map<string, nat>, id: string, n: nat): map<string, nat> {
    if n == 0 then calls else calls[id := n]
  }

  lemma WaveProgresses(env: Env, maxRetries: int, wave: map<string, Step>, pending: set<string>,
                       before: map<string, StepResult>, results: map<string, StepResult>, batch: seq<StepResult>,
                       calls0: map<string, nat>, calls: map<string, nat>, result: StepResult, n: nat)
    requires wave.Keys !! before.Keys && result.id in pending && result.id in wave
    requires result == Execute(env, maxRetries, wave[result.id], before)
    requires WaveProgress(env, maxRetries, wave, pending, before, results, batch, calls0, calls)
    requires wave.Keys !! calls0.Keys
    requires n == if Reaches(wave[result.id], before) then CallsBehind(env, result) else 0
    ensures WaveProgress(env, maxRetries, wave, pending - {result.id}, before, results[result.id := result],
                         batch + [result], calls0, CountCalls(calls, result.id, n))
  {
    BatchGrows(wave, pending, results, batch, result);
    CallsProgress(env, wave, pending, before, results, calls0, calls, result, n);
  }

  lemma CallsProgress(env: Env, wave: map<string, Step>, pending: set<string>, before: map<string, StepResult>,
                      results: map<string, StepResult>, calls0: map<string, nat>, calls: map<string, nat>,
                      result: StepResult, n: nat)
    requires CallsFrom(env, wave, pending, before, results, calls0, calls) && wave.Keys !! calls0.Keys
    requires result.id in pending && result.id in wave && result.id !in results
    requires n == if Reaches(wave[result.id], before) then CallsBehind(env, result) else 0
    ensures CallsFrom(env, wave, pending - {result.id}, before, results[result.id := result], calls0,
                      CountCalls(calls, result.id, n))
  {
  }

  lemma WaveBegins(env: Env, maxRetries: int, wave: map<string, Step>, before: map<string, StepResult>,
                   calls0: map<string, nat>)
    ensures WaveProgress(env, maxRetries, wave, wave.Keys, before, before, [], calls0, calls0)
  {
  }

  /** The prompts of the wave, all rendered against the same results. */
  ghost predicate Rendered(wave: map<string, Step>, results: map<string, StepResult>,
                           inFlight: map<string, (Step, Result<string, string>)>) {
    forall id :: id in inFlight ==> id in wave && inFlight[id] == (wave[id], Render(wave[id].prompt, results))
  }

  method RenderWave(ready: seq<Step>, ghost wave: map<string, Step>, results: map<string, StepResult>)
    returns (inFlight: map<string, (Step, Result<string, string>)>)
    requires Lists(ready, wave)
    ensures Rendered(wave, results, inFlight) && inFlight.Keys == wave.Keys
  {
    inFlight := map[];
    for i := 0 to |ready|
      invariant Rendered(wave, results, inFlight)
      invariant forall j :: 0 <= j < i ==> ready[j].id in inFlight
    {
      var step := ready[i];
      assert step in ready;
      var prompt := RenderPrompt(step.prompt, results);
      inFlight := inFlight[step.id := (step, prompt)];
    }
    AllListed(ready, wave, inFlight.Keys);
  }

  lemma AllListed(ready: seq<Step>, wave: map<string, Step>, seen: set<string>)
    requires Lists(ready, wave) && seen <= wave.Keys
    requires forall j :: 0 <= j < |ready| ==> ready[j].id in seen
    ensures seen == wave.Keys
  {
    forall id | id in wave ensures id in seen {
      assert wave[id] in ready;
      var j :| 0 <= j < |ready| && ready[j] == wave[id];
    }
  }

  // ---------- Results of a run ----------

  ghost predicate InOrder(steps: seq<Step>, results: map<string, StepResult>, ordered: seq<StepResult>) {
    |ordered| == |steps| && forall i :: 0 <= i < |steps| ==>
          steps[i].id in results && ordered[i] == results[steps[i].id]
  }

  /** The error is that of the first failed result. */
  ghost predicate FirstFailure(ordered: seq<StepResult>, err: WorkflowError) {
    exists i :: 0 <= i < |ordered| && ordered[i].status == Failed
        && err == WorkflowError(ordered[i].id, ordered[i].error)
      && forall j :: 0 <= j < i ==> ordered[j].status != Failed
  }

  /** What Run hands back for these results. */
  ghost predicate Returns(steps: seq<Step>, results: map<string, StepResult>, ordered: seq<StepResult>,
                          err: Option<WorkflowError>) {
    && InOrder(steps, results, ordered)
    && (err.None? <==> forall i :: 0 <= i < |ordered| ==> ordered[i].status != Failed)
    && (err.Some? ==> FirstFailure(ordered, err.value))
  }

  /** Nothing failed, so nothing was skipped either. */
  lemma NoErrorMeansSuccess(w: Plan, steps: seq<Step>, results: map<string, StepResult>, ordered: seq<StepResult>)
    requires SkipRule(w, results) && results.Keys == Ids(steps) && InOrder(steps, results, ordered)
    ensures (forall i :: 0 <= i < |ordered| ==> ordered[i].status != Failed) <==>
            (forall i :: 0 <= i < |ordered| ==> ordered[i].status == Succeeded)
  {
    forall i | 0 <= i < |ordered| && ordered[i].status != Succeeded
      ensures exists j :: 0 <= j < |ordered| && ordered[j].status == Failed
    {
      var j := FailureBehind(w, steps, results, ordered, i);
    }
  }

  lemma FailureBehind(w: Plan, steps: seq<Step>, results: map<string, StepResult>, ordered: seq<StepResult>, i: nat)
    returns (j: nat)
    requires SkipRule(w, results) && results.Keys == Ids(steps) && InOrder(steps, results, ordered)
    requires i < |ordered| && ordered[i].status != Succeeded
    ensures j < |ordered| && ordered[j].status == Failed
  {
    if ordered[i].status == Failed {
      j := i;
    } else {
      var p := SkippedHasChain(w, results, steps[i].id);
      j :| 0 <= j < |steps| && steps[j].id == p[|p| - 1];
    }
  }

  lemma FailureIsUnique(ordered: seq<StepResult>, e1: WorkflowError, e2: WorkflowError)
    requires FirstFailure(ordered, e1) && FirstFailure(ordered, e2)
    ensures e1 == e2
  {
    var i :| 0 <= i < |ordered| && ordered[i].status == Failed && e1 == WorkflowError(ordered[i].id, ordered[i].error)
      && forall j :: 0 <= j < i ==> ordered[j].status != Failed;
    var k :| 0 <= k < |ordered| && ordered[k].status == Failed && e2 == WorkflowError(ordered[k].id, ordered[k].error)
      && forall j :: 0 <= j < k ==> ordered[j].status != Failed;
  }

  /** Whatever order maps are walked in and steps of a wave complete in, two runs with the
      same agents hand back the same results and the same error. */
  lemma ScheduleIndependence(w: Plan, env: Env, steps: seq<Step>, r1: map<string, StepResult>, o1: seq<StepResult>,
                             e1: Option<WorkflowError>,
                             r2: map<string, StepResult>, o2: seq<StepResult>, e2: Option<WorkflowError>)
    requires Solves(w, env, r1) && Returns(steps, r1, o1, e1)
    requires Solves(w, env, r2) && Returns(steps, r2, o2, e2)
    ensures r1 == r2 && o1 == o2 && e1 == e2
  {
    SolutionUnique(w, env, r1, r2);
    assert o1 == o2;
    if e1.Some? {
      FailureIsUnique(o1, e1.value, e2.value);
    }
  }

  /** Reports extend the dependency order: a step is reported after everything it
      depends on. */
  lemma DependenciesReportFirst(w: Plan, results: map<string, StepResult>, observed: seq<StepResult>, waves: seq<nat>,
                                i: nat, j: nat)
    requires results.Keys <= w.g.Keys && Schedule(w, results, observed, waves)
    requires i < |observed| && j < |observed| && observed[i].id in w.g[observed[j].id]
    ensures i < j
  {
    var k :| 0 <= k < |w.g[observed[j].id]| && w.g[observed[j].id][k] == observed[i].id;
    assert waves[i] < waves[j];
  }

  /** A step that was neither resumed nor skipped, and whose prompt could be rendered
      against the waves before its own. */
  ghost predicate Called(w: Tables, results: map<string, StepResult>, id: string)
    requires w.Shaped() && results.Keys <= w.g.Keys
  {
    && id in results && id !in w.seeds && results[id].status != Skipped
    && Reaches(w.table[id], Before(w, results, w.depth[id]))
  }

  /** Agents were called for exactly these steps, and exactly as often as their results
      say. */
  ghost predicate AgentCalls(w: Tables, env: Env, results: map<string, StepResult>, calls: map<string, nat>)
    requires w.Shaped() && results.Keys <= w.g.Keys
  {
    && (forall id {:trigger id in calls} {:trigger Called(w, results, id)} :: id in calls <==> Called(w, results, id))
    && (forall id :: id in calls ==> id in results && calls[id] == CallsBehind(env, results[id]))
  }

  /** Later results do not change what was called. */
  lemma CalledStays(w: Tables, k: nat, before: map<string, StepResult>, after: map<string, StepResult>, id: string)
    requires w.Shaped() && before.Keys <= after.Keys <= w.g.Keys && WavesDone(w, before, k)
    requires forall u :: u in before ==> after[u] == before[u]
    requires id in before
    ensures Called(w, after, id) <==> Called(w, before, id)
  {
    if id !in w.seeds && before[id].status != Skipped {
      assert Before(w, after, w.depth[id]) == Before(w, before, w.depth[id]);
    }
  }

  /** A step of the wave is called iff its prompt could be rendered when the wave began. */
  lemma WaveCalled(w: Plan, k: nat, remaining: map<string, Step>, before: map<string, StepResult>,
                   wave: map<string, Step>, after: map<string, StepResult>, id: string)
    requires IsNextWave(w, k, remaining, before, wave) && FreshWave(w, k, before, wave, after)
    requires id in wave && wave[id] == w.table[id]
    ensures Called(w, after, id) <==> Reaches(wave[id], before)
  {
    WaveSeesEarlierWaves(w, k, remaining, before, wave, after);
    RenderAgrees(wave[id].prompt, Before(w, after, k + 1), before);
  }

  lemma CallsGrow(w: Plan, env: Env, k: nat, remaining: map<string, Step>, before: map<string, StepResult>,
                  wave: map<string, Step>, after: map<string, StepResult>, calls0: map<string, nat>,
                  calls: map<string, nat>)
    requires IsNextWave(w, k, remaining, before, wave) && FreshWave(w, k, before, wave, after)
    requires forall id :: id in wave ==> wave[id] == w.table[id]
    requires AgentCalls(w, env, before, calls0) && CallsFrom(env, wave, {}, before, after, calls0, calls)
    ensures AgentCalls(w, env, after, calls)
  {
    forall id ensures id in calls <==> Called(w, after, id) {
      if id in before {
        CalledStays(w, k, before, after, id);
      } else if id in wave {
        WaveCalled(w, k, remaining, before, wave, after, id);
      }
    }
  }

  /** Skipped steps are not called. */
  lemma CallsIgnoreSkips(w: Tables, env: Env, k: nat, before: map<string, StepResult>, after: map<string, StepResult>,
                         calls: map<string, nat>)
    requires w.Shaped() && before.Keys <= after.Keys <= w.g.Keys && WavesDone(w, before, k)
    requires forall id :: id in after ==> if id in before then after[id] == before[id] else after[id].status == Skipped
    requires AgentCalls(w, env, before, calls)
    ensures AgentCalls(w, env, after, calls)
  {
    forall id ensures id in calls <==> Called(w, after, id) {
      if id in before {
        CalledStays(w, k, before, after, id);
      }
    }
  }

  lemma SeedsStart(w: Plan, env: Env, remaining: map<string, Step>)
    requires remaining == w.table - w.seeds.Keys
    ensures WaveState(w, env, 0, remaining, w.seeds)
    ensures Schedule(w, w.seeds, [], [])
  {
    DecisionsSolve(w, env, w.seeds);
  }

  /** What was reported and called during the first k waves. */
  ghost predicate Reports(w: Tables, env: Env, k: nat, results: map<string, StepResult>,
                          observed: seq<StepResult>, waves: seq<nat>, calls: map<string, nat>)
    requires w.Shaped() && results.Keys <= w.g.Keys
  {
    Schedule(w, results, observed, waves) && WavesWithin(waves, k) && AgentCalls(w, env, results, calls)
  }

  /** The steps of the wave are new, belong to it, and were not skipped. */
  ghost predicate FreshWave(w: Tables, k: nat, before: map<string, StepResult>, wave: map<string, Step>,
                            after: map<string, StepResult>)
    requires w.Shaped()
  {
    && before.Keys <= w.g.Keys && wave.Keys <= w.g.Keys
    && after.Keys == before.Keys + wave.Keys
    && (forall id :: id in before ==> after[id] == before[id])
    && forall id :: id in wave ==>
          id !in before && id !in w.seeds && w.depth[id] == k + 1 && after[id].status != Skipped
  }

  lemma ReportsGrow(w: Plan, env: Env, k: nat, remaining: map<string, Step>, before: map<string, StepResult>,
                    wave: map<string, Step>, after: map<string, StepResult>, observed: seq<StepResult>, waves: seq<nat>,
                    calls0: map<string, nat>, batch: seq<StepResult>, calls: map<string, nat>)
    requires IsNextWave(w, k, remaining, before, wave) && FreshWave(w, k, before, wave, after)
    requires forall id :: id in wave ==> wave[id] == w.table[id]
    requires Reports(w, env, k, before, observed, waves, calls0)
    requires Batch(wave, {}, after, batch) && CallsFrom(env, wave, {}, before, after, calls0, calls)
    ensures Reports(w, env, k + 1, after, observed + batch, waves + Repeat(k + 1, |batch|), calls)
  {
    ScheduleGrows(w, k, before, wave, after, observed, waves, batch);
    CallsGrow(w, env, k, remaining, before, wave, after, calls0, calls);
  }

  lemma ReportsIgnoreSkips(w: Tables, env: Env, k: nat, remaining: map<string, Step>, before: map<string, StepResult>,
                           rest: map<string, Step>, after: map<string, StepResult>,
                           observed: seq<StepResult>, waves: seq<nat>, calls: map<string, nat>)
    requires w.Shaped() && before.Keys <= after.Keys <= w.g.Keys && WavesDone(w, before, k)
    requires Cascaded(remaining, before, rest, after)
    requires Reports(w, env, k, before, observed, waves, calls)
    ensures Reports(w, env, k, after, observed, waves, calls)
  {
    ScheduleIgnoresSkips(w, before, after, observed, waves);
    CallsIgnoreSkips(w, env, k, before, after, calls);
  }

  /** One wave before the skips. */
  lemma WaveTurn(w: Plan, env: Env, k: nat, remaining: map<string, Step>, before: map<string, StepResult>,
                 wave: map<string, Step>, rest: map<string, Step>, after: map<string, StepResult>,
                 observed: seq<StepResult>, waves: seq<nat>, calls0: map<string, nat>, batch: seq<StepResult>,
                 calls: map<string, nat>)
    requires WaveState(w, env, k, remaining, before) && Splits(remaining, before, wave, rest)
    requires WaveApplied(env, w.maxRetries, wave, {}, before, after)
    requires Reports(w, env, k, before, observed, waves, calls0)
    requires Batch(wave, {}, after, batch) && CallsFrom(env, wave, {}, before, after, calls0, calls)
    ensures SolvesSoFar(w, env, after) && WavesDone(w, after, k + 1) && IsRemaining(w, rest, after)
    ensures Reports(w, env, k + 1, after, observed + batch, waves + Repeat(k + 1, |batch|), calls)
  {
    WaveAdvances(w, env, k, remaining, before, wave, rest, after);
    ReadyAreNextWave(w, env, k, remaining, before, wave, rest);
    ReportsGrow(w, env, k, remaining, before, wave, after, observed, waves, calls0, batch, calls);
  }

  /** The skips after a wave. */
  lemma SkipTurn(w: Plan, env: Env, k: nat, remaining: map<string, Step>, before: map<string, StepResult>,
                 rest: map<string, Step>, after: map<string, StepResult>,
                 observed: seq<StepResult>, waves: seq<nat>, calls: map<string, nat>)
    requires SolvesSoFar(w, env, before) && WavesDone(w, before, k) && IsRemaining(w, remaining, before)
    requires Cascaded(remaining, before, rest, after) && NoneBlocked(rest, after)
    requires Reports(w, env, k, before, observed, waves, calls)
    ensures WaveState(w, env, k, rest, after)
    ensures Reports(w, env, k, after, observed, waves, calls)
  {
    CascadeKeeps(w, env, k, remaining, before, rest, after);
    ReportsIgnoreSkips(w, env, k, remaining, before, rest, after, observed, waves, calls);
  }

  lemma WaveNotEmpty(w: Plan, env: Env, k: nat, remaining: map<string, Step>, results: map<string, StepResult>,
                     ready: seq<Step>, wave: map<string, Step>, rest: map<string, Step>)
    requires WaveState(w, env, k, remaining, results) && remaining != map[]
    requires Splits(remaining, results, wave, rest) && Lists(ready, wave)
    ensures |ready| > 0 && rest.Keys < remaining.Keys
    ensures wave.Keys !! results.Keys
  {
    var next := NeverStalls(w, env, k, remaining, results);
    assert wave[next] in ready;
    assert next !in rest;
  }

  /** Fills the table of steps still to run. */
  method StepTable(steps: seq<Step>) returns (remaining: map<string, Step>)
    requires UniqueIds(steps)
    ensures remaining == Table(steps)
  {
    remaining := map[];
    for n := 0 to |steps|
      invariant forall i :: 0 <= i < n ==> steps[i].id in remaining
      invariant forall id :: id in remaining ==> id in Table(steps) && remaining[id] == Table(steps)[id]
    {
      remaining := remaining[steps[n].id := steps[n]];
    }
  }

  /** Moves the steps with a recorded success over to the results. */
  method SeedResults(table: map<string, Step>, resume: seq<StepResult>)
    returns (remaining: map<string, Step>, results: map<string, StepResult>)
    ensures results == Seeds(table.Keys, resume)
    ensures remaining == table - results.Keys
  {
    remaining, results := table, map[];
    for n := 0 to |resume|
      invariant results == Seeds(table.Keys, resume[..n])
      invariant results.Keys <= table.Keys && remaining == table - results.Keys
    {
      var prior := resume[n];
      assert resume[..n + 1][..n] == resume[..n];
      if prior.status != Succeeded {
        continue;
      }
      if prior.id !in remaining {
        continue;
      }
      results := results[prior.id := prior];
      remaining := remaining - {prior.id};
    }
    assert resume[..|resume|] == resume;
  }

  /** The results in declaration order, and the first failure among them. */
  method Collect(steps: seq<Step>, results: map<string, StepResult>, ghost plan: Plan)
    returns (ordered: seq<StepResult>, err: Option<WorkflowError>)
    requires SkipRule(plan, results)
    requires results.Keys == Ids(steps)
    ensures Returns(steps, results, ordered, err)
    ensures err.None? <==> forall i :: 0 <= i < |ordered| ==> ordered[i].status == Succeeded
  {
    ordered, err := CollectOrdered(steps, results);
    NoErrorMeansSuccess(plan, steps, results, ordered);
  }

  /** The recorded result of a step, or the placeholder for one that was never reached. */
  function Recorded(id: string, results: map<string, StepResult>): StepResult {
    if id in results then results[id] else StepResult(id, Skipped, 0, "", "workflow did not run")
  }

  method CollectOrdered(steps: seq<Step>, results: map<string, StepResult>)
    returns (ordered: seq<StepResult>, err: Option<WorkflowError>)
    requires results.Keys == Ids(steps) && forall id :: id in results ==> results[id].id == id
    ensures Returns(steps, results, ordered, err)
  {
    ordered, err := [], None;
    for n := 0 to |steps|
      invariant InOrder(steps[..n], results, ordered)
      invariant err.None? <==> forall i :: 0 <= i < |ordered| ==> ordered[i].status != Failed
      invariant err.Some? ==> FirstFailure(ordered, err.value)
    {
      var result := Recorded(steps[n].id, results);
      ghost var shorter := ordered;
      ordered := ordered + [result];
      if result.status == Failed && err.None? {
        err := Some(WorkflowError(steps[n].id, result.error));
        assert ordered[n].status == Failed;
      } else if err.Some? {
        StillFirst(shorter, result, err.value);
      }
    }
    assert steps[..|steps|] == steps;
  }

  lemma StillFirst(ordered: seq<StepResult>, more: StepResult, err: WorkflowError)
    requires FirstFailure(ordered, err)
    ensures FirstFailure(ordered + [more], err)
  {
    var i :| 0 <= i < |ordered| && ordered[i].status == Failed && err == WorkflowError(ordered[i].id, ordered[i].error)
      && forall j :: 0 <= j < i ==> ordered[j].status != Failed;
    var longer := ordered + [more];
    assert longer[i] == ordered[i] && forall j :: 0 <= j < i ==> longer[j] == ordered[j];
  }

  // ---------- The run ----------

  /** One run: the maps that readyWave and skipBlocked mutate, and what was reported. */
  class Execution {
    const workflow: Workflow
    var remaining: map<string, Step>
    var results: map<string, StepResult>
    /** The arguments of OnStepState, in call order. */
    var observed: seq<StepResult>
    /** The wave of each observation. */
    ghost var waves: seq<nat>
    /** How often each step's agent was called. */
    ghost var calls: map<string, nat>

    constructor (workflow: Workflow)
      ensures this.workflow == workflow
    {
      this.workflow := workflow;
      remaining, results, observed, waves, calls := map[], map[], [], [], map[];
    }

    /** Run: seeds the results with what is resumed, then runs wave after wave. The
        results solve the workflow's equations, whatever order maps are walked in and
        waves complete in; no step is left over; and the error names the first failed
        step, or is absent iff every step succeeded. */
    method Run(env: Env)
      returns (ordered: seq<StepResult>, err: Option<WorkflowError>, ghost points: seq<Point>,
               ghost middles: seq<Middle>)
      requires Accepted(workflow)
      modifies this
      ensures RanThrough(PlanOf(workflow), env, points, middles, results, observed)
      ensures Solves(PlanOf(workflow), env, results)
      ensures remaining == map[]
      ensures Returns(workflow.steps, results, ordered, err)
      ensures err.None? <==> forall i :: 0 <= i < |ordered| ==> ordered[i].status == Succeeded
      ensures Schedule(PlanOf(workflow), results, observed, waves)
      ensures AgentCalls(PlanOf(workflow), env, results, calls)
    {
      var table := StepTable(workflow.steps);
      remaining, results := SeedResults(table, workflow.options.resume);
      observed, waves, calls := [], [], map[];
      points, middles := RunWaves(env, PlanOf(workflow));
      SolutionSkipRule(PlanOf(workflow), env, results);
      ordered, err := Collect(workflow.steps, results, PlanOf(workflow));
    }

    /** The wave loop. */
    method RunWaves(env: Env, ghost plan: Plan) returns (ghost points: seq<Point>, ghost middles: seq<Middle>)
      requires plan.maxRetries == workflow.options.maxRetries
      requires results == plan.seeds && remaining == plan.table - plan.seeds.Keys
      requires observed == [] && waves == [] && calls == map[]
      modifies this`remaining, this`results, this`observed, this`waves, this`calls
      ensures Solves(plan, env, results)
      ensures remaining == map[]
      ensures Schedule(plan, results, observed, waves)
      ensures AgentCalls(plan, env, results, calls)
      ensures RanThrough(plan, env, points, middles, results, observed)
    {
      points, middles := [Point(remaining, results)], [];
      SeedsStart(plan, env, remaining);
      while remaining != map[]
        invariant WaveState(plan, env, |middles|, remaining, results)
        invariant Reports(plan, env, |middles|, results, observed, waves, calls)
        invariant RunSoFar(plan, env, points, middles, Point(remaining, results), observed)
        decreases remaining.Keys
      {
        ghost var (before, reports) := (Point(remaining, results), observed);
        var progress, middle := NextWave(env, plan, |middles|);
        if !progress {
          break;
        }
        OneMoreTurn(plan, env, points, middles, reports, before, middle, Point(remaining, results));
        points, middles := points + [Point(remaining, results)], middles + [middle];
      }
      assert results.Keys == plan.g.Keys;
    }

    /** One turn of the loop: the ready steps run and report, and then the blocked ones are
        skipped. The wave is never empty: `remaining` shrinks, and the loop's break is
        never taken. */
    method NextWave(env: Env, ghost plan: Plan, ghost k: nat) returns (progress: bool, ghost m: Middle)
      requires plan.maxRetries == workflow.options.maxRetries
      requires remaining != map[] && WaveState(plan, env, k, remaining, results)
      requires Reports(plan, env, k, results, observed, waves, calls)
      modifies this`remaining, this`results, this`observed, this`waves, this`calls
      ensures progress
      ensures WaveState(plan, env, k + 1, remaining, results)
      ensures Reports(plan, env, k + 1, results, observed, waves, calls)
      ensures remaining.Keys < old(remaining).Keys
      ensures WaveRun(env, plan.maxRetries, old(remaining), old(results), m)
      ensures Cascaded(m.rest, m.after, remaining, results) && observed == old(observed) + m.batch
    {
      progress, m := RunReadyTurn(env, plan, k);
      if progress {
        SkipAfterWave(env, plan, k + 1);
      }
    }

    /** The skips after wave k. */
    method SkipAfterWave(ghost env: Env, ghost plan: Plan, ghost k: nat)
      requires SolvesSoFar(plan, env, results) && WavesDone(plan, results, k) && IsRemaining(plan, remaining, results)
      requires Reports(plan, env, k, results, observed, waves, calls)
      modifies this`remaining, this`results
      ensures WaveState(plan, env, k, remaining, results)
      ensures Reports(plan, env, k, results, observed, waves, calls)
      ensures Cascaded(old(remaining), old(results), remaining, results)
    {
      SkipBlocked();
      SkipTurn(plan, env, k, old(remaining), old(results), remaining, results, observed, waves, calls);
    }

    /** The wave proper, with its place in the schedule. */
    method RunReadyTurn(env: Env, ghost plan: Plan, ghost k: nat) returns (progress: bool, ghost m: Middle)
      requires plan.maxRetries == workflow.options.maxRetries
      requires remaining != map[] && WaveState(plan, env, k, remaining, results)
      requires Reports(plan, env, k, results, observed, waves, calls)
      modifies this`remaining, this`results, this`observed, this`waves, this`calls
      ensures progress && remaining.Keys < old(remaining).Keys
      ensures SolvesSoFar(plan, env, results) && WavesDone(plan, results, k + 1)
              && IsRemaining(plan, remaining, results)
      ensures Reports(plan, env, k + 1, results, observed, waves, calls)
      ensures WaveRun(env, plan.maxRetries, old(remaining), old(results), m) && m.rest == remaining
              && m.after == results
      ensures observed == old(observed) + m.batch
    {
      ghost var wave, batch;
      progress, wave, batch := RunReady(env, plan, k);
      WaveTurn(plan, env, k, old(remaining), old(results), wave, remaining, results, old(observed), waves, old(calls),
               batch, calls);
      waves := waves + Repeat(k + 1, |batch|);
      m := Middle(wave, remaining, results, batch);
    }

    /** The ready steps, of which there is at least one. */
    method NextReady(ghost env: Env, ghost plan: Plan, ghost k: nat)
      returns (ready: seq<Step>, ghost wave: map<string, Step>)
      requires remaining != map[] && WaveState(plan, env, k, remaining, results)
      modifies this`remaining
      ensures Splits(old(remaining), results, wave, remaining) && Lists(ready, wave)
      ensures |ready| > 0 && remaining.Keys < old(remaining).Keys && wave.Keys !! results.Keys
    {
      ready, wave := ReadyWave();
      WaveNotEmpty(plan, env, k, old(remaining), results, ready, wave, remaining);
    }

    /** The wave proper: collects the ready steps and runs them. */
    method RunReady(env: Env, ghost plan: Plan, ghost k: nat)
      returns (progress: bool, ghost wave: map<string, Step>, ghost batch: seq<StepResult>)
      requires plan.maxRetries == workflow.options.maxRetries
      requires remaining != map[] && WaveState(plan, env, k, remaining, results)
      requires calls.Keys <= results.Keys
      modifies this`remaining, this`results, this`observed, this`calls
      ensures progress && remaining.Keys < old(remaining).Keys
      ensures Splits(old(remaining), old(results), wave, remaining)
      ensures WaveApplied(env, plan.maxRetries, wave, {}, old(results), results)
      ensures observed == old(observed) + batch && Batch(wave, {}, results, batch)
      ensures CallsFrom(env, wave, {}, old(results), results, old(calls), calls)
    {
      var ready;
      ready, wave := NextReady(env, plan, k);
      if |ready| == 0 {
        return false, map[], [];
      }
      batch := RunWave(env, ready, wave);
      progress := true;
    }

    /** readyWave: takes every step whose dependencies all succeeded out of `remaining`
        and returns them in id order. */
    method ReadyWave() returns (ready: seq<Step>, ghost wave: map<string, Step>)
      requires forall id :: id in remaining ==> remaining[id].id == id
      modifies this`remaining
      ensures Splits(old(remaining), results, wave, remaining)
      ensures Lists(ready, wave)
    {
      ready, wave := [], map[];
      ghost var start := remaining;
      var todo := remaining.Keys;
      while todo != {}
        invariant todo <= remaining.Keys
        invariant forall id :: id in wave <==> id in start && id !in todo && AllSucceeded(results, start[id].dependsOn)
        invariant forall id :: id in remaining <==>
                    id in start && (id in todo || !AllSucceeded(results, start[id].dependsOn))
        invariant forall id :: id in wave ==> wave[id] == start[id]
        invariant forall id :: id in remaining ==> remaining[id] == start[id]
        invariant Lists(ready, wave)
      {
        var id :| id in todo;
        todo := todo - {id};
        var step := remaining[id];
        var ok := DependenciesSucceeded(step, results);
        if ok {
          InsertByIdSorted(ready, step);
          ready := InsertById(ready, step);
          wave := wave[id := step];
          remaining := remaining - {id};
        }
      }
    }

    /** skipBlocked: skips everything that can no longer run, to a fixed point. */
    method SkipBlocked()
      requires forall id :: id in remaining ==> id !in results
      modifies this`remaining, this`results
      ensures Cascaded(old(remaining), old(results), remaining, results)
      ensures NoneBlocked(remaining, results)
    {
      while true
        invariant Cascaded(old(remaining), old(results), remaining, results)
        decreases remaining.Keys
      {
        ghost var atStart := remaining;
        var blocked := false;
        var todo := remaining.Keys;
        while todo != {}
          invariant todo <= remaining.Keys <= atStart.Keys
          invariant Cascaded(old(remaining), old(results), remaining, results)
          invariant !blocked ==> remaining == atStart
          invariant blocked ==> remaining.Keys < atStart.Keys
          invariant !blocked ==> forall id :: id in remaining && id !in todo ==>
                      !AnyFailed(results, remaining[id].dependsOn)
        {
          var id :| id in todo;
          todo := todo - {id};
          var failed := HasFailedDependency(remaining[id], results);
          if failed {
            SkipOne(old(remaining), old(results), remaining, results, id);
            results := results[id := StepResult(id, Skipped, 0, "", "dependency failed")];
            remaining := remaining - {id};
            blocked := true;
          }
        }
        if !blocked {
          return;
        }
      }
    }

    /** Renders every prompt of the wave, then lets the steps complete in any order. */
    method RunWave(env: Env, ready: seq<Step>, ghost wave: map<string, Step>)
      returns (ghost batch: seq<StepResult>)
      requires workflow.options.maxRetries >= 0
      requires Lists(ready, wave) && wave.Keys !! results.Keys && wave.Keys !! calls.Keys
      modifies this`results, this`observed, this`calls
      ensures WaveApplied(env, workflow.options.maxRetries, wave, {}, old(results), results)
      ensures observed == old(observed) + batch && Batch(wave, {}, results, batch)
      ensures CallsFrom(env, wave, {}, old(results), results, old(calls), calls)
    {
      ghost var before, calls0 := results, calls;
      var inFlight := RenderWave(ready, wave, results);
      WaveBegins(env, workflow.options.maxRetries, wave, before, calls0);
      batch := Drain(env, inFlight, wave, before, calls0);
    }

    /** The drain loop: lets the steps in flight complete in any order. */
    method Drain(env: Env, inFlight: map<string, (Step, Result<string, string>)>, ghost wave: map<string, Step>,
                 ghost before: map<string, StepResult>, ghost calls0: map<string, nat>)
      returns (ghost batch: seq<StepResult>)
      requires workflow.options.maxRetries >= 0
      requires Rendered(wave, before, inFlight) && inFlight.Keys == wave.Keys
      requires forall id :: id in wave ==> wave[id].id == id
      requires wave.Keys !! before.Keys && wave.Keys !! calls0.Keys
      requires WaveProgress(env, workflow.options.maxRetries, wave, wave.Keys, before, results, [], calls0, calls)
      modifies this`results, this`observed, this`calls
      ensures WaveProgress(env, workflow.options.maxRetries, wave, {}, before, results, batch, calls0, calls)
      ensures observed == old(observed) + batch
    {
      var pending := inFlight.Keys;
      batch := [];
      while pending != {}
        invariant pending <= inFlight.Keys
        invariant WaveProgress(env, workflow.options.maxRetries, wave, pending, before, results, batch, calls0, calls)
        invariant observed == old(observed) + batch
        decreases pending
      {
        var id :| id in pending;
        var result := Complete(env, inFlight[id].0, inFlight[id].1, wave, pending, before, batch, calls0);
        batch := batch + [result];
        pending := pending - {id};
      }
    }

    /** Runs one step of the wave and records and reports its result. */
    method Complete(env: Env, step: Step, prompt: Result<string, string>, ghost wave: map<string, Step>,
                    ghost pending: set<string>,
                    ghost before: map<string, StepResult>, ghost batch: seq<StepResult>, ghost calls0: map<string, nat>)
      returns (result: StepResult)
      requires workflow.options.maxRetries >= 0 && prompt == Render(step.prompt, before)
      requires step.id in pending && step.id in wave && wave[step.id] == step
      requires wave.Keys !! before.Keys && wave.Keys !! calls0.Keys
      requires WaveProgress(env, workflow.options.maxRetries, wave, pending, before, results, batch, calls0, calls)
      modifies this`results, this`observed, this`calls
      ensures WaveProgress(env, workflow.options.maxRetries, wave, pending - {step.id}, before, results,
                           batch + [result], calls0, calls)
      ensures observed == old(observed) + [result]
    {
      ghost var n;
      result, n := ExecuteStep(env, step, prompt, before);
      WaveProgresses(env, workflow.options.maxRetries, wave, pending, before, results, batch, calls0, calls, result, n);
      results := results[result.id := result];
      observed := observed + [result];
      calls := CountCalls(calls, result.id, n);
    }

    /** One goroutine of the wave: a step whose prompt could not be rendered fails at
        once, any other step is run. */
    method ExecuteStep(env: Env, step: Step, prompt: Result<string, string>, ghost before: map<string, StepResult>)
      returns (result: StepResult, ghost calls: nat)
      requires workflow.options.maxRetries >= 0 && prompt == Render(step.prompt, before)
      ensures result == Execute(env, workflow.options.maxRetries, step, before) && result.id == step.id
      ensures prompt.Err? <==> calls == 0
      ensures calls == if Reaches(step, before) then CallsBehind(env, result) else 0
    {
      ExecuteShape(env, workflow.options.maxRetries, step, before);
      match prompt {
        case Err(error) =>
          result := StepResult(step.id, Failed, 0, "", error);
          calls := 0;
        case Ok(text) =>
          var n, cancelled, scheduled;
          result, n, cancelled, scheduled := RunStep(env, workflow.options, step.id, text);
          calls := n;
      }
    }
  }
}
