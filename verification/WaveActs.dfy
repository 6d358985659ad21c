/** The wave executor as a session: one turn of its loop is a sequence of session acts that
    reaches the same results, with the steps landing in the order in which the executor
    reports them. */
module WaveActs {
  import opened Basics
  import opened Graphs
  import opened Workflows
  import opened Prompts
  import opened Semantics
  import opened Executions
  import opened Sessions
  import opened Protocol
  import opened Solo

  /** A session in the middle of a run, whose worker owns the job and has not been refused
      a step; every succeeded row is among the results. */
  ghost predicate At(d: Desk, sc: Scene, results: map<string, StepResult>, flights: map<string, Flight>) {
    && sc.session.Some? && sc.session.value.phase.Executing?
    && sc.session.value.phase.results == results && sc.session.value.phase.flights == flights
    && !sc.session.value.phase.fence
    && sc.job.row.owner == Some(d.worker) && sc.job.row.results.Keys == sc.job.table.Keys
    && forall id :: id in sc.job.row.results && sc.job.row.results[id].status == Succeeded ==> id in results
  }

  /** What the acts of a run leave as it is. */
  ghost predicate SameJob(sc: Scene, sc2: Scene) {
    sc2.queue == sc.queue && sc2.job.table == sc.job.table && sc2.job.row.steps == sc.job.row.steps
  }

  /** Without a cancellation the run is not stopped by its own acts. */
  ghost predicate StaysCalm(env: Env, sc: Scene, sc2: Scene) {
    Uninterrupted(env) && sc.session.Some? && sc2.session.Some? ==> sc2.session.value.stop == sc.session.value.stop
  }

  /** The steps recorded by these acts, in order. */
  function Landings(acts: seq<Act>): seq<string> {
    if acts == [] then []
    else
      var front := Landings(acts[..|acts| - 1]);
      var last := acts[|acts| - 1];
      if last.Land? then front + [last.step] else front
  }

  lemma {:induction false} LandingsConcat(a: seq<Act>, b: seq<Act>)
    ensures Landings(a + b) == Landings(a) + Landings(b)
  {
    if b == [] {
      assert a + b == a;
    } else {
      assert (a + b)[..|a + b| - 1] == a + b[..|b| - 1];
      LandingsConcat(a, b[..|b| - 1]);
    }
  }

  lemma LandingsOne(act: Act)
    ensures Landings([act]) == if act.Land? then [act.step] else []
  {
    assert [act][..0] == [];
    assert Landings([]) == [];
  }

  /** One more act after some. */
  lemma Then(d: Desk, sc: Scene, acts: seq<Act>, mid: Scene, act: Act, next: Scene)
    requires Alone(d, sc, acts) == Some(mid) && OneAct(d, mid, act) == Some(next)
    ensures Alone(d, sc, acts + [act]) == Some(next)
    ensures Landings(acts + [act]) == Landings(acts) + if act.Land? then [act.step] else []
  {
    AloneThen(d, sc, acts, mid, act, next);
    LandingsConcat(acts, [act]);
    LandingsOne(act);
  }

  // ---------- Starting a wave ----------

  /** What becomes of a step when it is started. */
  function FirstFlight(step: Step, results: map<string, StepResult>): Flight {
    match Render(step.prompt, results)
    case Ok(prompt) => Claiming(prompt, 0)
    case Err(error) => Landed(StepResult(step.id, Failed, 0, "", error))
  }

  /** The flights of the started steps. */
  ghost function FirstFlights(wave: map<string, Step>, started: seq<string>,
                              results: map<string, StepResult>): map<string, Flight> {
    map id | id in started && id in wave :: FirstFlight(wave[id], results)
  }

  /** The steps of the wave are ready, and known to the job. */
  ghost predicate ReadyWaveOf(sc: Scene, wave: map<string, Step>, results: map<string, StepResult>) {
    forall id :: id in wave ==>
      && id in sc.job.table && sc.job.table[id] == wave[id] && wave[id].id == id
      && id !in results && AllSucceeded(results, wave[id].dependsOn)
  }

  /** Every step of the wave is rendered and started before any of them goes on. */
  lemma {:induction false} StartsAlone(d: Desk, sc: Scene, wave: map<string, Step>, order: seq<string>,
                                       results: map<string, StepResult>)
    returns (acts: seq<Act>, sc2: Scene)
    requires At(d, sc, results, map[]) && ReadyWaveOf(sc, wave, results)
    requires NoDup(order) && forall id :: id in order ==> id in wave
    ensures Alone(d, sc, acts) == Some(sc2) && At(d, sc2, results, FirstFlights(wave, order, results))
    ensures sc2.job == sc.job && sc2.queue == sc.queue && Landings(acts) == []
    decreases |order|
    ensures sc2.session.value.stop == sc.session.value.stop
  {
    if order == [] {
      acts, sc2 := [], sc;
    } else {
      var (front, last) := (order[..|order| - 1], order[|order| - 1]);
      assert order == front + [last];
      var first, mid := StartsAlone(d, sc, wave, front, results);
      FlightsGrow(wave, front, last, results);
      sc2 := StartOne(d, mid, wave, last, results, FirstFlights(wave, front, results));
      Then(d, sc, first, mid, Start(last), sc2);
      acts := first + [Start(last)];
    }
  }

  lemma FlightsGrow(wave: map<string, Step>, front: seq<string>, last: string, results: map<string, StepResult>)
    requires last in wave && NoDup(front + [last])
    ensures last !in FirstFlights(wave, front, results) && NoDup(front) && last !in front
    ensures FirstFlights(wave, front + [last], results)
         == FirstFlights(wave, front, results)[last := FirstFlight(wave[last], results)]
  {
    var all := front + [last];
    forall i, j | 0 <= i < j < |front| ensures front[i] != front[j] {
      assert all[i] == front[i] && all[j] == front[j];
    }
    forall i | 0 <= i < |front| ensures front[i] != last {
      assert all[i] == front[i] && all[|front|] == last;
    }
  }

  lemma StartOne(d: Desk, sc: Scene, wave: map<string, Step>, id: string, results: map<string, StepResult>,
                 flights: map<string, Flight>)
    returns (sc2: Scene)
    requires At(d, sc, results, flights) && ReadyWaveOf(sc, wave, results) && id in wave && id !in flights
    ensures OneAct(d, sc, Start(id)) == Some(sc2) && At(d, sc2, results, flights[id := FirstFlight(wave[id], results)])
    ensures sc2.job == sc.job && sc2.queue == sc.queue
    ensures sc2.session.value.stop == sc.session.value.stop
  {
    sc2 := OneAct(d, sc, Start(id)).value;
  }

  // ---------- One step ----------

  /** Rows other than this step's are as they were. */
  ghost predicate OnlyRow(sc: Scene, sc2: Scene, id: string) {
    && SameJob(sc, sc2) && sc2.job.row.results.Keys == sc.job.row.results.Keys
    && forall x :: x in sc.job.row.results && x != id ==> sc2.job.row.results[x] == sc.job.row.results[x]
  }

  /** A claim and a reply. */
  lemma CallAlone(d: Desk, sc: Scene, id: string, prompt: string, k: nat, reply: Reply,
                  results: map<string, StepResult>, flights: map<string, Flight>)
    returns (sc2: Scene)
    requires At(d, sc, results, flights) && id in flights && flights[id] == Claiming(prompt, k)
    requires id in sc.job.table && id !in results
    ensures Alone(d, sc, [ClaimStep(id)] + [AgentReplies(id, reply)]) == Some(sc2)
    ensures At(d, sc2, results, flights[id := AfterReply(d.c, id, prompt, k, reply)]) && OnlyRow(sc, sc2, id)
    ensures sc2.session.value.stop == sc.session.value.stop
  {
    var mid := OneAct(d, sc, ClaimStep(id)).value;
    AloneOne(d, sc, ClaimStep(id), mid);
    sc2 := OneAct(d, mid, AgentReplies(id, reply)).value;
    AloneThen(d, sc, [ClaimStep(id)], mid, AgentReplies(id, reply), sc2);
    assert sc2.session.value.phase.flights == flights[id := AfterReply(d.c, id, prompt, k, reply)];
  }

  /** Going on after a back-off. */
  lemma WakeAlone(d: Desk, sc: Scene, id: string, prompt: string, k: nat,
                  results: map<string, StepResult>, flights: map<string, Flight>)
    returns (sc2: Scene)
    requires At(d, sc, results, flights) && id in flights && flights[id] == BackingOff(prompt, k)
    ensures Alone(d, sc, [Wake(id)]) == Some(sc2) && At(d, sc2, results, flights[id := Claiming(prompt, k)])
    ensures sc2.job == sc.job && sc2.queue == sc.queue
    ensures sc2.session.value.stop == sc.session.value.stop
  {
    sc2 := OneAct(d, sc, Wake(id)).value;
    AloneOne(d, sc, Wake(id), sc2);
  }

  /** The shutdown comes, unless the run is being stopped already. */
  lemma StopAlone(d: Desk, sc: Scene, results: map<string, StepResult>, flights: map<string, Flight>)
    returns (acts: seq<Act>, sc2: Scene)
    requires At(d, sc, results, flights)
    ensures Alone(d, sc, acts) == Some(sc2) && Landings(acts) == []
    ensures At(d, sc2, results, flights) && sc2.session.value.stop != Going
    ensures sc2.job == sc.job && sc2.queue == sc.queue
  {
    if sc.session.value.stop == Going {
      acts, sc2 := [Cancel], OneAct(d, sc, Cancel).value;
      AloneOne(d, sc, Cancel, sc2);
      LandingsOne(Cancel);
    } else {
      acts, sc2 := [], sc;
    }
  }

  lemma InterruptAlone(d: Desk, sc: Scene, id: string, prompt: string, k: nat, why: string,
                       results: map<string, StepResult>, flights: map<string, Flight>)
    returns (sc2: Scene)
    requires At(d, sc, results, flights) && id in flights && flights[id] == BackingOff(prompt, k)
    requires sc.session.value.stop != Going
    ensures OneAct(d, sc, Interrupt(id, why)) == Some(sc2)
    ensures At(d, sc2, results, flights[id := Landed(StepResult(id, Failed, k, "", why))])
    ensures sc2.job == sc.job && sc2.queue == sc.queue
    ensures sc2.session.value.stop == sc.session.value.stop
  {
    sc2 := OneAct(d, sc, Interrupt(id, why)).value;
  }

  /** Going on after a back-off, or being found cancelled in it. */
  lemma BackOffAlone(d: Desk, sc: Scene, id: string, prompt: string, k: nat, cancelled: Option<string>,
                     results: map<string, StepResult>, flights: map<string, Flight>)
    returns (acts: seq<Act>, sc2: Scene)
    requires At(d, sc, results, flights) && id in flights && flights[id] == BackingOff(prompt, k)
    ensures Alone(d, sc, acts) == Some(sc2) && Landings(acts) == []
    ensures At(d, sc2, results, flights[id := match cancelled
                                              case None => Claiming(prompt, k)
                                              case Some(why) => Landed(StepResult(id, Failed, k, "", why))])
    ensures sc2.job == sc.job && sc2.queue == sc.queue
    ensures cancelled.None? ==> sc2.session.value.stop == sc.session.value.stop
  {
    match cancelled
    case None =>
      sc2 := WakeAlone(d, sc, id, prompt, k, results, flights);
      acts := [Wake(id)];
      LandingsOne(Wake(id));
    case Some(why) =>
      var first, mid := StopAlone(d, sc, results, flights);
      sc2 := InterruptAlone(d, mid, id, prompt, k, why, results, flights);
      Then(d, sc, first, mid, Interrupt(id, why), sc2);
      acts := first + [Interrupt(id, why)];
  }

  /** The calls of one step, from call k on, come to its outcome. */
  lemma {:induction false} CallsAlone(d: Desk, env: Env, sc: Scene, id: string, prompt: string, k: nat,
                                      results: map<string, StepResult>, flights: map<string, Flight>)
    returns (acts: seq<Act>, sc2: Scene)
    requires At(d, sc, results, flights) && id in flights && flights[id] == Claiming(prompt, k)
    requires id in sc.job.table && id !in results
    ensures Alone(d, sc, acts) == Some(sc2) && Landings(acts) == []
    ensures At(d, sc2, results, flights[id := Landed(Attempt(env, d.c.maxRetries, id, prompt, k))])
            && OnlyRow(sc, sc2, id)
    decreases d.c.maxRetries - k
    ensures StaysCalm(env, sc, sc2)
  {
    var reply := env.reply(id, prompt, k);
    var mid := CallAlone(d, sc, id, prompt, k, reply, results, flights);
    acts, sc2 := [ClaimStep(id)] + [AgentReplies(id, reply)], mid;
    NoLandings(ClaimStep(id), AgentReplies(id, reply));
    if reply.Fault? && k < d.c.maxRetries {
      var flown := flights[id := BackingOff(prompt, k + 1)];
      var more, next := BackOffAlone(d, mid, id, prompt, k + 1, env.cancel(id, k + 1), results, flown);
      Append(d, sc, acts, mid, more, next);
      acts, sc2 := acts + more, next;
      if env.cancel(id, k + 1).None? {
        assert flown[id := Claiming(prompt, k + 1)] == flights[id := Claiming(prompt, k + 1)];
        var rest, end := CallsAlone(d, env, next, id, prompt, k + 1, results, flights[id := Claiming(prompt, k + 1)]);
        Append(d, sc, acts, next, rest, end);
        acts, sc2 := acts + rest, end;
      }
    }
    LastFlightCounts(flights, id);
  }

  /** Only the last state of a flight counts. */
  lemma LastFlightCounts(flights: map<string, Flight>, id: string)
    ensures forall a: Flight, b: Flight {:trigger flights[id := a][id := b]} ::
              flights[id := a][id := b] == flights[id := b]
  {
  }

  lemma NoLandings(a: Act, b: Act)
    requires !a.Land? && !b.Land?
    ensures Landings([a] + [b]) == []
  {
    LandingsConcat([a], [b]);
    LandingsOne(a);
    LandingsOne(b);
  }

  lemma Append(d: Desk, sc: Scene, first: seq<Act>, mid: Scene, rest: seq<Act>, end: Scene)
    requires Alone(d, sc, first) == Some(mid) && Alone(d, mid, rest) == Some(end)
    ensures Alone(d, sc, first + rest) == Some(end) && Landings(first + rest) == Landings(first) + Landings(rest)
  {
    AloneConcat(d, sc, first, mid, rest);
    LandingsConcat(first, rest);
  }

  /** Recording a step that has landed. */
  lemma LandAlone(d: Desk, sc: Scene, id: string, r: StepResult, results: map<string, StepResult>,
                  flights: map<string, Flight>)
    returns (sc2: Scene)
    requires At(d, sc, results, flights) && id in flights && flights[id] == Landed(r)
    requires r.id == id && id in sc.job.table && id !in results
    ensures OneAct(d, sc, Land(id, true)) == Some(sc2)
    ensures At(d, sc2, results[id := r], flights - {id}) && OnlyRow(sc, sc2, id)
    ensures sc2.session.value.stop == sc.session.value.stop
  {
    sc2 := OneAct(d, sc, Land(id, true)).value;
  }

  /** A started step comes to its result and is recorded. */
  lemma StepAlone(d: Desk, env: Env, sc: Scene, step: Step, before: map<string, StepResult>,
                  results: map<string, StepResult>, flights: map<string, Flight>)
    returns (acts: seq<Act>, sc2: Scene)
    requires At(d, sc, results, flights) && step.id in flights && flights[step.id] == FirstFlight(step, before)
    requires step.id in sc.job.table && step.id !in results
    ensures Alone(d, sc, acts) == Some(sc2) && Landings(acts) == [step.id] && OnlyRow(sc, sc2, step.id)
    ensures At(d, sc2, results[step.id := Execute(env, d.c.maxRetries, step, before)], flights - {step.id})
    ensures StaysCalm(env, sc, sc2)
  {
    var r := Execute(env, d.c.maxRetries, step, before);
    ExecuteShape(env, d.c.maxRetries, step, before);
    var mid;
    acts, mid := FlightAlone(d, env, sc, step, before, results, flights);
    var flown := flights[step.id := Landed(r)];
    sc2 := LandAlone(d, mid, step.id, r, results, flown);
    Then(d, sc, acts, mid, Land(step.id, true), sc2);
    acts := acts + [Land(step.id, true)];
    assert flown - {step.id} == flights - {step.id};
  }

  lemma FlightAlone(d: Desk, env: Env, sc: Scene, step: Step, before: map<string, StepResult>,
                    results: map<string, StepResult>, flights: map<string, Flight>)
    returns (acts: seq<Act>, sc2: Scene)
    requires At(d, sc, results, flights) && step.id in flights && flights[step.id] == FirstFlight(step, before)
    requires step.id in sc.job.table && step.id !in results
    ensures Alone(d, sc, acts) == Some(sc2) && Landings(acts) == [] && OnlyRow(sc, sc2, step.id)
    ensures At(d, sc2, results, flights[step.id := Landed(Execute(env, d.c.maxRetries, step, before))])
    ensures StaysCalm(env, sc, sc2)
  {
    match Render(step.prompt, before)
    case Ok(prompt) =>
      acts, sc2 := CallsAlone(d, env, sc, step.id, prompt, 0, results, flights);
    case Err(error) =>
      acts, sc2 := [], sc;
      assert flights[step.id := flights[step.id]] == flights;
  }

  // ---------- The wave ----------

  /** More results: those of the listed steps, executed against `before`. */
  ghost predicate Joined(env: Env, maxRetries: int, wave: map<string, Step>, order: seq<string>,
                         before: map<string, StepResult>, results: map<string, StepResult>,
                             more: map<string, StepResult>) {
    && more.Keys == results.Keys + Elems(order)
    && (forall id :: id in results ==> more[id] == results[id])
    && (forall id {:trigger Execute(env, maxRetries, wave[id], before)} ::
          id in order && id in wave && id !in results ==> more[id] == Execute(env, maxRetries, wave[id], before))
  }

  /** The started steps land one after the other, in the given order. */
  lemma {:induction false} LandingsAlone(d: Desk, env: Env, sc: Scene, wave: map<string, Step>, order: seq<string>,
                                         before: map<string, StepResult>, results: map<string, StepResult>)
    returns (acts: seq<Act>, sc2: Scene, more: map<string, StepResult>)
    requires At(d, sc, results, FirstFlights(wave, order, before)) && NoDup(order)
    requires forall id :: id in order ==> id in wave && wave[id].id == id && id in sc.job.table && id !in results
    ensures Alone(d, sc, acts) == Some(sc2) && Landings(acts) == order && SameJob(sc, sc2)
    ensures At(d, sc2, more, map[]) && Joined(env, d.c.maxRetries, wave, order, before, results, more)
    decreases |order|
    ensures StaysCalm(env, sc, sc2)
  {
    if order == [] {
      acts, sc2, more := [], sc, results;
      assert FirstFlights(wave, order, before) == map[];
    } else {
      var (id, tail) := (order[0], order[1..]);
      assert order == [id] + tail;
      FlightsShrink(wave, id, tail, before);
      var first, mid := StepAlone(d, env, sc, wave[id], before, results, FirstFlights(wave, order, before));
      var next := results[id := Execute(env, d.c.maxRetries, wave[id], before)];
      var rest;
      rest, sc2, more := LandingsAlone(d, env, mid, wave, tail, before, next);
      Append(d, sc, first, mid, rest, sc2);
      acts := first + rest;
      JoinedMore(env, d.c.maxRetries, wave, id, tail, before, results, more);
    }
  }

  lemma FlightsShrink(wave: map<string, Step>, id: string, tail: seq<string>, before: map<string, StepResult>)
    requires id in wave && NoDup([id] + tail)
    ensures NoDup(tail) && id !in tail
    ensures id in FirstFlights(wave, [id] + tail, before)
            && FirstFlights(wave, [id] + tail, before)[id] == FirstFlight(wave[id], before)
    ensures FirstFlights(wave, [id] + tail, before) - {id} == FirstFlights(wave, tail, before)
  {
    NoDupTail(id, tail);
  }

  lemma JoinedMore(env: Env, maxRetries: int, wave: map<string, Step>, id: string, tail: seq<string>,
                   before: map<string, StepResult>, results: map<string, StepResult>, more: map<string, StepResult>)
    requires id in wave && id !in results && id !in tail
    requires Joined(env, maxRetries, wave, tail, before, results[id := Execute(env, maxRetries, wave[id], before)],
                    more)
    ensures Joined(env, maxRetries, wave, [id] + tail, before, results, more)
  {
    assert Elems([id] + tail) == {id} + Elems(tail);
    forall x {:trigger Execute(env, maxRetries, wave[x], before)} | x in [id] + tail && x in wave && x !in results
      ensures more[x] == Execute(env, maxRetries, wave[x], before)
    {
      if x == id {
        assert more[id] == results[id := Execute(env, maxRetries, wave[id], before)][id];
      }
    }
  }

  /** A wave, started and landed in any order. */
  lemma WaveAlone(d: Desk, env: Env, sc: Scene, wave: map<string, Step>, order: seq<string>,
                  before: map<string, StepResult>, after: map<string, StepResult>)
    returns (acts: seq<Act>, sc2: Scene)
    requires At(d, sc, before, map[]) && ReadyWaveOf(sc, wave, before)
    requires NoDup(order) && Elems(order) == wave.Keys
    requires WaveApplied(env, d.c.maxRetries, wave, {}, before, after)
    ensures Alone(d, sc, acts) == Some(sc2) && Landings(acts) == order && SameJob(sc, sc2) && At(d, sc2, after, map[])
    ensures StaysCalm(env, sc, sc2)
  {
    assert forall id :: id in order <==> id in Elems(order);
    var first, mid := StartsAlone(d, sc, wave, order, before);
    var rest, more;
    rest, sc2, more := LandingsAlone(d, env, mid, wave, order, before, before);
    Append(d, sc, first, mid, rest, sc2);
    acts := first + rest;
    SameWave(env, d.c.maxRetries, wave, order, before, more, after);
  }

  lemma SameWave(env: Env, maxRetries: int, wave: map<string, Step>, order: seq<string>,
                 before: map<string, StepResult>, more: map<string, StepResult>, after: map<string, StepResult>)
    requires Elems(order) == wave.Keys && wave.Keys !! before.Keys
    requires Joined(env, maxRetries, wave, order, before, before, more)
    requires WaveApplied(env, maxRetries, wave, {}, before, after)
    ensures more == after
  {
    forall id | id in after ensures more[id] == after[id] {
      if id !in before {
        assert id in Elems(order);
        assert after[id] == Execute(env, maxRetries, wave[id], before);
      }
    }
  }

  // ---------- The skips ----------

  lemma {:induction false} Lowest(ids: set<string>, rank: map<string, nat>) returns (id: string)
    requires ids != {} && ids <= rank.Keys
    ensures id in ids && forall x :: x in ids ==> rank[id] <= rank[x]
    decreases |ids|
  {
    id :| id in ids;
    if ids != {id} {
      var other := Lowest(ids - {id}, rank);
      if rank[other] < rank[id] {
        id := other;
      }
    }
  }

  /** Steps that a cascade has skipped: each because of an unsuccessful dependency. */
  ghost predicate SkipsTo(g: Graph, results: map<string, StepResult>, target: map<string, StepResult>) {
    && results.Keys <= target.Keys && (forall id :: id in results ==> target[id] == results[id])
    && (forall id :: id in target && id !in results ==> id in g && target[id] == SkippedResult(id))
    && (forall id {:trigger AnyFailed(target, g[id])} :: id in target && id !in results ==> AnyFailed(target, g[id]))
  }

  /** The next step that can be skipped: one that comes before all others. */
  lemma NextSkip(g: Graph, rank: map<string, nat>, results: map<string, StepResult>, target: map<string, StepResult>)
    returns (id: string)
    requires Ranked(g, rank) && SkipsTo(g, results, target) && target.Keys != results.Keys
    ensures id in target && id !in results && AnyFailed(results, g[id])
    ensures SkipsTo(g, results[id := SkippedResult(id)], target)
  {
    assert target.Keys == results.Keys + (target.Keys - results.Keys);
    id := Lowest(target.Keys - results.Keys, rank);
    assert AnyFailed(target, g[id]);
    var k :| 0 <= k < |g[id]| && g[id][k] in target && target[g[id][k]].status != Succeeded;
    assert rank[g[id][k]] < rank[id];
  }

  lemma {:induction false} SkipsAlone(d: Desk, g: Graph, rank: map<string, nat>, sc: Scene,
                                      results: map<string, StepResult>, target: map<string, StepResult>)
    returns (acts: seq<Act>, sc2: Scene)
    requires At(d, sc, results, map[]) && Ranked(g, rank) && SkipsTo(g, results, target)
    requires sc.job.table.Keys == g.Keys && forall id :: id in g ==> sc.job.table[id].dependsOn == g[id]
    ensures Alone(d, sc, acts) == Some(sc2) && Landings(acts) == [] && SameJob(sc, sc2) && At(d, sc2, target, map[])
    decreases |target.Keys - results.Keys|
    ensures sc2.session.value.stop == sc.session.value.stop
  {
    if target.Keys == results.Keys {
      acts, sc2 := [], sc;
      assert target == results;
    } else {
      var first, mid, more := SkipStep(d, g, rank, sc, results, target);
      var rest;
      rest, sc2 := SkipsAlone(d, g, rank, mid, more, target);
      Append(d, sc, first, mid, rest, sc2);
      acts := first + rest;
    }
  }

  /** One more skip on the way. */
  lemma SkipStep(d: Desk, g: Graph, rank: map<string, nat>, sc: Scene,
                 results: map<string, StepResult>, target: map<string, StepResult>)
    returns (acts: seq<Act>, sc2: Scene, more: map<string, StepResult>)
    requires At(d, sc, results, map[]) && Ranked(g, rank) && SkipsTo(g, results, target) && target.Keys != results.Keys
    requires sc.job.table.Keys == g.Keys && forall id :: id in g ==> sc.job.table[id].dependsOn == g[id]
    ensures Alone(d, sc, acts) == Some(sc2) && Landings(acts) == [] && sc2.job == sc.job && sc2.queue == sc.queue
    ensures At(d, sc2, more, map[]) && SkipsTo(g, more, target)
    ensures |target.Keys - more.Keys| < |target.Keys - results.Keys|
    ensures sc2.session.value.stop == sc.session.value.stop
  {
    var id := NextSkip(g, rank, results, target);
    more := results[id := SkippedResult(id)];
    acts := [Skip(id)];
    sc2 := SkipAlone(d, sc, id, results);
    LandingsOne(Skip(id));
    assert target.Keys - more.Keys == target.Keys - results.Keys - {id};
  }

  lemma SkipAlone(d: Desk, sc: Scene, id: string, results: map<string, StepResult>) returns (sc2: Scene)
    requires At(d, sc, results, map[]) && id in sc.job.table && id !in results
    requires AnyFailed(results, sc.job.table[id].dependsOn)
    ensures Alone(d, sc, [Skip(id)]) == Some(sc2) && sc2.job == sc.job && sc2.queue == sc.queue
    ensures At(d, sc2, results[id := SkippedResult(id)], map[])
    ensures sc2.session.value.stop == sc.session.value.stop
  {
    sc2 := OneAct(d, sc, Skip(id)).value;
    AloneOne(d, sc, Skip(id), sc2);
  }

  // ---------- One turn of the loop ----------

  ghost function IdsOf(batch: seq<StepResult>): seq<string> {
    seq(|batch|, i requires 0 <= i < |batch| => batch[i].id)
  }

  /** One turn of the wave loop is a sequence of acts of a session that owns the job: it
      reaches the same results, and the steps land in the order in which they were
      reported. */
  lemma NextWaveIsActs(d: Desk, w: Plan, env: Env, k: nat, sc: Scene, p: Point, m: Middle, q: Point)
    returns (acts: seq<Act>, sc2: Scene)
    requires Turn(w, env, k, p, m, q)
    requires At(d, sc, p.results, map[]) && sc.job.table == w.table && d.c.maxRetries == w.maxRetries
    ensures Alone(d, sc, acts) == Some(sc2) && Landings(acts) == IdsOf(m.batch) && SameJob(sc, sc2)
    ensures At(d, sc2, q.results, map[])
    ensures StaysCalm(env, sc, sc2)
  {
    TurnIsReady(w, env, k, p, m, q, sc);
    TurnSkips(w, env, k, p, m, q);
    PlanIsOrdered(w);
    acts, sc2 := ReadyTurn(d, w.g, w.rank, env, sc, p.results, m.wave, m.after, m.batch, q.results);
  }

  lemma PlanIsOrdered(w: Plan)
    ensures Ranked(w.g, w.rank) && w.table.Keys == w.g.Keys
    ensures forall id :: id in w.g ==> w.table[id].dependsOn == w.g[id]
  {
  }

  lemma ReadyTurn(d: Desk, g: Graph, rank: map<string, nat>, env: Env, sc: Scene, before: map<string, StepResult>,
                  wave: map<string, Step>,
                  after: map<string, StepResult>, batch: seq<StepResult>, end: map<string, StepResult>)
    returns (acts: seq<Act>, sc2: Scene)
    requires At(d, sc, before, map[]) && ReadyWaveOf(sc, wave, before) && Ranked(g, rank)
    requires sc.job.table.Keys == g.Keys && forall id :: id in g ==> sc.job.table[id].dependsOn == g[id]
    requires WaveApplied(env, d.c.maxRetries, wave, {}, before, after) && Batch(wave, {}, after, batch)
    requires SkipsTo(g, after, end)
    ensures Alone(d, sc, acts) == Some(sc2) && Landings(acts) == IdsOf(batch) && SameJob(sc, sc2)
    ensures At(d, sc2, end, map[])
    ensures StaysCalm(env, sc, sc2)
  {
    WaveNames(env, d.c.maxRetries, wave, before, after);
    BatchCovers(wave, after, batch);
    var first, mid := WaveAlone(d, env, sc, wave, IdsOf(batch), before, after);
    var more;
    more, sc2 := SkipsAlone(d, g, rank, mid, after, end);
    Append(d, sc, first, mid, more, sc2);
    acts := first + more;
  }

  lemma WaveNames(env: Env, maxRetries: int, wave: map<string, Step>, before: map<string, StepResult>,
                  after: map<string, StepResult>)
    requires WaveApplied(env, maxRetries, wave, {}, before, after) && maxRetries >= 0
    requires forall id :: id in wave ==> wave[id].id == id
    ensures forall id :: id in wave ==> after[id].id == id
  {
    forall id | id in wave ensures after[id].id == id {
      assert after[id] == Execute(env, maxRetries, wave[id], before);
      ExecuteShape(env, maxRetries, wave[id], before);
    }
  }

  lemma TurnIsReady(w: Plan, env: Env, k: nat, p: Point, m: Middle, q: Point, sc: Scene)
    requires Turn(w, env, k, p, m, q) && sc.job.table == w.table
    ensures ReadyWaveOf(sc, m.wave, p.results)
  {
  }

  lemma BatchCovers(wave: map<string, Step>, after: map<string, StepResult>, batch: seq<StepResult>)
    requires Batch(wave, {}, after, batch) && forall id :: id in wave ==> after[id].id == id
    ensures NoDup(IdsOf(batch)) && Elems(IdsOf(batch)) == wave.Keys
  {
    forall id | id in wave ensures id in IdsOf(batch) {
      assert after[id] in batch;
      var i :| 0 <= i < |batch| && batch[i] == after[id];
      assert IdsOf(batch)[i] == id;
    }
  }

  lemma TurnSkips(w: Plan, env: Env, k: nat, p: Point, m: Middle, q: Point)
    requires Turn(w, env, k, p, m, q)
    ensures SkipsTo(w.g, m.after, q.results)
  {
    forall id {:trigger AnyFailed(q.results, w.g[id])} | id in q.results && id !in m.after
      ensures AnyFailed(q.results, w.g[id])
    {
      assert AnyFailed(q.results, m.rest[id].dependsOn);
    }
  }

  // ---------- A whole run ----------

  /** All turns of the loop, one after the other. */
  lemma {:induction false} TurnsAreActs(d: Desk, w: Plan, env: Env, sc: Scene, points: seq<Point>,
                                        middles: seq<Middle>)
    returns (acts: seq<Act>, sc2: Scene)
    requires Turns(w, env, points, middles)
    requires At(d, sc, points[0].results, map[]) && sc.job.table == w.table && d.c.maxRetries == w.maxRetries
    ensures Alone(d, sc, acts) == Some(sc2) && Landings(acts) == IdsOf(Reported(middles)) && SameJob(sc, sc2)
    ensures At(d, sc2, points[|middles|].results, map[]) && StaysCalm(env, sc, sc2)
    decreases |middles|
  {
    if middles == [] {
      acts, sc2 := [], sc;
    } else {
      var n := |middles| - 1;
      FewerTurns(w, env, points, middles);
      var first, mid := TurnsAreActs(d, w, env, sc, points[..n + 1], middles[..n]);
      assert points[..n + 1][n] == points[n] && points[..n + 1][0] == points[0];
      acts, sc2 := OneMoreWave(d, w, env, sc, first, mid, Reported(middles[..n]), n, points[n], middles[n],
                               points[n + 1]);
    }
  }

  lemma FewerTurns(w: Plan, env: Env, points: seq<Point>, middles: seq<Middle>)
    requires Turns(w, env, points, middles) && middles != []
    ensures Turns(w, env, points[..|middles|], middles[..|middles| - 1])
    ensures Turn(w, env, |middles| - 1, points[|middles| - 1], middles[|middles| - 1], points[|middles|])
  {
    var (fewer, front) := (points[..|middles|], middles[..|middles| - 1]);
    forall k | 0 <= k < |front| ensures TurnAt(w, env, fewer, front, k) {
      assert TurnAt(w, env, points, middles, k);
    }
    assert TurnAt(w, env, points, middles, |middles| - 1);
  }

  lemma OneMoreWave(d: Desk, w: Plan, env: Env, sc: Scene, first: seq<Act>, mid: Scene, observed: seq<StepResult>,
                    k: nat, p: Point, m: Middle, q: Point)
    returns (acts: seq<Act>, sc2: Scene)
    requires Alone(d, sc, first) == Some(mid) && Landings(first) == IdsOf(observed) && SameJob(sc, mid)
    requires At(d, mid, p.results, map[]) && StaysCalm(env, sc, mid) && Turn(w, env, k, p, m, q)
    requires mid.job.table == w.table && d.c.maxRetries == w.maxRetries
    ensures Alone(d, sc, acts) == Some(sc2) && Landings(acts) == IdsOf(observed + m.batch) && SameJob(sc, sc2)
    ensures At(d, sc2, q.results, map[]) && StaysCalm(env, sc, sc2)
  {
    var rest;
    rest, sc2 := NextWaveIsActs(d, w, env, k, mid, p, m, q);
    Append(d, sc, first, mid, rest, sc2);
    acts := first + rest;
    IdsConcat(observed, m.batch);
  }

  lemma IdsConcat(a: seq<StepResult>, b: seq<StepResult>)
    ensures IdsOf(a + b) == IdsOf(a) + IdsOf(b)
  {
  }

  /** A run that was not stopped goes on to record its results and its verdict; one that
      was is abandoned, as lost or as shut down. */
  ghost predicate GoesOnTo(stop: Stop, results: map<string, StepResult>, ordered: seq<StepResult>,
                           err: Option<WorkflowError>, next: Phase) {
    && (stop == ShutDown ==> next == Abandoning(false))
    && (stop == LeaseLost ==> next == Abandoning(true))
    && (stop == Going && err.None? ==> next == Recording(results, ordered, Succeeded, "", true))
    && (stop == Going && err.Some? ==>
          next == Recording(results, ordered, Failed,
                            "workflow failed at step \"" + err.value.stepId + "\": " + err.value.message, true))
  }

  /** A whole run of the engine, as Execution.Run makes it, is a sequence of acts of a
      session that owns the job, from loading it to the run's return: it resumes what is
      recorded, steps land in the order in which they are reported, and the run's results
      are recorded unless it was stopped, which only a cancellation can do. */
  lemma RunIsActs(d: Desk, w: Plan, env: Env, sc: Scene, points: seq<Point>, middles: seq<Middle>,
                  results: map<string, StepResult>, observed: seq<StepResult>, ordered: seq<StepResult>,
                  err: Option<WorkflowError>)
    returns (acts: seq<Act>, sc2: Scene)
    requires RanThrough(w, env, points, middles, results, observed) && d.c.maxRetries == w.maxRetries
    requires Returns(sc.job.row.steps, results, ordered, err)
    requires sc.session.Some? && sc.session.value.phase.Loading? && sc.job.row.owner == Some(d.worker)
    requires sc.job.table == w.table && sc.job.row.results.Keys == w.table.Keys && w.seeds == Resumable(sc.job.row)
    ensures Alone(d, sc, [Load(true)] + acts + [Return(ordered, err)]) == Some(sc2)
    ensures Landings(acts) == IdsOf(observed) && SameJob(sc, sc2) && StaysCalm(env, sc, sc2)
    ensures sc2.session.Some? && sc2.session.value.job == sc.session.value.job
    ensures GoesOnTo(sc2.session.value.stop, results, ordered, err, sc2.session.value.phase)
  {
    var loaded := LoadAlone(d, sc);
    var ran;
    acts, ran := TurnsAreActs(d, w, env, loaded, points, middles);
    AloneConcat(d, sc, [Load(true)], loaded, acts);
    sc2 := ReturnAlone(d, ran, results, ordered, err);
    AloneThen(d, sc, [Load(true)] + acts, ran, Return(ordered, err), sc2);
    SameSession(d, loaded, acts, ran);
  }

  lemma LoadAlone(d: Desk, sc: Scene) returns (sc2: Scene)
    requires sc.session.Some? && sc.session.value.phase.Loading? && sc.job.row.owner == Some(d.worker)
    requires sc.job.row.results.Keys == sc.job.table.Keys
    ensures Alone(d, sc, [Load(true)]) == Some(sc2) && At(d, sc2, Resumable(sc.job.row), map[])
    ensures sc2.session.value.stop == sc.session.value.stop && sc2.session.value.job == sc.session.value.job
    ensures sc2.job == sc.job && sc2.queue == sc.queue
  {
    sc2 := OneAct(d, sc, Load(true)).value;
    AloneOne(d, sc, Load(true), sc2);
  }

  lemma {:induction false} SameSession(d: Desk, sc: Scene, acts: seq<Act>, end: Scene)
    requires Alone(d, sc, acts) == Some(end) && sc.session.Some? && end.session.Some?
    ensures end.session.value.job == sc.session.value.job
    decreases |acts|
  {
    if acts != [] {
      SessionStays(d.c, d.now, d.worker, sc.session.value, sc.job, acts[0]);
      SameSession(d, OneAct(d, sc, acts[0]).value, acts[1..], end);
    }
  }

  lemma ReturnAlone(d: Desk, sc: Scene, results: map<string, StepResult>, ordered: seq<StepResult>,
                    err: Option<WorkflowError>)
    returns (sc2: Scene)
    requires At(d, sc, results, map[]) && sc.job.table.Keys <= results.Keys
    requires Returns(sc.job.row.steps, results, ordered, err)
    ensures OneAct(d, sc, Return(ordered, err)) == Some(sc2) && sc2.job == sc.job && sc2.queue == sc.queue
    ensures sc2.session.Some? && sc2.session.value == sc.session.value.(phase := sc2.session.value.phase)
    ensures GoesOnTo(sc.session.value.stop, results, ordered, err, sc2.session.value.phase)
  {
    sc2 := OneAct(d, sc, Return(ordered, err)).value;
  }
}
