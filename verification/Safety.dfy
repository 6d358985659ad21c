/** Safety of every run of the cluster: fencing, permanence of recorded successes,
    endings, refusals, and the delivery budget. */
module Safety {
  import opened Basics
  import opened Stores
  import opened Sessions
  import opened Fencing
  import opened Protocol

  // ---------- The fencing token ----------

  /** The guard of the statement that an act issues lets it through. */
  predicate TakesEffect(worker: string, row: JobRow, act: Act) {
    match act
    case ClaimStep(id) => StepClaimable(row, id, worker)
    case Land(_, ok) => ok && (worker == "" || row.owner == Some(worker))
    case Record(ok) => ok && (worker == "" || row.owner == Some(worker))
    case Bury(ok) => ok && Finishable(row, worker)
    case FinishUp(ok) => ok && Finishable(row, worker)
    case BeatStore(ok) => ok && OwnedBy(row, worker)
    case Release(ok) => ok && OwnedBy(row, worker)
    case _ => false
  }

  /** Apart from claiming, no act changes the row otherwise. */
  lemma NothingElseWrites(c: Settings, now: int, worker: string, s: Session, j: Job, act: Act)
    requires Perform(c, now, worker, s, j, act).Moves? && !act.Claim? && !TakesEffect(worker, j.row, act)
    ensures Perform(c, now, worker, s, j, act).job.row == j.row
  {
  }

  /** A statement lets an act through only while its worker owns the job, on the delivery
      that the session claimed; also when the row stays as it is, as with the step claim
      of a retry. */
  lemma WritesAreFenced(c: Settings, now: int, worker: string, s: Session, j: Job, act: Act)
    requires JobKept(c, j) && SessionKept(c, worker, s, j) && TakesEffect(worker, j.row, act)
    requires Perform(c, now, worker, s, j, act).Moves? && worker != ""
    ensures j.row.owner == Some(worker) && j.row.attempts == s.token
    ensures Perform(c, now, worker, s, j, act).job.row.attempts == j.row.attempts
  {
  }

  /** Whenever the store lets a session's statement through, the job's delivery count is
      the number that the session's own claim returned: nobody has claimed the job in
      between. Anything else that a session does leaves the row as it is. */
  lemma FencingToken(c: Settings, states: seq<Cluster>, events: seq<Event>, i: nat)
    requires IsRun(c, states, events) && i < |events|
    requires events[i].Work? && !events[i].act.Claim?
    ensures var (k, k2, w) := (states[i], states[i + 1], events[i].worker);
            && w in k.sessions && k.sessions[w].job in k.jobs && k.sessions[w].job in k2.jobs
            && var (s, id) := (k.sessions[w], k.sessions[w].job);
               if TakesEffect(w, k.jobs[id].row, events[i].act) then
                 && k.jobs[id].row.owner == Some(w)
                 && k.jobs[id].row.attempts == s.token == k2.jobs[id].row.attempts
               else k2.jobs[id].row == k.jobs[id].row
  {
    var (k, e) := (states[i], events[i]);
    RunsAreSound(c, states, events, i);
    StepHappens(c, states, events, i);
    var s := k.sessions[e.worker];
    if TakesEffect(e.worker, k.jobs[s.job].row, e.act) {
      WritesAreFenced(c, k.now, e.worker, s, k.jobs[s.job], e.act);
    } else {
      NothingElseWrites(c, k.now, e.worker, s, k.jobs[s.job], e.act);
    }
  }

  // ---------- Facts that hold from some point of a run on ----------

  /** What can never be undone: later in a run jobs are still there, deliveries only
      grow in number, finished rows and succeeded step rows are as they were. */
  ghost predicate Later(j: Job, j2: Job) {
    && j2.row.steps == j.row.steps && j2.row.results.Keys == j.row.results.Keys
    && |j.claims| <= |j2.claims| && j.claims == j2.claims[..|j.claims|]
    && (Terminal(j.row) ==> j2.row == j.row)
    && (forall id :: id in j.row.results && j.row.results[id].status == Succeeded ==>
          j2.row.results[id] == j.row.results[id])
    && (j.finish.Some? ==> j2.finish == j.finish)
    && (j2.claims == j.claims ==> forall w :: j.row.owner != Some(w) ==> j2.row.owner != Some(w))
  }

  lemma GuaranteeIsLater(actor: string, j: Job, j2: Job)
    requires Guarantee(actor, j, j2)
    ensures Later(j, j2)
  {
  }

  lemma LaterIsTransitive(j: Job, j2: Job, j3: Job)
    requires Later(j, j2) && Later(j2, j3)
    ensures Later(j, j3)
  {
    assert j.claims == j3.claims[..|j2.claims|][..|j.claims|];
  }

  lemma {:induction false} FromThenOn(c: Settings, states: seq<Cluster>, events: seq<Event>, i: nat, m: nat, id: string)
    requires IsRun(c, states, events) && i <= m < |states| && id in states[i].jobs
    ensures id in states[m].jobs && Later(states[i].jobs[id], states[m].jobs[id])
    decreases m - i
  {
    if i < m {
      FromThenOn(c, states, events, i, m - 1, id);
      RunsAreSound(c, states, events, m);
      var (j, j2) := (states[m - 1].jobs[id], states[m].jobs[id]);
      if j2 != j {
        GuaranteeIsLater(Actor(events[m - 1]), j, j2);
        LaterIsTransitive(states[i].jobs[id], j, j2);
      }
    }
  }

  /** Ownership lost during a delivery is never regained in that delivery. */
  lemma OwnershipIsContiguous(c: Settings, states: seq<Cluster>, events: seq<Event>, i: nat, m: nat, id: string,
                              worker: string)
    requires IsRun(c, states, events) && i <= m < |states| && id in states[i].jobs
    requires states[i].jobs[id].row.owner != Some(worker)
    ensures id in states[m].jobs
    ensures states[m].jobs[id].row.attempts == states[i].jobs[id].row.attempts ==>
              states[m].jobs[id].row.owner != Some(worker)
  {
    FromThenOn(c, states, events, i, m, id);
    RunsAreSound(c, states, events, i);
    RunsAreSound(c, states, events, m);
  }

  /** Once a step's row is succeeded it never changes again. */
  lemma SuccessIsPermanent(c: Settings, states: seq<Cluster>, events: seq<Event>, i: nat, m: nat, id: string,
                           step: string)
    requires IsRun(c, states, events) && i <= m < |states| && id in states[i].jobs
    requires step in states[i].jobs[id].row.results && states[i].jobs[id].row.results[step].status == Succeeded
    ensures id in states[m].jobs && step in states[m].jobs[id].row.results
    ensures states[m].jobs[id].row.results[step] == states[i].jobs[id].row.results[step]
  {
    FromThenOn(c, states, events, i, m, id);
  }

  /** Nothing of a finished job's row changes again. */
  lemma TerminalAbsorbs(c: Settings, states: seq<Cluster>, events: seq<Event>, i: nat, m: nat, id: string)
    requires IsRun(c, states, events) && i <= m < |states| && id in states[i].jobs && Terminal(states[i].jobs[id].row)
    ensures id in states[m].jobs && states[m].jobs[id].row == states[i].jobs[id].row
  {
    FromThenOn(c, states, events, i, m, id);
  }

  // ---------- Endings ----------

  /** In every reachable state: running, owned and leased coincide; a job is reported
      completed at most once and then never dead-lettered; a finished job was finished
      by its latest delivery, or given up beyond the delivery limit, or never delivered. */
  lemma EndingsAreExclusive(c: Settings, states: seq<Cluster>, events: seq<Event>, i: nat, id: string)
    requires IsRun(c, states, events) && i < |states| && id in states[i].jobs
    ensures var j := states[i].jobs[id];
            && (j.row.status == Status.Running <==> j.row.owner.Some?) && (j.row.owner.Some? <==> j.row.lease.Some?)
            && j.completed <= 1 && (j.completed == 0 || j.deadLettered == 0)
            && (j.completed > 0 ==> j.finish.Some? && Terminal(j.row))
            && (j.finish.Some? ==> Terminal(j.row) && 0 < j.row.attempts && InBudget(c, j.row.attempts))
            && (Terminal(j.row) && j.finish.None? ==>
                  j.row.status == Failed && (j.row.attempts == 0 || !InBudget(c, j.row.attempts)))
  {
    RunsAreSound(c, states, events, i);
  }

  /** A succeeded job was finished by a run all of whose steps succeeded, and unless a
      step write returned an error, its rows are that run's results. */
  lemma SucceededMeansEveryStep(c: Settings, states: seq<Cluster>, events: seq<Event>, i: nat, id: string)
    requires IsRun(c, states, events) && i < |states| && id in states[i].jobs
    requires states[i].jobs[id].row.status == Succeeded
    ensures var j := states[i].jobs[id];
            && j.finish.Some? && j.finish.value.results.Keys == j.row.results.Keys && AllSucceed(j.finish.value.results)
            && (j.finish.value.faithful ==> j.row.results == j.finish.value.results && AllSucceed(j.row.results))
  {
    RunsAreSound(c, states, events, i);
    var j := states[i].jobs[id];
    assert Founded(j) && JobKept(c, j);
    assert j.row.steps[0].id in j.table;
  }

  // ---------- Refusals ----------

  lemma RefusedActMeansLost(c: Settings, now: int, worker: string, s: Session, j: Job, act: Act)
    requires JobKept(c, j) && SessionKept(c, worker, s, j) && act.ClaimStep?
    requires Perform(c, now, worker, s, j, act).Moves?
    ensures !StepClaimable(j.row, act.step, worker) ==> j.row.owner != Some(worker)
  {
    assert DoClaimStep(c, worker, s, j, act.step).Moves?;
    if !StepClaimable(j.row, act.step, worker) {
      StepRefused(c, worker, s, j, act.step);
    }
  }

  /** When the fenced agent's step claim is refused, the worker no longer owns the job. */
  lemma RefusalMeansLeaseLost(c: Settings, states: seq<Cluster>, events: seq<Event>, i: nat)
    requires IsRun(c, states, events) && i < |events|
    requires events[i].Work? && events[i].act.ClaimStep?
    ensures var (k, w) := (states[i], events[i].worker);
            && w in k.sessions && k.sessions[w].job in k.jobs
            && (!StepClaimable(k.jobs[k.sessions[w].job].row, events[i].act.step, w) ==>
                  k.jobs[k.sessions[w].job].row.owner != Some(w))
  {
    var (k, e) := (states[i], events[i]);
    RunsAreSound(c, states, events, i);
    StepHappens(c, states, events, i);
    RefusedActMeansLost(c, k.now, e.worker, k.sessions[e.worker], k.jobs[k.sessions[e.worker].job], e.act);
  }

  // ---------- Steps in progress ----------

  /** While the worker owns the job, the rows of the steps whose agents it is calling are
      marked as running. */
  ghost predicate CallsMarked(worker: string, s: Session, j: Job) {
    j.row.owner == Some(worker) && s.phase.Executing? ==>
      forall id :: id in s.phase.flights && s.phase.flights[id].Calling? ==>
        id in j.row.results && j.row.results[id].status == Status.Running
  }

  lemma ActKeepsMarks(c: Settings, now: int, worker: string, s: Session, j: Job, act: Act)
    requires JobKept(c, j) && SessionKept(c, worker, s, j) && CallsMarked(worker, s, j)
    requires Perform(c, now, worker, s, j, act).Moves? && Perform(c, now, worker, s, j, act).session.Some?
    ensures var o := Perform(c, now, worker, s, j, act);
            CallsMarked(worker, o.session.value, o.job)
  {
    match act {
      case ClaimStep(step) => ClaimMarks(c, worker, s, j, step);
      case Land(step, ok) => LandKeepsMarks(c, worker, s, j, step, ok);
      case _ => OtherActsKeepMarks(c, now, worker, s, j, act);
    }
  }

  lemma ClaimMarks(c: Settings, worker: string, s: Session, j: Job, step: string)
    requires CallsMarked(worker, s, j) && DoClaimStep(c, worker, s, j, step).Moves?
    ensures var o := DoClaimStep(c, worker, s, j, step);
            o.session.Some? && CallsMarked(worker, o.session.value, o.job)
  {
  }

  lemma LandKeepsMarks(c: Settings, worker: string, s: Session, j: Job, step: string, ok: bool)
    requires SessionKept(c, worker, s, j) && CallsMarked(worker, s, j) && DoLand(worker, s, j, step, ok).Moves?
    ensures var o := DoLand(worker, s, j, step, ok);
            o.session.Some? && CallsMarked(worker, o.session.value, o.job)
  {
    assert FlightKept(c, step, s.phase.flights[step]);
  }

  lemma OtherActsKeepMarks(c: Settings, now: int, worker: string, s: Session, j: Job, act: Act)
    requires CallsMarked(worker, s, j) && !act.ClaimStep? && !act.Land?
    requires Perform(c, now, worker, s, j, act).Moves? && Perform(c, now, worker, s, j, act).session.Some?
    ensures var o := Perform(c, now, worker, s, j, act);
            CallsMarked(worker, o.session.value, o.job)
  {
  }

  lemma OthersKeepMarks(actor: string, j: Job, j2: Job, worker: string, s: Session)
    requires j2 == j || Guarantee(actor, j, j2)
    requires worker != actor && CallsMarked(worker, s, j)
    ensures CallsMarked(worker, s, j2)
  {
  }

  ghost predicate AllMarked(k: Cluster) {
    forall w :: w in k.sessions && k.sessions[w].job in k.jobs ==>
      CallsMarked(w, k.sessions[w], k.jobs[k.sessions[w].job])
  }

  lemma StepKeepsMarks(c: Settings, k: Cluster, e: Event, k2: Cluster)
    requires Sound(c, k) && AllMarked(k) && Steps(c, k, e, k2) && Evolves(e, k.jobs, k2.jobs)
    ensures AllMarked(k2)
  {
    forall w | w in k2.sessions && k2.sessions[w].job in k2.jobs
      ensures CallsMarked(w, k2.sessions[w], k2.jobs[k2.sessions[w].job])
    {
      if e.Work? && w == e.worker {
        WorkerKeepsMarks(c, k, e, k2);
      } else {
        OtherKeepsMarks(c, k, e, k2, w);
      }
    }
  }

  lemma OtherKeepsMarks(c: Settings, k: Cluster, e: Event, k2: Cluster, worker: string)
    requires Sound(c, k) && AllMarked(k) && Steps(c, k, e, k2) && Evolves(e, k.jobs, k2.jobs)
    requires worker in k2.sessions && !(e.Work? && worker == e.worker) && k2.sessions[worker].job in k2.jobs
    ensures CallsMarked(worker, k2.sessions[worker], k2.jobs[k2.sessions[worker].job])
  {
    OthersLeaveSession(c, k, e, k2, worker);
    if worker in k.sessions {
      var s := k.sessions[worker];
      assert worker != "" && s.job in k.jobs;
      OthersKeepMarks(Actor(e), k.jobs[s.job], k2.jobs[s.job], worker, s);
    }
  }

  lemma WorkerKeepsMarks(c: Settings, k: Cluster, e: Event, k2: Cluster)
    requires Sound(c, k) && AllMarked(k) && e.Work? && Steps(c, k, e, k2) && e.worker in k2.sessions
    ensures var s := k2.sessions[e.worker];
            s.job in k2.jobs && CallsMarked(e.worker, s, k2.jobs[s.job])
  {
    var s := k.sessions[e.worker];
    SessionStays(c, k.now, e.worker, s, k.jobs[s.job], e.act);
    ActKeepsMarks(c, k.now, e.worker, s, k.jobs[s.job], e.act);
  }

  lemma {:induction false} MarksAreKept(c: Settings, states: seq<Cluster>, events: seq<Event>, n: nat)
    requires IsRun(c, states, events) && n < |states|
    ensures AllMarked(states[n])
  {
    if n > 0 {
      MarksAreKept(c, states, events, n - 1);
      RunsAreSound(c, states, events, n - 1);
      RunsAreSound(c, states, events, n);
      StepHappens(c, states, events, n - 1);
      StepKeepsMarks(c, states[n - 1], events[n - 1], states[n]);
    }
  }

  /** In every reachable state: while a worker owns a job and has an agent call of a step in
      progress, that step's row says running. */
  lemma CallsAreMarked(c: Settings, states: seq<Cluster>, events: seq<Event>, n: nat, worker: string, step: string)
    requires IsRun(c, states, events) && n < |states| && worker in states[n].sessions
    requires var s := states[n].sessions[worker];
             s.phase.Executing? && step in s.phase.flights && s.phase.flights[step].Calling?
    ensures var id := states[n].sessions[worker].job;
            && id in states[n].jobs
            && (states[n].jobs[id].row.owner == Some(worker) ==>
                  && step in states[n].jobs[id].row.results
                  && states[n].jobs[id].row.results[step].status == Status.Running)
  {
    MarksAreKept(c, states, events, n);
    RunsAreSound(c, states, events, n);
  }

  // ---------- The delivery budget ----------

  /** This event is a step claim of the job that goes through, after which the step's agent
      is called. */
  ghost predicate CallsAgent(states: seq<Cluster>, events: seq<Event>, i: nat, id: string, step: string)
    requires |states| == |events| + 1 && i < |events|
  {
    && events[i].Work? && events[i].act == ClaimStep(step)
    && events[i].worker in states[i].sessions && states[i].sessions[events[i].worker].job == id
    && id in states[i].jobs && states[i].jobs[id].row.owner == Some(events[i].worker)
    && step in states[i].jobs[id].row.results && states[i].jobs[id].row.results[step].status != Succeeded
  }

  /** How often a step's agent is called in the first n events. */
  ghost function AgentCallsOf(states: seq<Cluster>, events: seq<Event>, n: nat, id: string, step: string): nat
    requires |states| == |events| + 1 && n <= |events|
  {
    if n == 0 then 0
    else AgentCallsOf(states, events, n - 1, id, step) + if CallsAgent(states, events, n - 1, id, step) then 1 else 0
  }

  /** All calls of a step's agent made by deliveries 1 to n. */
  function TotalCalls(calls: map<(nat, string), nat>, step: string, n: nat): nat {
    if n == 0 then 0
    else TotalCalls(calls, step, n - 1) + (if (n, step) in calls then calls[(n, step)] else 0)
  }

  lemma {:induction false} CallsWithin(c: Settings, j: Job, step: string, n: nat)
    requires CallsBounded(c, j) && c.maxAttempts > 0
    ensures TotalCalls(j.calls, step, n) <= (if n < c.maxAttempts then n else c.maxAttempts) * (c.maxRetries + 1)
  {
    if n > 0 {
      CallsWithin(c, j, step, n - 1);
      var m := if n < c.maxAttempts then n else c.maxAttempts;
      if n <= c.maxAttempts {
        assert m * (c.maxRetries + 1) == (n - 1) * (c.maxRetries + 1) + (c.maxRetries + 1);
      }
    }
  }

  lemma {:induction false} OneMoreCall(calls: map<(nat, string), nat>, t: nat, id: string, step: string, n: nat)
    ensures TotalCalls(CountCall(calls, (t, id)), step, n)
         == TotalCalls(calls, step, n) + if id == step && 1 <= t <= n then 1 else 0
  {
    if n > 0 {
      OneMoreCall(calls, t, id, step, n - 1);
    }
  }

  /** The history of calls grows by exactly the calls that a session's act makes. */
  lemma ActCountsCalls(c: Settings, now: int, worker: string, s: Session, j: Job, act: Act, step: string)
    requires JobKept(c, j) && SessionKept(c, worker, s, j) && Perform(c, now, worker, s, j, act).Moves?
    ensures var o := Perform(c, now, worker, s, j, act);
            TotalCalls(o.job.calls, step, o.job.row.attempts)
            == TotalCalls(j.calls, step, j.row.attempts)
               + if act == ClaimStep(step) && StepClaimable(j.row, step, worker) then 1 else 0
  {
    match act {
      case Claim(_) =>
      case ClaimStep(id) => OneMoreCall(j.calls, s.token, id, step, j.row.attempts);
      case _ => OtherActsCountNothing(c, now, worker, s, j, act);
    }
  }

  lemma OtherActsCountNothing(c: Settings, now: int, worker: string, s: Session, j: Job, act: Act)
    requires !act.Claim? && !act.ClaimStep? && Perform(c, now, worker, s, j, act).Moves?
    ensures var o := Perform(c, now, worker, s, j, act);
            o.job.calls == j.calls && o.job.row.attempts == j.row.attempts
  {
  }

  function CallsSoFar(k: Cluster, id: string, step: string): nat {
    if id in k.jobs then TotalCalls(k.jobs[id].calls, step, k.jobs[id].row.attempts) else 0
  }

  lemma EventCountsNoCalls(c: Settings, k: Cluster, e: Event, k2: Cluster, id: string, step: string)
    requires Happens(c, k, e, k2)
    ensures CallsSoFar(k2, id, step) == CallsSoFar(k, id, step)
  {
  }

  lemma WorkCountsCalls(c: Settings, states: seq<Cluster>, events: seq<Event>, i: nat, id: string, step: string)
    requires IsRun(c, states, events) && i < |events| && events[i].Work?
    ensures CallsSoFar(states[i + 1], id, step)
         == CallsSoFar(states[i], id, step) + if CallsAgent(states, events, i, id, step) then 1 else 0
  {
    RunsAreSound(c, states, events, i);
    StepHappens(c, states, events, i);
    var (k, e) := (states[i], events[i]);
    var s := k.sessions[e.worker];
    ActCountsCalls(c, k.now, e.worker, s, k.jobs[s.job], e.act, step);
  }

  /** The job's history of calls is what happened. */
  lemma {:induction false} CallsAreCounted(c: Settings, states: seq<Cluster>, events: seq<Event>, n: nat, id: string,
                                           step: string)
    requires IsRun(c, states, events) && n < |states|
    ensures CallsSoFar(states[n], id, step) == AgentCallsOf(states, events, n, id, step)
  {
    if n > 0 {
      CallsAreCounted(c, states, events, n - 1, id, step);
      if events[n - 1].Work? {
        WorkCountsCalls(c, states, events, n - 1, id, step);
      } else {
        StepHappens(c, states, events, n - 1);
        EventCountsNoCalls(c, states[n - 1], events[n - 1], states[n], id, step);
      }
    }
  }

  /** With a delivery limit, a step's agent is called at most limit * (retries + 1) times
      over the whole run, whatever crashes, and every delivery that calls it is one of the
      first `limit`. */
  lemma ExecutionBudget(c: Settings, states: seq<Cluster>, events: seq<Event>, n: nat, id: string, step: string)
    requires IsRun(c, states, events) && n < |states| && c.maxAttempts > 0
    ensures AgentCallsOf(states, events, n, id, step) <= c.maxAttempts * (c.maxRetries + 1)
    ensures id in states[n].jobs ==>
              forall t :: (t, step) in states[n].jobs[id].calls ==>
                1 <= t <= states[n].jobs[id].row.attempts && t <= c.maxAttempts
  {
    CallsAreCounted(c, states, events, n, id, step);
    RunsAreSound(c, states, events, n);
    if id in states[n].jobs {
      JobBudget(c, states[n].jobs[id], step);
    }
  }

  lemma JobBudget(c: Settings, j: Job, step: string)
    requires CallsBounded(c, j) && c.maxAttempts > 0
    ensures TotalCalls(j.calls, step, j.row.attempts) <= c.maxAttempts * (c.maxRetries + 1)
    ensures forall t :: (t, step) in j.calls ==> 1 <= t <= j.row.attempts && t <= c.maxAttempts
  {
    CallsWithin(c, j, step, j.row.attempts);
    FewerDeliveries(if j.row.attempts < c.maxAttempts then j.row.attempts else c.maxAttempts, c.maxAttempts,
                    c.maxRetries + 1);
  }

  lemma FewerDeliveries(m: nat, n: nat, r: nat)
    requires m <= n
    ensures m * r <= n * r
  {
  }

  /** A session that is running steps made one of the first `limit` deliveries, and no
      other session made the same one. */
  lemma DeliveriesAreDistinct(c: Settings, states: seq<Cluster>, events: seq<Event>, i: nat, w: string, w2: string)
    requires IsRun(c, states, events) && i < |states|
    requires w in states[i].sessions && states[i].sessions[w].phase.Executing?
    requires w2 in states[i].sessions && states[i].sessions[w2].phase.Executing?
    ensures InBudget(c, states[i].sessions[w].token)
    ensures var (s, s2) := (states[i].sessions[w], states[i].sessions[w2]);
            s.job == s2.job && s.token == s2.token ==> w == w2
  {
    RunningDelivery(c, states, events, i, w);
    RunningDelivery(c, states, events, i, w2);
  }

  /** A session that is running steps made the delivery that its token names. */
  lemma RunningDelivery(c: Settings, states: seq<Cluster>, events: seq<Event>, i: nat, w: string)
    requires IsRun(c, states, events) && i < |states|
    requires w in states[i].sessions && states[i].sessions[w].phase.Executing?
    ensures var s := states[i].sessions[w];
            && InBudget(c, s.token) && s.job in states[i].jobs
            && 0 < s.token <= |states[i].jobs[s.job].claims| && states[i].jobs[s.job].claims[s.token - 1] == w
  {
    RunsAreSound(c, states, events, i);
    assert SessionKept(c, w, states[i].sessions[w], states[i].jobs[states[i].sessions[w].job]);
  }

  // ---------- Deliveries over a run ----------

  /** This event is a claim after which the session goes on to run the job. */
  ghost predicate Begins(states: seq<Cluster>, events: seq<Event>, i: nat, id: string)
    requires |states| == |events| + 1 && i < |events|
  {
    && events[i].Work? && events[i].act == Claim(true)
    && events[i].worker in states[i + 1].sessions
    && states[i + 1].sessions[events[i].worker].job == id && states[i + 1].sessions[events[i].worker].phase.Loading?
  }

  /** The delivery that the claim has counted. */
  function TokenOf(states: seq<Cluster>, events: seq<Event>, i: nat): nat
    requires |states| == |events| + 1 && i < |events|
    requires events[i].Work? && events[i].worker in states[i + 1].sessions
  {
    states[i + 1].sessions[events[i].worker].token
  }

  /** How many of the first n events begin to run the job. */
  ghost function Deliveries(states: seq<Cluster>, events: seq<Event>, n: nat, id: string): nat
    requires |states| == |events| + 1 && n <= |events|
  {
    if n == 0 then 0
    else Deliveries(states, events, n - 1, id) + if Begins(states, events, n - 1, id) then 1 else 0
  }

  /** Such a claim counts one more delivery, which is within the limit. */
  lemma BeginningCounts(c: Settings, states: seq<Cluster>, events: seq<Event>, i: nat, id: string)
    requires IsRun(c, states, events) && i < |events| && Begins(states, events, i, id)
    ensures id in states[i].jobs && id in states[i + 1].jobs
    ensures TokenOf(states, events, i) == states[i].jobs[id].row.attempts + 1 == states[i + 1].jobs[id].row.attempts
    ensures InBudget(c, TokenOf(states, events, i))
  {
    RunsAreSound(c, states, events, i);
    StepHappens(c, states, events, i);
  }

  lemma DeliveriesGrow(c: Settings, states: seq<Cluster>, events: seq<Event>, i: nat, m: nat, id: string)
    requires IsRun(c, states, events) && i <= m < |states| && id in states[i].jobs
    ensures id in states[m].jobs && states[i].jobs[id].row.attempts <= states[m].jobs[id].row.attempts
  {
    FromThenOn(c, states, events, i, m, id);
    RunsAreSound(c, states, events, i);
    RunsAreSound(c, states, events, m);
  }

  /** Over a whole run, the deliveries of a job that are run carry growing numbers, all
      within the limit: no two of them are the same delivery. */
  lemma DeliveriesAreNumbered(c: Settings, states: seq<Cluster>, events: seq<Event>, i: nat, m: nat, id: string)
    requires IsRun(c, states, events) && i < m < |events|
    requires Begins(states, events, i, id) && Begins(states, events, m, id)
    ensures 1 <= TokenOf(states, events, i) < TokenOf(states, events, m) && InBudget(c, TokenOf(states, events, m))
  {
    BeginningCounts(c, states, events, i, id);
    BeginningCounts(c, states, events, m, id);
    DeliveriesGrow(c, states, events, i + 1, m, id);
  }

  /** Over a whole run, with a limit L at most L deliveries of a job are run, and never
      more than were claimed. */
  lemma {:induction false} DeliveryBudget(c: Settings, states: seq<Cluster>, events: seq<Event>, n: nat, id: string)
    requires IsRun(c, states, events) && n < |states|
    ensures Deliveries(states, events, n, id)
         <= (if id in states[n].jobs then states[n].jobs[id].row.attempts else 0)
    ensures c.maxAttempts > 0 ==> Deliveries(states, events, n, id) <= c.maxAttempts
  {
    if n > 0 {
      DeliveryBudget(c, states, events, n - 1, id);
      if Begins(states, events, n - 1, id) {
        BeginningCounts(c, states, events, n - 1, id);
      } else if id in states[n - 1].jobs {
        DeliveriesGrow(c, states, events, n - 1, n, id);
      }
    }
  }
}
