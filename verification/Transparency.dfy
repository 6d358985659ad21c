/** Crash transparency: with deterministic agents and final step writes that go through, a
    job that finishes within its delivery limit has stored exactly the results of one
    uninterrupted run, however many deliveries it took. */
module Transparency {
  import opened Basics
  import opened Workflows
  import opened Prompts
  import opened Semantics
  import opened Executions
  import opened Resumption
  import opened Stores
  import opened Sessions
  import opened Fencing
  import opened Protocol

  // ---------- The uninterrupted run ----------

  /** The job's workflow, run once from the beginning. */
  ghost function FreshPlan(c: Settings, j: Job): (w: Plan)
    requires Founded(j)
    ensures w.table == j.table && w.seeds == map[] && w.maxRetries == c.maxRetries
  {
    PlanOf(Workflow(j.row.steps, Options(c.maxRetries, 0, [])))
  }

  /** An uninterrupted run to compare with: the plan, what the agents answer, and the
      results f it returns. Prompts refer to direct dependencies only or, if not
      `direct`, to anything upstream. */
  datatype Reference = Reference(c: Settings, w: Plan, env: Env, f: map<string, StepResult>, direct: bool)
  {
    ghost predicate Holds() {
      && w.seeds == map[] && w.maxRetries == c.maxRetries
      && (if direct then DirectReferences(w) else UpstreamReferences(w))
      && Uninterrupted(env) && Solves(w, env, f)
    }
  }

  /** Agents answer as the environment says: a call under a cancelled context fails, and
      one that is cancelled while it runs may fail. A step claim fails only under a
      cancelled context. The write that records a step as it completes may fail if prompts
      refer to direct dependencies only; the final write of a result does not fail. */
  ghost predicate Reliable(ref: Reference, s: Session, act: Act) {
    match act
    case Unrunnable(_) => false
    case ClaimStepFails(_, _) => s.stop != Going
    case Land(_, ok) => ok || ref.direct
    case Record(ok) => ok
    case AgentReplies(id, reply) =>
      s.phase.Executing? && id in s.phase.flights && s.phase.flights[id].Calling? ==>
        var call := s.phase.flights[id];
        if call.doomed then reply.Fault?
        else reply == ref.env.reply(id, call.prompt, call.tries) || (s.stop != Going && reply.Fault?)
    case _ => true
  }

  // ---------- What stays true ----------

  /** A success is the reference's, and unless prompts are direct its dependencies are
      successes here too. */
  ghost predicate ClearAt(ref: Reference, results: map<string, StepResult>, id: string)
    requires id in results
  {
    results[id].status == Succeeded ==>
      && id in ref.f && id in ref.w.g && results[id] == ref.f[id]
      && (ref.direct || AllSucceeded(results, ref.w.g[id]))
  }

  ghost predicate Clear(ref: Reference, results: map<string, StepResult>) {
    forall id {:trigger ClearAt(ref, results, id)} {:trigger results[id]} :: id in results ==> ClearAt(ref, results, id)
  }

  ghost predicate JobClear(ref: Reference, j: Job) {
    && j.table == ref.w.table && Clear(ref, j.row.results)
    && (j.finish.Some? ==> j.finish.value.results == ref.f && j.finish.value.faithful)
  }

  /** Unless prompts are direct, the successes are in the store. */
  ghost predicate Stored(ref: Reference, results: map<string, StepResult>, row: JobRow) {
    ref.direct ||
    forall id :: id in results && results[id].status == Succeeded ==>
          id in row.results && row.results[id] == results[id]
  }

  /** Everything so far is as in the reference. */
  ghost predicate Matches(f: map<string, StepResult>, results: map<string, StepResult>) {
    forall id :: id in results ==> id in f && results[id] == f[id]
  }

  /** The calls from number `tries` on lead to the reference's result. */
  ghost predicate OnTheWay(ref: Reference, id: string, prompt: string, tries: nat)
    requires id in ref.f
  {
    ref.f[id] == Attempt(ref.env, ref.c.maxRetries, id, prompt, tries)
  }

  /** Unless the run is being interrupted, the flight is on its way to the reference's
      result; in any case it can only succeed with that. */
  ghost predicate FlightClear(ref: Reference, going: bool, id: string, flight: Flight)
    requires id in ref.f
  {
    match flight
    case Claiming(prompt, tries) => going ==> OnTheWay(ref, id, prompt, tries)
    case Calling(prompt, tries, doomed) => (going ==> !doomed) && (!doomed ==> OnTheWay(ref, id, prompt, tries))
    case BackingOff(prompt, tries) => going ==> OnTheWay(ref, id, prompt, tries)
    case Landed(r) => (going || r.status == Succeeded) ==> r == ref.f[id]
  }

  ghost predicate FlightsClear(ref: Reference, going: bool, p: Phase)
    requires p.Executing?
  {
    forall id :: id in p.flights ==>
      && id in ref.f && id in ref.w.g && AllSucceeded(p.results, ref.w.g[id])
      && FlightClear(ref, going, id, p.flights[id])
  }

  ghost predicate RunClear(ref: Reference, going: bool, p: Phase, row: JobRow)
    requires p.Executing?
  {
    && Clear(ref, p.results) && Stored(ref, p.results, row) && (going ==> Matches(ref.f, p.results))
    && FlightsClear(ref, going, p)
  }

  /** While its worker owns the job, a session follows the reference. */
  ghost predicate SessionClear(ref: Reference, worker: string, s: Session, j: Job) {
    j.row.owner == Some(worker) ==>
      && (s.phase.Executing? ==> RunClear(ref, s.stop == Going, s.phase, j.row))
      && (s.phase.Recording? ==> s.phase.outcome == ref.f && s.phase.faithful && Stored(ref, ref.f, j.row))
  }

  ghost predicate OnCourse(ref: Reference, worker: string, s: Session, j: Job) {
    ref.Holds() && JobClear(ref, j) && SessionClear(ref, worker, s, j)
  }

  ghost predicate Kept(ref: Reference, worker: string, s: Session, j: Job) {
    JobKept(ref.c, j) && SessionKept(ref.c, worker, s, j)
  }

  ghost predicate ClearOutcome(ref: Reference, worker: string, o: Outcome) {
    o.Moves? ==> JobClear(ref, o.job) && (o.session.Some? ==> SessionClear(ref, worker, o.session.value, o.job))
  }

  // ---------- Starting and skipping steps ----------

  ghost function Successes(results: map<string, StepResult>): map<string, StepResult> {
    map id | id in results && results[id].status == Succeeded :: results[id]
  }

  /** A step that becomes ready in any part of any delivery has its reference result
      ahead of it. */
  lemma ReadyFollows(ref: Reference, results: map<string, StepResult>, id: string)
    requires ref.Holds() && Clear(ref, results) && id in ref.w.g
    requires AllSucceeded(results, ref.w.g[id])
    ensures Execute(ref.env, ref.c.maxRetries, ref.w.table[id], results) == ref.f[id]
  {
    var part := Successes(results);
    SuccessesAgree(ref, results);
    if ref.direct {
      DirectIsSeen(ref.w, part, id);
    } else {
      UpstreamIsSeen(ref.w, part, id);
    }
    SeenPartAgrees(ref.w, ref.env, ref.f, part, id);
    RenderAgrees(ref.w.table[id].prompt, results, part);
  }

  lemma SuccessesAgree(ref: Reference, results: map<string, StepResult>)
    requires Clear(ref, results)
    ensures forall u :: u in Successes(results) ==> u in ref.f && u in ref.w.g && Successes(results)[u] == ref.f[u]
    ensures ref.direct || forall u :: u in Successes(results) ==> AllSucceeded(Successes(results), ref.w.g[u])
  {
    var part := Successes(results);
    forall u | u in part
      ensures u in ref.f && u in ref.w.g && part[u] == ref.f[u] && (ref.direct || AllSucceeded(part, ref.w.g[u]))
    {
      assert ClearAt(ref, results, u);
    }
  }

  lemma BlockedFollows(ref: Reference, results: map<string, StepResult>, id: string)
    requires ref.Holds() && Clear(ref, results) && id in ref.w.g
    requires Matches(ref.f, results) && AnyFailed(results, ref.w.g[id])
    ensures ref.f[id] == SkippedResult(id)
  {
    assert StepEquation(ref.w, ref.env, ref.f, id);
  }

  // ---------- Writing results ----------

  /** A new result keeps what is known about the others. */
  lemma OneMoreResult(ref: Reference, results: map<string, StepResult>, id: string, r: StepResult)
    requires Clear(ref, results) && id !in results
    requires r.status == Succeeded ==>
      id in ref.f && id in ref.w.g && r == ref.f[id] && (ref.direct || AllSucceeded(results, ref.w.g[id]))
    ensures Clear(ref, results[id := r])
  {
    var more := results[id := r];
    forall x | x in more ensures ClearAt(ref, more, x) {
      assert x in results ==> ClearAt(ref, results, x);
    }
  }

  lemma SuccessesStay(results: map<string, StepResult>, id: string, r: StepResult, deps: seq<string>)
    requires id !in results && AllSucceeded(results, deps)
    ensures AllSucceeded(results[id := r], deps)
  {
  }

  /** Writing over a row that is not succeeded disturbs nothing. */
  lemma UnsuccessfulRowIsFree(ref: Reference, rows: map<string, StepResult>, id: string, r: StepResult)
    requires Clear(ref, rows) && id in rows && rows[id].status != Succeeded
    requires r.status == Succeeded ==>
      id in ref.f && id in ref.w.g && r == ref.f[id] && (ref.direct || AllSucceeded(rows, ref.w.g[id]))
    ensures Clear(ref, rows[id := r])
  {
    var more := rows[id := r];
    forall x | x in more ensures ClearAt(ref, more, x) {
      assert ClearAt(ref, rows, x);
    }
  }

  // ---------- Each act follows the reference ----------

  lemma LoadFollows(ref: Reference, worker: string, s: Session, j: Job, ok: bool)
    requires OnCourse(ref, worker, s, j)
    ensures ClearOutcome(ref, worker, DoLoad(s, j, ok))
  {
    var results := Resumable(j.row);
    forall id | id in results ensures ClearAt(ref, results, id) {
      assert ClearAt(ref, j.row.results, id);
    }
  }

  lemma StartFollows(ref: Reference, worker: string, s: Session, j: Job, id: string)
    requires OnCourse(ref, worker, s, j)
    ensures ClearOutcome(ref, worker, DoStart(s, j, id))
  {
    if DoStart(s, j, id).Moves? && j.row.owner == Some(worker) {
      ReadyFollows(ref, s.phase.results, id);
    }
  }

  lemma SkipFollows(ref: Reference, worker: string, s: Session, j: Job, id: string)
    requires OnCourse(ref, worker, s, j)
    ensures ClearOutcome(ref, worker, DoSkip(s, j, id))
  {
    if DoSkip(s, j, id).Moves? && j.row.owner == Some(worker) {
      OneMoreResult(ref, s.phase.results, id, SkippedResult(id));
      FlightsStay(ref, s.stop == Going, s.phase, id, SkippedResult(id));
      if s.stop == Going {
        BlockedFollows(ref, s.phase.results, id);
      }
    }
  }

  /** Flights are not affected by another step's result. */
  lemma FlightsStay(ref: Reference, going: bool, p: Phase, id: string, r: StepResult)
    requires p.Executing? && FlightsClear(ref, going, p) && id !in p.results
    ensures FlightsClear(ref, going, p.(results := p.results[id := r], flights := p.flights - {id}))
  {
    forall x | x in p.flights ensures AllSucceeded(p.results[id := r], ref.w.g[x]) {
      SuccessesStay(p.results, id, r, ref.w.g[x]);
    }
  }

  lemma ClaimStepFollows(ref: Reference, worker: string, s: Session, j: Job, id: string)
    requires OnCourse(ref, worker, s, j) && Kept(ref, worker, s, j)
    ensures ClearOutcome(ref, worker, DoClaimStep(ref.c, worker, s, j, id))
  {
    if DoClaimStep(ref.c, worker, s, j, id).Moves? {
      if StepClaimable(j.row, id, worker) {
        TakenStepFollows(ref, worker, s, j, id);
      } else {
        StepRefused(ref.c, worker, s, j, id);
      }
    }
  }

  lemma TakenStepFollows(ref: Reference, worker: string, s: Session, j: Job, id: string)
    requires OnCourse(ref, worker, s, j)
    requires DoClaimStep(ref.c, worker, s, j, id).Moves? && StepClaimable(j.row, id, worker)
    ensures ClearOutcome(ref, worker, DoClaimStep(ref.c, worker, s, j, id))
  {
    UnsuccessfulRowIsFree(ref, j.row.results, id, j.row.results[id].(status := Status.Running));
  }

  /** A claim that fails under a cancelled context leaves a flight that cannot succeed. */
  lemma FailedClaimFollows(ref: Reference, worker: string, s: Session, j: Job, id: string, message: string)
    requires OnCourse(ref, worker, s, j) && (j.row.owner == Some(worker) ==> s.stop != Going)
    ensures ClearOutcome(ref, worker, DoClaimStepFails(ref.c, s, j, id, message))
  {
  }

  lemma ReplyFollows(ref: Reference, worker: string, s: Session, j: Job, id: string, reply: Reply)
    requires OnCourse(ref, worker, s, j)
    requires j.row.owner == Some(worker) ==> Reliable(ref, s, AgentReplies(id, reply))
    ensures ClearOutcome(ref, worker, DoAgentReplies(ref.c, s, j, id, reply))
  {
    if DoAgentReplies(ref.c, s, j, id, reply).Moves? && j.row.owner == Some(worker) {
      assert FlightClear(ref, s.stop == Going, id, s.phase.flights[id]);
      assert ref.env.cancel(id, s.phase.flights[id].tries + 1).None?;
    }
  }

  lemma WakeFollows(ref: Reference, worker: string, s: Session, j: Job, id: string)
    requires OnCourse(ref, worker, s, j)
    ensures ClearOutcome(ref, worker, DoWake(s, j, id))
  {
  }

  lemma InterruptFollows(ref: Reference, worker: string, s: Session, j: Job, id: string, why: string)
    requires OnCourse(ref, worker, s, j)
    ensures ClearOutcome(ref, worker, DoInterrupt(s, j, id, why))
  {
  }

  lemma LandFollows(ref: Reference, worker: string, s: Session, j: Job, id: string, ok: bool)
    requires OnCourse(ref, worker, s, j) && Kept(ref, worker, s, j)
    requires j.row.owner == Some(worker) ==> ok || ref.direct
    ensures ClearOutcome(ref, worker, DoLand(worker, s, j, id, ok))
  {
    if DoLand(worker, s, j, id, ok).Moves? && j.row.owner == Some(worker) {
      var r := s.phase.flights[id].result;
      LandedResultFollows(ref, s.stop == Going, s.phase, j.row, id);
      if ok && id in j.row.results {
        LandedRowFollows(ref, s.stop == Going, s.phase, j.row, id);
      }
    }
  }

  lemma LandedResultFollows(ref: Reference, going: bool, p: Phase, row: JobRow, id: string)
    requires p.Executing? && RunClear(ref, going, p, row)
    requires id in p.flights && p.flights[id].Landed? && id !in p.results
    ensures var (r, p2) := (p.flights[id].result,
                            p.(results := p.results[id := p.flights[id].result], flights := p.flights - {id}));
            && Clear(ref, p2.results) && (going ==> Matches(ref.f, p2.results)) && FlightsClear(ref, going, p2)
  {
    var r := p.flights[id].result;
    assert FlightClear(ref, going, id, p.flights[id]);
    OneMoreResult(ref, p.results, id, r);
    FlightsStay(ref, going, p, id, r);
  }

  lemma LandedRowFollows(ref: Reference, going: bool, p: Phase, row: JobRow, id: string)
    requires p.Executing? && RunClear(ref, going, p, row) && Clear(ref, row.results)
    requires id in p.flights && p.flights[id].Landed? && id !in p.results
    requires id in row.results && row.results[id].status != Succeeded
    ensures Clear(ref, row.results[id := p.flights[id].result])
    ensures Stored(ref, p.results[id := p.flights[id].result], row.(results := row.results[id := p.flights[id].result]))
  {
    var r := p.flights[id].result;
    assert FlightClear(ref, going, id, p.flights[id]);
    if !ref.direct {
      assert AllSucceeded(p.results, ref.w.g[id]);
      assert AllSucceeded(row.results, ref.w.g[id]);
    }
    UnsuccessfulRowIsFree(ref, row.results, id, r);
  }

  lemma ReturnFollows(ref: Reference, worker: string, s: Session, j: Job, ordered: seq<StepResult>,
                      err: Option<WorkflowError>)
    requires OnCourse(ref, worker, s, j)
    ensures ClearOutcome(ref, worker, DoReturn(s, j, ordered, err))
  {
    var o := DoReturn(s, j, ordered, err);
    if o.Moves? && j.row.owner == Some(worker) && !Interrupted(s) {
      assert s.phase.results == ref.f;
    }
  }

  lemma RecordFollows(ref: Reference, worker: string, s: Session, j: Job, ok: bool)
    requires OnCourse(ref, worker, s, j) && Kept(ref, worker, s, j)
    requires j.row.owner == Some(worker) ==> ok
    ensures ClearOutcome(ref, worker, DoRecord(worker, s, j, ok))
  {
    if DoRecord(worker, s, j, ok).Moves? && j.row.owner == Some(worker) {
      var r := s.phase.todo[0];
      assert r == ref.f[r.id];
      if j.row.results[r.id].status == Succeeded {
        assert j.row.results[r.id := r] == j.row.results;
      } else {
        RecordedRowFollows(ref, j.row, r);
      }
    }
  }

  /** Writing a result of the reference over a row that is not succeeded. */
  lemma RecordedRowFollows(ref: Reference, row: JobRow, r: StepResult)
    requires ref.Holds() && Clear(ref, row.results) && Stored(ref, ref.f, row)
    requires r.id in row.results && row.results[r.id].status != Succeeded && r.id in ref.f && r == ref.f[r.id]
    ensures Clear(ref, row.results[r.id := r])
    ensures Stored(ref, ref.f, row.(results := row.results[r.id := r]))
  {
    if r.status == Succeeded && !ref.direct {
      SuccessHasDependencies(ref, r.id);
    }
    UnsuccessfulRowIsFree(ref, row.results, r.id, r);
  }

  lemma SuccessHasDependencies(ref: Reference, id: string)
    requires ref.Holds() && id in ref.f && ref.f[id].status == Succeeded
    ensures AllSucceeded(ref.f, ref.w.g[id])
  {
    assert StepEquation(ref.w, ref.env, ref.f, id);
  }

  lemma FinishFollows(ref: Reference, worker: string, s: Session, j: Job, ok: bool)
    requires OnCourse(ref, worker, s, j) && Kept(ref, worker, s, j)
    ensures ClearOutcome(ref, worker, DoFinishUp(worker, s, j, ok))
  {
  }

  /** A worker that does not own the job cannot leave the course, whatever it does. */
  lemma OtherActFollows(ref: Reference, now: int, worker: string, s: Session, j: Job, act: Act)
    requires OnCourse(ref, worker, s, j)
    requires !OnSteps(act) && !OnLease(act) && !act.FinishUp? && !act.Load?
    requires act.Unrunnable? ==> j.row.owner != Some(worker)
    ensures ClearOutcome(ref, worker, Perform(ref.c, now, worker, s, j, act))
  {
  }

  /** Nothing is asked of sessions about deadlines, nor about stopping. */
  lemma LeaseFollows(ref: Reference, worker: string, s: Session, s2: Session, j: Job, j2: Job)
    requires OnCourse(ref, worker, s, j) && j2 == j.(row := j.row.(lease := j2.row.lease))
    requires s2 == s.(beat := s2.beat, stop := s2.stop) && (s2.stop == Going ==> s.stop == Going)
    ensures JobClear(ref, j2) && SessionClear(ref, worker, s2, j2)
  {
  }

  lemma LeaseActFollows(ref: Reference, now: int, worker: string, s: Session, j: Job, act: Act)
    requires OnCourse(ref, worker, s, j) && OnLease(act)
    ensures ClearOutcome(ref, worker, Perform(ref.c, now, worker, s, j, act))
  {
    var o := Perform(ref.c, now, worker, s, j, act);
    if o.Moves? {
      assert o.session.Some? && o.job == j.(row := j.row.(lease := o.job.row.lease));
      assert o.session.value == s.(beat := o.session.value.beat, stop := o.session.value.stop);
      LeaseFollows(ref, worker, s, o.session.value, j, o.job);
    }
  }

  lemma StepActFollows(ref: Reference, now: int, worker: string, s: Session, j: Job, act: Act)
    requires OnCourse(ref, worker, s, j) && Kept(ref, worker, s, j) && OnSteps(act)
    requires j.row.owner == Some(worker) ==> Reliable(ref, s, act)
    ensures ClearOutcome(ref, worker, Perform(ref.c, now, worker, s, j, act))
  {
    match act
    case Start(id) => StartFollows(ref, worker, s, j, id);
    case Skip(id) => SkipFollows(ref, worker, s, j, id);
    case ClaimStep(id) => ClaimStepFollows(ref, worker, s, j, id);
    case ClaimStepFails(id, message) => FailedClaimFollows(ref, worker, s, j, id, message);
    case AgentReplies(id, reply) => ReplyFollows(ref, worker, s, j, id, reply);
    case Wake(id) => WakeFollows(ref, worker, s, j, id);
    case Interrupt(id, why) => InterruptFollows(ref, worker, s, j, id, why);
    case Land(id, ok) => LandFollows(ref, worker, s, j, id, ok);
    case Return(ordered, err) => ReturnFollows(ref, worker, s, j, ordered, err);
    case Record(ok) => RecordFollows(ref, worker, s, j, ok);
  }

  /** A session keeps to the reference, as long as it owns the job by acting reliably and
      afterwards whatever it does. */
  lemma PerformFollows(ref: Reference, now: int, worker: string, s: Session, j: Job, act: Act)
    requires OnCourse(ref, worker, s, j) && Kept(ref, worker, s, j)
    requires j.row.owner == Some(worker) ==> Reliable(ref, s, act)
    ensures ClearOutcome(ref, worker, Perform(ref.c, now, worker, s, j, act))
  {
    if OnSteps(act) {
      StepActFollows(ref, now, worker, s, j, act);
    } else if OnLease(act) {
      LeaseActFollows(ref, now, worker, s, j, act);
    } else if act.Load? {
      LoadFollows(ref, worker, s, j, act.ok);
    } else if act.FinishUp? {
      FinishFollows(ref, worker, s, j, act.ok);
    } else {
      OtherActFollows(ref, now, worker, s, j, act);
    }
  }

  // ---------- The cluster follows the reference ----------

  ghost predicate Follows(ref: Reference, k: Cluster, id: string)
    requires id in k.jobs
  {
    && JobClear(ref, k.jobs[id])
    && forall x :: x in k.sessions && k.sessions[x].job == id ==> SessionClear(ref, x, k.sessions[x], k.jobs[id])
  }

  /** The session that owns the job, if any, acts reliably. Sessions that do not own it
      are not restricted. */
  ghost predicate ReliableEvent(ref: Reference, k: Cluster, e: Event, id: string) {
    && e.Work? && e.worker in k.sessions && k.sessions[e.worker].job == id
    && id in k.jobs && k.jobs[id].row.owner == Some(e.worker) ==>
      Reliable(ref, k.sessions[e.worker], e.act)
  }

  lemma OthersStayClear(ref: Reference, actor: string, worker: string, s: Session, j: Job, j2: Job)
    requires SessionClear(ref, worker, s, j) && worker != actor
    requires j2 == j || Guarantee(actor, j, j2)
    ensures SessionClear(ref, worker, s, j2)
  {
  }

  /** A session with this job acts. */
  lemma OwnWorkFollows(ref: Reference, k: Cluster, e: Event, k2: Cluster, id: string)
    requires ref.Holds() && Sound(ref.c, k) && id in k.jobs && Follows(ref, k, id) && ReliableEvent(ref, k, e, id)
    requires e.Work? && Works(ref.c, k, e.worker, e.act, e.deadline, k2) && k.sessions[e.worker].job == id
    ensures id in k2.jobs && JobClear(ref, k2.jobs[id])
    ensures e.worker in k2.sessions ==> SessionClear(ref, e.worker, k2.sessions[e.worker], k2.jobs[id])
  {
    assert JobKept(ref.c, k.jobs[id]) && SessionKept(ref.c, e.worker, k.sessions[e.worker], k.jobs[id]);
    PerformFollows(ref, k.now, e.worker, k.sessions[e.worker], k.jobs[id], e.act);
  }

  /** What an act leaves alone. */
  lemma WorkLeavesOthers(c: Settings, k: Cluster, e: Event, k2: Cluster, id: string)
    requires e.Work? && Works(c, k, e.worker, e.act, e.deadline, k2) && id in k.jobs
    ensures id in k2.jobs && (k.sessions[e.worker].job != id ==> k2.jobs[id] == k.jobs[id])
    ensures forall x :: x in k2.sessions && x != e.worker ==> x in k.sessions && k2.sessions[x] == k.sessions[x]
    ensures e.worker in k2.sessions ==> k2.sessions[e.worker].job == k.sessions[e.worker].job
  {
    SessionStays(c, k.now, e.worker, k.sessions[e.worker], k.jobs[k.sessions[e.worker].job], e.act);
  }

  lemma WorkFollows(ref: Reference, k: Cluster, e: Event, k2: Cluster, id: string)
    requires ref.Holds() && Sound(ref.c, k) && id in k.jobs && Follows(ref, k, id) && ReliableEvent(ref, k, e, id)
    requires e.Work? && Works(ref.c, k, e.worker, e.act, e.deadline, k2)
    requires id in k2.jobs && (k2.jobs[id] == k.jobs[id] || Guarantee(e.worker, k.jobs[id], k2.jobs[id]))
    ensures Follows(ref, k2, id)
  {
    WorkLeavesOthers(ref.c, k, e, k2, id);
    if k.sessions[e.worker].job == id {
      OwnWorkFollows(ref, k, e, k2, id);
    }
    forall x | x in k2.sessions && k2.sessions[x].job == id
      ensures SessionClear(ref, x, k2.sessions[x], k2.jobs[id])
    {
      if x != e.worker {
        OthersStayClear(ref, e.worker, x, k.sessions[x], k.jobs[id], k2.jobs[id]);
      }
    }
  }

  /** Events outside sessions leave results and endings alone, and start sessions only
      by fetching. */
  lemma EventsLeaveResults(c: Settings, k: Cluster, e: Event, k2: Cluster, id: string)
    requires Happens(c, k, e, k2) && id in k.jobs
    ensures id in k2.jobs && k2.jobs[id] == k.jobs[id].(row := k2.jobs[id].row)
    ensures k2.jobs[id].row.results == k.jobs[id].row.results
    ensures forall x :: x in k2.sessions ==>
              (x in k.sessions && k2.sessions[x] == k.sessions[x]) || k2.sessions[x].phase.Fetched?
  {
  }

  lemma EventFollows(ref: Reference, k: Cluster, e: Event, k2: Cluster, id: string)
    requires SessionsKept(ref.c, k) && id in k.jobs && Follows(ref, k, id) && Happens(ref.c, k, e, k2)
    requires id in k2.jobs && (k2.jobs[id] == k.jobs[id] || Guarantee("", k.jobs[id], k2.jobs[id]))
    ensures Follows(ref, k2, id)
  {
    EventsLeaveResults(ref.c, k, e, k2, id);
    forall x | x in k2.sessions && k2.sessions[x].job == id
      ensures SessionClear(ref, x, k2.sessions[x], k2.jobs[id])
    {
      if x in k.sessions && k2.sessions[x] == k.sessions[x] {
        assert x != "";
        OthersStayClear(ref, "", x, k.sessions[x], k.jobs[id], k2.jobs[id]);
      }
    }
  }

  /** A job that has just been submitted has no results, and nobody works on it. */
  ghost predicate Untouched(k: Cluster, id: string)
    requires id in k.jobs
  {
    && k.jobs[id].finish == None
    && (forall x :: x in k.jobs[id].row.results ==> k.jobs[id].row.results[x].status == Pending)
    && forall x :: x in k.sessions ==> k.sessions[x].job != id
  }

  lemma NewJobsAreUntouched(c: Settings, k: Cluster, e: Event, k2: Cluster, id: string)
    requires IdsKnown(k) && id !in k.jobs && id in k2.jobs && Steps(c, k, e, k2)
    ensures Untouched(k2, id)
  {
  }

  lemma UntouchedFollows(ref: Reference, k: Cluster, id: string)
    requires id in k.jobs && Untouched(k, id) && k.jobs[id].table == ref.w.table
    ensures Follows(ref, k, id)
  {
    forall x | x in k.jobs[id].row.results ensures ClearAt(ref, k.jobs[id].row.results, x) {
      assert k.jobs[id].row.results[x].status == Pending;
    }
  }

  lemma StepFollows(ref: Reference, k: Cluster, e: Event, k2: Cluster, id: string)
    requires ref.Holds() && Sound(ref.c, k) && id in k.jobs && Follows(ref, k, id)
    requires Steps(ref.c, k, e, k2) && ReliableEvent(ref, k, e, id)
    ensures id in k2.jobs && Follows(ref, k2, id)
  {
    StepKeepsSound(ref.c, k, e, k2);
    if e.Work? {
      WorkFollows(ref, k, e, k2, id);
    } else {
      EventFollows(ref, k, e, k2, id);
    }
  }

  lemma FirstFollows(ref: Reference, states: seq<Cluster>, events: seq<Event>, n: nat, id: string)
    requires IsRun(ref.c, states, events) && 0 < n < |states| && id !in states[n - 1].jobs
    requires id in states[n].jobs && states[n].jobs[id].table == ref.w.table
    ensures Follows(ref, states[n], id)
  {
    FirstIsUntouched(ref.c, states, events, n, id);
    UntouchedFollows(ref, states[n], id);
  }

  lemma FirstIsUntouched(c: Settings, states: seq<Cluster>, events: seq<Event>, n: nat, id: string)
    requires IsRun(c, states, events) && 0 < n < |states| && id !in states[n - 1].jobs && id in states[n].jobs
    ensures Untouched(states[n], id)
  {
    StepHappens(c, states, events, n - 1);
    assert IdsKnown(states[n - 1]) by {
      RunsAreSound(c, states, events, n - 1);
    }
    NewJobsAreUntouched(c, states[n - 1], events[n - 1], states[n], id);
  }

  lemma NextFollows(ref: Reference, states: seq<Cluster>, events: seq<Event>, n: nat, id: string)
    requires ref.Holds() && IsRun(ref.c, states, events) && 0 < n < |states| && id in states[n - 1].jobs
    requires Follows(ref, states[n - 1], id) && ReliableEvent(ref, states[n - 1], events[n - 1], id)
    ensures id in states[n].jobs && Follows(ref, states[n], id)
  {
    StepHappens(ref.c, states, events, n - 1);
    RunsAreSound(ref.c, states, events, n - 1);
    StepFollows(ref, states[n - 1], events[n - 1], states[n], id);
  }

  lemma TableStays(c: Settings, states: seq<Cluster>, events: seq<Event>, n: nat, id: string)
    requires IsRun(c, states, events) && 0 < n < |states| && id in states[n - 1].jobs
    ensures id in states[n].jobs && states[n].jobs[id].table == states[n - 1].jobs[id].table
  {
    RunsAreSound(c, states, events, n);
  }

  lemma {:induction false} RunFollows(ref: Reference, states: seq<Cluster>, events: seq<Event>, n: nat, id: string)
    requires ref.Holds() && IsRun(ref.c, states, events) && n < |states|
    requires forall i :: 0 <= i < n ==> ReliableEvent(ref, states[i], events[i], id)
    requires id in states[n].jobs && states[n].jobs[id].table == ref.w.table
    ensures Follows(ref, states[n], id)
    decreases n
  {
    if n > 0 {
      if id !in states[n - 1].jobs {
        FirstFollows(ref, states, events, n, id);
      } else {
        TableStays(ref.c, states, events, n, id);
        RunFollows(ref, states, events, n - 1, id);
        NextFollows(ref, states, events, n, id);
      }
    }
  }

  /** A finished job that follows the reference has stored it. */
  lemma FinishedIsReference(ref: Reference, j: Job)
    requires JobKept(ref.c, j) && JobClear(ref, j) && ref.f != map[]
    requires Terminal(j.row) && 0 < j.row.attempts && InBudget(ref.c, j.row.attempts)
    ensures j.row.results == ref.f && OutcomeOfRun(j.row.steps, ref.f, j.row.status, j.row.error)
  {
  }

  /** However many crashes, shutdowns, takeovers, releases and redeliveries it took: a job
      that finished within its delivery limit has stored exactly the results of the
      uninterrupted run, and its status and error are what that run returns. */
  lemma CrashTransparency(ref: Reference, states: seq<Cluster>, events: seq<Event>, n: nat, id: string)
    requires ref.Holds() && IsRun(ref.c, states, events) && n < |states|
    requires forall i :: 0 <= i < n ==> ReliableEvent(ref, states[i], events[i], id)
    requires id in states[n].jobs && Founded(states[n].jobs[id]) && ref.w == FreshPlan(ref.c, states[n].jobs[id])
    requires Terminal(states[n].jobs[id].row)
    requires 0 < states[n].jobs[id].row.attempts && InBudget(ref.c, states[n].jobs[id].row.attempts)
    ensures states[n].jobs[id].row.results == ref.f
    ensures OutcomeOfRun(states[n].jobs[id].row.steps, ref.f, states[n].jobs[id].row.status,
                         states[n].jobs[id].row.error)
  {
    RunFollows(ref, states, events, n, id);
    JobKeptAt(ref.c, states, events, n, id);
    ReferenceNotEmpty(ref, states[n].jobs[id]);
    FinishedIsReference(ref, states[n].jobs[id]);
  }

  lemma ReferenceNotEmpty(ref: Reference, j: Job)
    requires ref.Holds() && Founded(j) && ref.w == FreshPlan(ref.c, j)
    ensures ref.f != map[]
  {
    NotEmpty(j);
    assert ref.w.table.Keys == ref.f.Keys;
  }

  lemma JobKeptAt(c: Settings, states: seq<Cluster>, events: seq<Event>, n: nat, id: string)
    requires IsRun(c, states, events) && n < |states| && id in states[n].jobs
    ensures JobKept(c, states[n].jobs[id])
  {
    RunsAreSound(c, states, events, n);
  }

  lemma NotEmpty(j: Job)
    requires Founded(j)
    ensures j.table != map[]
  {
    assert j.row.steps[0].id in j.table;
  }
}
