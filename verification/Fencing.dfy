/** What every interleaving keeps. Each act of a session preserves its own invariant
    and changes the job only within a guarantee; nothing within that guarantee can
    disturb the session of another worker. */
module Fencing {
  import opened Basics
  import opened Graphs
  import opened Workflows
  import opened Semantics
  import opened Executions
  import opened Stores
  import opened Sessions

  // ---------- The job ----------

  /** Ownership: running, owned and leased are the same thing, and the owner is whoever
      made the latest delivery. */
  ghost predicate OwnershipKept(j: Job) {
    && j.row.status in {Pending, Status.Running, Succeeded, Failed}
    && (j.row.status == Status.Running <==> j.row.owner.Some?)
    && (j.row.owner.Some? <==> j.row.lease.Some?)
    && |j.claims| == j.row.attempts
    && (forall k :: 0 <= k < |j.claims| ==> j.claims[k] != "")
    && (j.row.owner.Some? ==> j.row.attempts > 0 && j.row.owner.value == j.claims[j.row.attempts - 1])
  }

  ghost predicate RowsNamed(j: Job) {
    j.row.results.Keys == j.table.Keys && forall id :: id in j.row.results ==> j.row.results[id].id == id
  }

  /** Agent calls belong to deliveries within the limit, and no delivery calls a step's
      agent more often than retries allow. */
  ghost predicate CallsBounded(c: Settings, j: Job) {
    forall t, id :: (t, id) in j.calls ==>
      1 <= t <= j.row.attempts && InBudget(c, t) && id in j.table && j.calls[(t, id)] <= c.maxRetries + 1
  }

  ghost predicate AllSucceed(results: map<string, StepResult>) {
    forall id :: id in results ==> results[id].status == Succeeded
  }

  /** Status and error are what Run returns for these results. */
  ghost predicate OutcomeOfRun(steps: seq<Step>, results: map<string, StepResult>, status: Status, error: string) {
    exists ordered, err :: Returns(steps, results, ordered, err)
      && (if err.Some? then status == Failed && error == Message(err.value) else status == Succeeded && error == "")
  }

  /** Results of a complete run: what they amount to, and that none but successes means
      success. */
  ghost predicate Concluded(j: Job, results: map<string, StepResult>, status: Status, error: string) {
    || (results == map[] && status == Failed)
    || (&& results.Keys == j.table.Keys
        && (status == Succeeded ==> AllSucceed(results))
        && OutcomeOfRun(j.row.steps, results, status, error))
  }

  /** How jobs end: by a held finish of the latest delivery, by the dead letters beyond
      the limit, or, never delivered, by a failed submission. */
  ghost predicate EndingsKept(c: Settings, j: Job) {
    && (j.finish.Some? ==>
          && Terminal(j.row) && 0 < j.row.attempts <= |j.claims| && InBudget(c, j.row.attempts)
          && j.finish.value.token == j.row.attempts && j.finish.value.worker == j.claims[j.row.attempts - 1]
          && Concluded(j, j.finish.value.results, j.row.status, j.row.error)
          && (j.finish.value.faithful && j.finish.value.results != map[] ==> j.row.results == j.finish.value.results))
    && (Terminal(j.row) && j.finish.None? ==>
          j.row.status == Failed && (j.row.attempts == 0 || !InBudget(c, j.row.attempts)))
    && j.completed <= 1 && (j.completed > 0 ==> j.finish.Some?)
    && (j.deadLettered > 0 ==> !InBudget(c, j.row.attempts))
  }

  ghost predicate JobKept(c: Settings, j: Job) {
    OwnershipKept(j) && RowsNamed(j) && CallsBounded(c, j) && EndingsKept(c, j)
  }

  // ---------- The session ----------

  /** This session made delivery `token`; while its worker owns the job, no later
      delivery has been made. */
  ghost predicate Claimant(worker: string, s: Session, j: Job) {
    && 0 < s.token <= |j.claims| == j.row.attempts && j.claims[s.token - 1] == worker
    && (j.row.owner == Some(worker) ==> j.row.attempts == s.token)
  }

  /** Every succeeded row is among the results, and identical. */
  ghost predicate Covered(row: JobRow, results: map<string, StepResult>) {
    forall id :: id in row.results && row.results[id].status == Succeeded ==>
          id in results && results[id] == row.results[id]
  }

  ghost predicate ResultsNamed(j: Job, results: map<string, StepResult>) {
    forall id :: id in results ==>
      id in j.table && results[id].id == id && results[id].status in {Succeeded, Failed, Skipped}
  }

  ghost predicate SkipsJustified(j: Job, results: map<string, StepResult>) {
    forall id {:trigger results[id]} :: id in results && results[id].status == Skipped ==>
      id in j.table && AnyFailed(results, j.table[id].dependsOn)
  }

  /** The most calls a flight can have made. */
  function Spent(c: Settings, f: Flight): nat {
    match f
    case Claiming(_, tries) => tries
    case Calling(_, tries, _) => tries + 1
    case BackingOff(_, tries) => tries
    case Landed(_) => c.maxRetries + 1
  }

  ghost predicate FlightKept(c: Settings, id: string, f: Flight) {
    && Spent(c, f) <= c.maxRetries + 1
    && (f.Claiming? ==> f.tries <= c.maxRetries) && (f.BackingOff? ==> f.tries <= c.maxRetries)
    && (f.Landed? ==> f.result.id == id && f.result.status in {Succeeded, Failed})
  }

  ghost predicate FlightsKept(c: Settings, j: Job, p: Phase)
    requires p.Executing?
  {
    forall id :: id in p.flights ==> id in j.table && id !in p.results && FlightKept(c, id, p.flights[id])
  }

  /** This delivery has called only agents of steps that are in flight or done. */
  ghost predicate CallsAccounted(c: Settings, token: nat, j: Job, p: Phase)
    requires p.Executing?
  {
    forall id {:trigger (token, id) in j.calls} :: (token, id) in j.calls ==>
      id in p.results || (id in p.flights && j.calls[(token, id)] <= Spent(c, p.flights[id]))
  }

  ghost predicate Listed(todo: seq<StepResult>, outcome: map<string, StepResult>) {
    forall i :: 0 <= i < |todo| ==> todo[i].id in outcome && todo[i] == outcome[todo[i].id]
  }

  ghost predicate Named(outcome: map<string, StepResult>) {
    forall id :: id in outcome ==> outcome[id].id == id
  }

  /** What is not yet written is still to do. */
  ghost predicate WrittenOrToDo(row: JobRow, todo: seq<StepResult>, outcome: map<string, StepResult>) {
    forall id {:trigger outcome[id]} :: id in outcome && id in row.results && row.results[id] != outcome[id] ==>
          outcome[id] in todo
  }

  ghost predicate SessionKept(c: Settings, worker: string, s: Session, j: Job) {
    var ours := j.row.owner == Some(worker);
    worker != "" &&
    match s.phase
    case Fetched => true
    case Refused => true
    case Acking => true
    case Requeueing => true
    case DeadLettering => Claimant(worker, s, j) && !InBudget(c, s.token)
    case Burying => Claimant(worker, s, j) && !InBudget(c, s.token)
    case Loading => Claimant(worker, s, j) && InBudget(c, s.token) && forall id :: (s.token, id) !in j.calls
    case Executing(results, flights, fence) =>
      && Claimant(worker, s, j) && InBudget(c, s.token)
      && ResultsNamed(j, results) && SkipsJustified(j, results) && FlightsKept(c, j, s.phase)
      && CallsAccounted(c, s.token, j, s.phase)
      && (ours ==> Covered(j.row, results) && !fence)
    case Recording(outcome, todo, status, error, faithful) =>
      && Claimant(worker, s, j) && InBudget(c, s.token)
      && Concluded(j, outcome, status, error) && Listed(todo, outcome) && Named(outcome)
      && (ours && outcome != map[] ==> Covered(j.row, outcome))
      && (ours && faithful ==> WrittenOrToDo(j.row, todo, outcome))
    case Completing => j.finish.Some? && j.finish.value.worker == worker && j.completed == 0
    case Abandoning(_) => Claimant(worker, s, j) && InBudget(c, s.token)
    case Releasing => Claimant(worker, s, j) && InBudget(c, s.token)
  }

  // ---------- The guarantee ----------

  /** What one act of `worker` ("" for reapers and submitters) may do to a job: nobody
      else becomes owner, deliveries are counted up and only by claiming, recorded
      successes and finished jobs stay as they are, and other deliveries' calls and
      endings are left alone. */
  ghost predicate Guarantee(worker: string, j: Job, j2: Job) {
    && j2.table == j.table && j2.row.steps == j.row.steps && j2.row.results.Keys == j.row.results.Keys
    && (j2.row == j.row || j2.row.owner == None || j2.row.owner == Some(worker))
    && (Terminal(j.row) ==> j2.row == j.row)
    && (forall id :: id in j.row.results && j.row.results[id].status == Succeeded ==>
          j2.row.results[id] == j.row.results[id])
    && (j2.claims == j.claims || (j2.claims == j.claims + [worker] && j2.row.owner == Some(worker)))
    && (j2.row.owner == Some(worker) && j.row.owner != Some(worker) ==> |j2.claims| > |j.claims|)
    && (forall t, id :: (t, id) in j2.calls && !((t, id) in j.calls && j.calls[(t, id)] == j2.calls[(t, id)]) ==>
          0 < t <= |j.claims| && j.claims[t - 1] == worker)
    && (j.finish.Some? ==> j2.finish == j.finish)
    && (j2.completed != j.completed ==> j.finish.Some? && j.finish.value.worker == worker)
  }

  /** Sessions of other workers do not notice. */
  lemma Undisturbed(c: Settings, actor: string, j: Job, j2: Job, worker: string, s: Session)
    requires JobKept(c, j) && JobKept(c, j2) && Guarantee(actor, j, j2)
    requires worker != actor && SessionKept(c, worker, s, j)
    ensures SessionKept(c, worker, s, j2)
  {
  }

  // ---------- Each act keeps its side ----------

  /** The act leaves the job and the session as they should be, and keeps to the
      guarantee. */
  ghost predicate Fair(c: Settings, worker: string, j: Job, o: Outcome) {
    o.Moves? ==>
      && JobKept(c, o.job) && Guarantee(worker, j, o.job)
      && (o.session.Some? ==> SessionKept(c, worker, o.session.value, o.job))
  }

  lemma ClaimIsFair(c: Settings, now: int, worker: string, s: Session, j: Job, ok: bool)
    requires JobKept(c, j) && SessionKept(c, worker, s, j)
    ensures Fair(c, worker, j, DoClaim(c, now, worker, s, j, ok))
  {
  }

  lemma BuryIsFair(c: Settings, worker: string, s: Session, j: Job, ok: bool)
    requires JobKept(c, j) && SessionKept(c, worker, s, j)
    ensures Fair(c, worker, j, DoBury(c, worker, s, j, ok))
  {
  }

  lemma LogDeadLetterIsFair(c: Settings, worker: string, s: Session, j: Job, ok: bool)
    requires JobKept(c, j) && SessionKept(c, worker, s, j)
    ensures Fair(c, worker, j, DoLogDeadLetter(s, j, ok))
  {
  }

  lemma LoadIsFair(c: Settings, worker: string, s: Session, j: Job, ok: bool)
    requires JobKept(c, j) && SessionKept(c, worker, s, j)
    ensures Fair(c, worker, j, DoLoad(s, j, ok))
  {
  }

  lemma UnrunnableIsFair(c: Settings, worker: string, s: Session, j: Job, message: string)
    requires JobKept(c, j) && SessionKept(c, worker, s, j)
    ensures Fair(c, worker, j, DoUnrunnable(s, j, message))
  {
  }

  /** Starting a flight, or moving one on without forgetting calls, keeps the session. */
  lemma FlightMoves(c: Settings, worker: string, s: Session, j: Job, id: string, f: Flight)
    requires SessionKept(c, worker, s, j) && s.phase.Executing? && id in j.table && id !in s.phase.results
    requires FlightKept(c, id, f) && (id in s.phase.flights ==> Spent(c, s.phase.flights[id]) <= Spent(c, f))
    ensures SessionKept(c, worker, s.(phase := s.phase.(flights := s.phase.flights[id := f])), j)
  {
  }

  lemma StartIsFair(c: Settings, worker: string, s: Session, j: Job, id: string)
    requires JobKept(c, j) && SessionKept(c, worker, s, j)
    ensures Fair(c, worker, j, DoStart(s, j, id))
  {
    var o := DoStart(s, j, id);
    if o.Moves? {
      FlightMoves(c, worker, s, j, id, o.session.value.phase.flights[id]);
    }
    StaysFair(c, worker, j, o);
  }

  /** An act that leaves the job alone is fair if it keeps the session. */
  lemma StaysFair(c: Settings, worker: string, j: Job, o: Outcome)
    requires JobKept(c, j)
    requires o.Moves? ==> o.job == j && (o.session.Some? ==> SessionKept(c, worker, o.session.value, j))
    ensures Fair(c, worker, j, o)
  {
  }

  lemma SkipIsFair(c: Settings, worker: string, s: Session, j: Job, id: string)
    requires JobKept(c, j) && SessionKept(c, worker, s, j)
    ensures Fair(c, worker, j, DoSkip(s, j, id))
  {
    var o := DoSkip(s, j, id);
    if o.Moves? {
      SkippedInSession(c, worker, s, j, id);
    }
    StaysFair(c, worker, j, o);
  }

  lemma SkippedInSession(c: Settings, worker: string, s: Session, j: Job, id: string)
    requires SessionKept(c, worker, s, j) && s.phase.Executing? && Remaining(j, s.phase, id)
    requires AnyFailed(s.phase.results, j.table[id].dependsOn)
    ensures SessionKept(c, worker, s.(phase := s.phase.(results := s.phase.results[id := SkippedResult(id)])), j)
  {
    SkipsStay(j, s.phase.results, id, SkippedResult(id));
  }

  lemma SkipsStay(j: Job, results: map<string, StepResult>, id: string, r: StepResult)
    requires SkipsJustified(j, results) && id !in results
    requires r.status == Skipped ==> id in j.table && AnyFailed(results, j.table[id].dependsOn)
    ensures SkipsJustified(j, results[id := r])
  {
    forall x {:trigger results[x]} | x in results[id := r] && results[id := r][x].status == Skipped
      ensures x in j.table && AnyFailed(results[id := r], j.table[x].dependsOn)
    {
      FailureStays(results, results[id := r], j.table[x].dependsOn);
    }
  }

  lemma ClaimStepIsFair(c: Settings, worker: string, s: Session, j: Job, id: string)
    requires JobKept(c, j) && SessionKept(c, worker, s, j)
    ensures Fair(c, worker, j, DoClaimStep(c, worker, s, j, id))
  {
    if DoClaimStep(c, worker, s, j, id).Moves? {
      if StepClaimable(j.row, id, worker) {
        StepTaken(c, worker, s.token, j, id);
        StepTakenInSession(c, worker, s, j, id);
      } else {
        StepRefused(c, worker, s, j, id);
      }
    }
  }

  /** The job after a step claim that goes through. */
  function Taken(worker: string, token: nat, j: Job, id: string): Job {
    j.(row := ClaimStepRow(j.row, id, worker), calls := CountCall(j.calls, (token, id)))
  }

  lemma StepTaken(c: Settings, worker: string, token: nat, j: Job, id: string)
    requires JobKept(c, j) && StepClaimable(j.row, id, worker)
    requires 0 < token <= |j.claims| && j.claims[token - 1] == worker && InBudget(c, token)
    requires (token, id) in j.calls ==> j.calls[(token, id)] <= c.maxRetries
    ensures JobKept(c, Taken(worker, token, j, id)) && Guarantee(worker, j, Taken(worker, token, j, id))
  {
  }

  lemma StepTakenInSession(c: Settings, worker: string, s: Session, j: Job, id: string)
    requires JobKept(c, j) && SessionKept(c, worker, s, j) && s.phase.Executing?
    requires id in s.phase.flights && s.phase.flights[id].Claiming? && StepClaimable(j.row, id, worker)
    ensures var o := DoClaimStep(c, worker, s, j, id);
            o.Moves? && o.session.Some? && o.job == Taken(worker, s.token, j, id)
                && SessionKept(c, worker, o.session.value, o.job)
  {
  }

  /** A step claim is refused only when the job has been lost: "already succeeded"
      cannot be the reason while the worker owns it. */
  lemma StepRefused(c: Settings, worker: string, s: Session, j: Job, id: string)
    requires JobKept(c, j) && SessionKept(c, worker, s, j) && s.phase.Executing?
    requires id in s.phase.flights && s.phase.flights[id].Claiming? && !StepClaimable(j.row, id, worker)
    ensures j.row.owner != Some(worker)
    ensures Fair(c, worker, j, DoClaimStep(c, worker, s, j, id))
  {
  }

  lemma ClaimStepFailsIsFair(c: Settings, worker: string, s: Session, j: Job, id: string, message: string)
    requires JobKept(c, j) && SessionKept(c, worker, s, j)
    ensures Fair(c, worker, j, DoClaimStepFails(c, s, j, id, message))
  {
    var o := DoClaimStepFails(c, s, j, id, message);
    if o.Moves? {
      FlightMoves(c, worker, s, j, id, o.session.value.phase.flights[id]);
    }
    StaysFair(c, worker, j, o);
  }

  lemma AgentRepliesIsFair(c: Settings, worker: string, s: Session, j: Job, id: string, reply: Reply)
    requires JobKept(c, j) && SessionKept(c, worker, s, j)
    ensures Fair(c, worker, j, DoAgentReplies(c, s, j, id, reply))
  {
    var o := DoAgentReplies(c, s, j, id, reply);
    if o.Moves? {
      FlightMoves(c, worker, s, j, id, o.session.value.phase.flights[id]);
    }
    StaysFair(c, worker, j, o);
  }

  lemma WakeIsFair(c: Settings, worker: string, s: Session, j: Job, id: string)
    requires JobKept(c, j) && SessionKept(c, worker, s, j)
    ensures Fair(c, worker, j, DoWake(s, j, id))
  {
    var o := DoWake(s, j, id);
    if o.Moves? {
      FlightMoves(c, worker, s, j, id, o.session.value.phase.flights[id]);
    }
    StaysFair(c, worker, j, o);
  }

  lemma InterruptIsFair(c: Settings, worker: string, s: Session, j: Job, id: string, why: string)
    requires JobKept(c, j) && SessionKept(c, worker, s, j)
    ensures Fair(c, worker, j, DoInterrupt(s, j, id, why))
  {
    var o := DoInterrupt(s, j, id, why);
    if o.Moves? {
      FlightMoves(c, worker, s, j, id, o.session.value.phase.flights[id]);
    }
    StaysFair(c, worker, j, o);
  }

  /** Writing a result keeps the job, as long as it does not change a recorded success. */
  lemma ResultWritten(c: Settings, worker: string, j: Job, r: StepResult)
    requires JobKept(c, j) && worker != ""
    requires j.row.owner == Some(worker) && r.id in j.row.results && j.row.results[r.id].status == Succeeded ==>
               r == j.row.results[r.id]
    ensures JobKept(c, j.(row := UpdateStepRow(j.row, worker, r)))
            && Guarantee(worker, j, j.(row := UpdateStepRow(j.row, worker, r)))
  {
  }

  lemma LandIsFair(c: Settings, worker: string, s: Session, j: Job, id: string, ok: bool)
    requires JobKept(c, j) && SessionKept(c, worker, s, j)
    ensures Fair(c, worker, j, DoLand(worker, s, j, id, ok))
  {
    var o := DoLand(worker, s, j, id, ok);
    if o.Moves? {
      ResultWritten(c, worker, j, s.phase.flights[id].result);
      LandedInSession(c, worker, s, j, id, ok);
    }
  }

  lemma LandedInSession(c: Settings, worker: string, s: Session, j: Job, id: string, ok: bool)
    requires JobKept(c, j) && SessionKept(c, worker, s, j) && DoLand(worker, s, j, id, ok).Moves?
    ensures var o := DoLand(worker, s, j, id, ok);
            o.session.Some? && SessionKept(c, worker, o.session.value, o.job)
  {
    LandedRun(c, s.token, j, s.phase, id);
  }

  /** What a run keeps when a flight lands. */
  lemma LandedRun(c: Settings, token: nat, j: Job, p: Phase, id: string)
    requires p.Executing? && id in p.flights && p.flights[id].Landed?
    requires ResultsNamed(j, p.results) && SkipsJustified(j, p.results) && FlightsKept(c, j, p)
    requires CallsAccounted(c, token, j, p)
    ensures var p2 := p.(results := p.results[id := p.flights[id].result], flights := p.flights - {id});
            && ResultsNamed(j, p2.results) && SkipsJustified(j, p2.results) && FlightsKept(c, j, p2)
            && CallsAccounted(c, token, j, p2)
  {
    SkipsStay(j, p.results, id, p.flights[id].result);
  }

  lemma RecordIsFair(c: Settings, worker: string, s: Session, j: Job, ok: bool)
    requires JobKept(c, j) && SessionKept(c, worker, s, j)
    ensures Fair(c, worker, j, DoRecord(worker, s, j, ok))
  {
    var o := DoRecord(worker, s, j, ok);
    if o.Moves? {
      ResultWritten(c, worker, j, s.phase.todo[0]);
      RecordedInSession(c, worker, s, j, ok);
    }
  }

  lemma RecordedInSession(c: Settings, worker: string, s: Session, j: Job, ok: bool)
    requires JobKept(c, j) && SessionKept(c, worker, s, j) && DoRecord(worker, s, j, ok).Moves?
    ensures var o := DoRecord(worker, s, j, ok);
            o.session.Some? && SessionKept(c, worker, o.session.value, o.job)
  {
    var (todo, outcome) := (s.phase.todo, s.phase.outcome);
    assert todo == [todo[0]] + todo[1..];
    assert forall r :: r in todo ==> r == todo[0] || r in todo[1..];
  }

  lemma FinishUpIsFair(c: Settings, worker: string, s: Session, j: Job, ok: bool)
    requires JobKept(c, j) && SessionKept(c, worker, s, j)
    ensures Fair(c, worker, j, DoFinishUp(worker, s, j, ok))
  {
  }

  lemma LogCompletedIsFair(c: Settings, worker: string, s: Session, j: Job, ok: bool)
    requires JobKept(c, j) && SessionKept(c, worker, s, j)
    ensures Fair(c, worker, j, DoLogCompleted(s, j, ok))
  {
  }

  lemma LeavingIsFair(c: Settings, worker: string, s: Session, j: Job)
    requires JobKept(c, j) && SessionKept(c, worker, s, j)
    ensures Fair(c, worker, j, DoAck(s, j)) && Fair(c, worker, j, DoRequeue(s, j))
  {
  }

  lemma AbandonIsFair(c: Settings, worker: string, s: Session, j: Job)
    requires JobKept(c, j) && SessionKept(c, worker, s, j)
    ensures Fair(c, worker, j, DoAbandon(s, j))
  {
  }

  lemma ReleaseIsFair(c: Settings, worker: string, s: Session, j: Job, ok: bool)
    requires JobKept(c, j) && SessionKept(c, worker, s, j)
    ensures Fair(c, worker, j, DoRelease(worker, s, j, ok))
  {
  }

  lemma BeatStoreIsFair(c: Settings, now: int, worker: string, s: Session, j: Job, ok: bool)
    requires JobKept(c, j) && SessionKept(c, worker, s, j)
    ensures Fair(c, worker, j, DoBeatStore(c, now, worker, s, j, ok))
  {
    var o := DoBeatStore(c, now, worker, s, j, ok);
    if o.Moves? {
      LeaseExtended(c, worker, j, now + c.lease);
      LeaseDoesNotMatter(c, worker, s, o.session.value, j, o.job);
    }
  }

  /** Sessions do not depend on the deadline, nor on where the heartbeat is. */
  lemma LeaseDoesNotMatter(c: Settings, worker: string, s: Session, s2: Session, j: Job, j2: Job)
    requires SessionKept(c, worker, s, j) && s2 == s.(stop := s2.stop, beat := s2.beat)
    requires j2 == j.(row := j.row.(lease := j2.row.lease))
    ensures SessionKept(c, worker, s2, j2)
  {
  }

  lemma LeaseExtended(c: Settings, worker: string, j: Job, until: int)
    requires JobKept(c, j)
    ensures JobKept(c, j.(row := ExtendRow(j.row, worker, until)))
            && Guarantee(worker, j, j.(row := ExtendRow(j.row, worker, until)))
  {
  }

  lemma BeatQueueIsFair(c: Settings, worker: string, s: Session, j: Job, held: Option<bool>)
    requires JobKept(c, j) && SessionKept(c, worker, s, j)
    ensures Fair(c, worker, j, DoBeatQueue(s, j, held))
  {
    var o := DoBeatQueue(s, j, held);
    if o.Moves? {
      LeaseDoesNotMatter(c, worker, s, o.session.value, j, j);
    }
  }

  lemma CancelIsFair(c: Settings, worker: string, s: Session, j: Job)
    requires JobKept(c, j) && SessionKept(c, worker, s, j)
    ensures Fair(c, worker, j, DoCancel(s, j))
  {
    var o := DoCancel(s, j);
    if o.Moves? {
      LeaseDoesNotMatter(c, worker, s, o.session.value, j, j);
    }
  }

  // ---------- Returning from a run ----------

  /** The job's definition was validated when it was submitted. */
  ghost predicate Founded(j: Job) {
    ValidDag(j.row.steps) && j.table == Table(j.row.steps)
  }

  /** Without a failed result there is no skipped one either: a skip leads back, along
      dependencies, to a failure. */
  lemma {:induction false} NoFailureNoSkip(g: Graph, rank: map<string, nat>, results: map<string, StepResult>,
                                           id: string)
    requires Ranked(g, rank) && results.Keys <= g.Keys && id in results
    requires forall x :: x in results ==> results[x].status in {Succeeded, Skipped}
    requires forall x {:trigger results[x]} :: x in results && results[x].status == Skipped ==> AnyFailed(results, g[x])
    ensures results[id].status == Succeeded
    decreases rank[id]
  {
    if results[id].status == Skipped {
      var k :| 0 <= k < |g[id]| && g[id][k] in results && results[g[id][k]].status != Succeeded;
      NoFailureNoSkip(g, rank, results, g[id][k]);
    }
  }

  lemma AllOrFailed(j: Job, results: map<string, StepResult>)
    requires Founded(j) && ResultsNamed(j, results) && SkipsJustified(j, results)
    requires forall x :: x in results ==> results[x].status != Failed
    ensures AllSucceed(results)
  {
    var g, rank := RanksOf(j);
    forall id | id in results ensures results[id].status == Succeeded {
      NoFailureNoSkip(g, rank, results, id);
    }
  }

  lemma RanksOf(j: Job) returns (g: Graph, rank: map<string, nat>)
    requires Founded(j)
    ensures Ranked(g, rank) && g.Keys == j.table.Keys && forall id :: id in j.table ==> g[id] == j.table[id].dependsOn
  {
    g := GraphOf(j.row.steps);
    WellFormedGraph(j.row.steps);
    RanksFall(g);
    rank := Ranks(g);
  }

  /** Run lists every result. */
  lemma EveryResultListed(steps: seq<Step>, results: map<string, StepResult>, ordered: seq<StepResult>)
    requires InOrder(steps, results, ordered) && results.Keys == Ids(steps) && Named(results)
    ensures Listed(ordered, results)
    ensures forall id :: id in results ==> results[id] in ordered
    ensures (forall i :: 0 <= i < |ordered| ==> ordered[i].status != Failed) ==> forall id :: id in results ==>
              results[id].status != Failed
  {
    forall id | id in results ensures exists i :: 0 <= i < |ordered| && ordered[i] == results[id] {
      var i :| 0 <= i < |steps| && steps[i].id == id;
      assert ordered[i] == results[id];
    }
  }

  /** Complete results, as Run returns them, say what became of the job. */
  lemma RunConcludes(j: Job, results: map<string, StepResult>, ordered: seq<StepResult>, err: Option<WorkflowError>)
    requires Founded(j) && ResultsNamed(j, results) && SkipsJustified(j, results)
    requires j.table.Keys <= results.Keys && Returns(j.row.steps, results, ordered, err)
    ensures err.None? ==> AllSucceed(results)
    ensures Listed(ordered, results)
    ensures forall id :: id in results ==> results[id] in ordered
  {
    EveryResultListed(j.row.steps, results, ordered);
    if err.None? {
      AllOrFailed(j, results);
    }
  }

  lemma ReturnIsFair(c: Settings, worker: string, s: Session, j: Job, ordered: seq<StepResult>,
                     err: Option<WorkflowError>)
    requires Founded(j) && JobKept(c, j) && SessionKept(c, worker, s, j)
    ensures Fair(c, worker, j, DoReturn(s, j, ordered, err))
  {
    if DoReturn(s, j, ordered, err).Moves? && !Interrupted(s) {
      RunConcludes(j, s.phase.results, ordered, err);
    }
    ReturnedInSession(c, worker, s, j, ordered, err);
  }

  lemma ReturnedInSession(c: Settings, worker: string, s: Session, j: Job, ordered: seq<StepResult>,
                          err: Option<WorkflowError>)
    requires JobKept(c, j) && SessionKept(c, worker, s, j)
    requires DoReturn(s, j, ordered, err).Moves? && !Interrupted(s) ==>
               && (err.None? ==> AllSucceed(s.phase.results)) && Listed(ordered, s.phase.results)
               && forall id :: id in s.phase.results ==> s.phase.results[id] in ordered
    ensures Fair(c, worker, j, DoReturn(s, j, ordered, err))
  {
    var o := DoReturn(s, j, ordered, err);
    if o.Moves? && !Interrupted(s) {
      var p := s.phase;
      var (status, error) := if err.Some? then (Failed, Message(err.value)) else (Succeeded, "");
      assert OutcomeOfRun(j.row.steps, p.results, status, error);
      assert o.session.value == s.(phase := Recording(p.results, ordered, status, error, true));
      RecordingBegins(c, worker, s, j, ordered, status, error);
    }
    StaysFair(c, worker, j, o);
  }

  lemma RecordingBegins(c: Settings, worker: string, s: Session, j: Job, ordered: seq<StepResult>, status: Status,
                        error: string)
    requires SessionKept(c, worker, s, j) && s.phase.Executing? && j.table.Keys <= s.phase.results.Keys
    requires status == Succeeded ==> AllSucceed(s.phase.results)
    requires OutcomeOfRun(j.row.steps, s.phase.results, status, error)
    requires Listed(ordered, s.phase.results)
    requires forall id :: id in s.phase.results ==> s.phase.results[id] in ordered
    ensures SessionKept(c, worker, s.(phase := Recording(s.phase.results, ordered, status, error, true)), j)
  {
  }

  /** Acts on the steps of a run. */
  predicate OnSteps(act: Act) {
    || act.Start? || act.Skip? || act.ClaimStep? || act.ClaimStepFails? || act.AgentReplies? || act.Wake?
    || act.Interrupt? || act.Land? || act.Return? || act.Record?
  }

  /** A step act comes to what its own function says, and that is fair. */
  lemma StepActIsFair(c: Settings, now: int, worker: string, s: Session, j: Job, act: Act) returns (o: Outcome)
    requires JobKept(c, j) && SessionKept(c, worker, s, j) && OnSteps(act) && !act.Return?
    ensures o == Perform(c, now, worker, s, j, act) && Fair(c, worker, j, o)
  {
    match act
    case Start(id) =>
      o := DoStart(s, j, id);
      StartIsFair(c, worker, s, j, id);
    case Skip(id) =>
      o := DoSkip(s, j, id);
      SkipIsFair(c, worker, s, j, id);
    case ClaimStep(id) =>
      o := DoClaimStep(c, worker, s, j, id);
      ClaimStepIsFair(c, worker, s, j, id);
    case ClaimStepFails(id, message) =>
      o := DoClaimStepFails(c, s, j, id, message);
      ClaimStepFailsIsFair(c, worker, s, j, id, message);
    case AgentReplies(id, reply) =>
      o := DoAgentReplies(c, s, j, id, reply);
      AgentRepliesIsFair(c, worker, s, j, id, reply);
    case Wake(id) =>
      o := DoWake(s, j, id);
      WakeIsFair(c, worker, s, j, id);
    case Interrupt(id, why) =>
      o := DoInterrupt(s, j, id, why);
      InterruptIsFair(c, worker, s, j, id, why);
    case Land(id, ok) =>
      o := DoLand(worker, s, j, id, ok);
      LandIsFair(c, worker, s, j, id, ok);
    case Record(ok) =>
      o := DoRecord(worker, s, j, ok);
      RecordIsFair(c, worker, s, j, ok);
  }

  /** Acts of the heartbeat, and a shutdown. */
  predicate OnLease(act: Act) {
    act.BeatStore? || act.BeatQueue? || act.Cancel?
  }

  lemma LeaseActIsFair(c: Settings, now: int, worker: string, s: Session, j: Job, act: Act) returns (o: Outcome)
    requires JobKept(c, j) && SessionKept(c, worker, s, j) && OnLease(act)
    ensures o == Perform(c, now, worker, s, j, act) && Fair(c, worker, j, o)
  {
    match act
    case BeatStore(ok) =>
      o := DoBeatStore(c, now, worker, s, j, ok);
      BeatStoreIsFair(c, now, worker, s, j, ok);
    case BeatQueue(held) =>
      o := DoBeatQueue(s, j, held);
      BeatQueueIsFair(c, worker, s, j, held);
    case Cancel =>
      o := DoCancel(s, j);
      CancelIsFair(c, worker, s, j);
  }

  lemma JobActIsFair(c: Settings, now: int, worker: string, s: Session, j: Job, act: Act) returns (o: Outcome)
    requires JobKept(c, j) && SessionKept(c, worker, s, j) && !OnSteps(act) && !OnLease(act)
    ensures o == Perform(c, now, worker, s, j, act) && Fair(c, worker, j, o)
  {
    match act
    case Claim(ok) =>
      o := DoClaim(c, now, worker, s, j, ok);
      ClaimIsFair(c, now, worker, s, j, ok);
    case Bury(ok) =>
      o := DoBury(c, worker, s, j, ok);
      BuryIsFair(c, worker, s, j, ok);
    case LogDeadLetter(ok) =>
      o := DoLogDeadLetter(s, j, ok);
      LogDeadLetterIsFair(c, worker, s, j, ok);
    case Load(ok) =>
      o := DoLoad(s, j, ok);
      LoadIsFair(c, worker, s, j, ok);
    case Unrunnable(message) =>
      o := DoUnrunnable(s, j, message);
      UnrunnableIsFair(c, worker, s, j, message);
    case FinishUp(ok) =>
      o := DoFinishUp(worker, s, j, ok);
      FinishUpIsFair(c, worker, s, j, ok);
    case LogCompleted(ok) =>
      o := DoLogCompleted(s, j, ok);
      LogCompletedIsFair(c, worker, s, j, ok);
    case Ack(_) =>
      o := DoAck(s, j);
      LeavingIsFair(c, worker, s, j);
    case Abandon =>
      o := DoAbandon(s, j);
      AbandonIsFair(c, worker, s, j);
    case Release(ok) =>
      o := DoRelease(worker, s, j, ok);
      ReleaseIsFair(c, worker, s, j, ok);
    case Requeue(_) =>
      o := DoRequeue(s, j);
      LeavingIsFair(c, worker, s, j);
  }

  /** Every act keeps the job and the session, within the guarantee. */
  lemma PerformIsFair(c: Settings, now: int, worker: string, s: Session, j: Job, act: Act)
    requires Founded(j) && JobKept(c, j) && SessionKept(c, worker, s, j)
    ensures Fair(c, worker, j, Perform(c, now, worker, s, j, act))
  {
    var o;
    if act.Return? {
      ReturnIsFair(c, worker, s, j, act.ordered, act.err);
    } else if OnSteps(act) {
      o := StepActIsFair(c, now, worker, s, j, act);
    } else if OnLease(act) {
      o := LeaseActIsFair(c, now, worker, s, j, act);
    } else {
      o := JobActIsFair(c, now, worker, s, j, act);
    }
  }

  // ---------- Reapers and submitters ----------

  /** The store reaper's update, of an overdue job. */
  function Reaped(j: Job): Job {
    j.(row := FreeRow(j.row))
  }

  lemma ReapIsFair(c: Settings, now: int, grace: int, j: Job)
    requires JobKept(c, j) && Overdue(j.row, now, grace)
    ensures JobKept(c, Reaped(j)) && Guarantee("", j, Reaped(j))
  {
  }

  /** Submit after a failed push: fails the job as nobody. */
  function GivenUp(j: Job, message: string): Job {
    j.(row := FinishRow(j.row, "", Failed, message))
  }

  lemma GiveUpIsFair(c: Settings, j: Job, message: string)
    requires JobKept(c, j) && j.row.status == Pending && j.row.attempts == 0
    ensures JobKept(c, GivenUp(j, message)) && Guarantee("", j, GivenUp(j, message))
  {
  }

  ghost function Submitted(steps: seq<Step>): Job
    requires UniqueIds(steps)
  {
    Job(NewRow(steps), Table(steps), [], map[], None, 0, 0)
  }

  lemma SubmittedIsKept(c: Settings, steps: seq<Step>)
    requires ValidDag(steps)
    ensures Founded(Submitted(steps)) && JobKept(c, Submitted(steps))
  {
  }
}
