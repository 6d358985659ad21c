/** A worker's session with one delivery of a job: process, runJob, holdLease, the fenced
    agent, deadLetter and abandon, cut into the store and queue calls they make. Anything
    another actor does can happen between two of these steps. */
module Sessions {
  import opened Basics
  import opened Workflows
  import opened Prompts
  import opened Semantics
  import opened Executions
  import opened Stores

  /** Lease in whole milliseconds; a delivery limit of zero or less means none. */
  datatype Settings = Settings(lease: int, maxAttempts: int, maxRetries: nat)

  predicate InBudget(c: Settings, attempts: nat) {
    c.maxAttempts <= 0 || attempts <= c.maxAttempts
  }

  function Decimal(n: nat): string {
    if n < 10 then [('0' as int + n) as char] else Decimal(n / 10) + Decimal(n % 10)
  }

  /** The number that a string of digits stands for. */
  function ReadDecimal(digits: string): int {
    if digits == "" then 0
    else 10 * ReadDecimal(digits[..|digits| - 1]) + (digits[|digits| - 1] as int - '0' as int)
  }

  /** Decimal prints the number: its digits stand for it, and there is no leading zero. */
  lemma {:induction false} DecimalReads(n: nat)
    ensures ReadDecimal(Decimal(n)) == n && Decimal(n) != ""
    ensures forall c :: c in Decimal(n) ==> c in "0123456789"
    ensures n > 0 ==> Decimal(n)[0] != '0'
  {
    var last := [('0' as int + n % 10) as char];
    assert "0123456789"[n % 10] == last[0];
    if n >= 10 {
      DecimalReads(n / 10);
      assert Decimal(n) == Decimal(n / 10) + last;
      assert Decimal(n)[..|Decimal(n)| - 1] == Decimal(n / 10);
    } else {
      assert Decimal(n) == last && last[..0] == "";
    }
  }

  function DeadLetterReason(c: Settings): string {
    "exceeded " + (if c.maxAttempts < 0 then "" else Decimal(c.maxAttempts)) + " delivery attempt(s)"
  }

  function FailedClaim(step: string, error: string): string {
    "claim step \"" + step + "\": " + error
  }

  function LostStep(step: string): string {
    "job lease lost: step \"" + step + "\" is no longer ours"
  }

  // ---------- What is known about a job ----------

  /** A held FinishJob: who finished the job, on which delivery, with which results, and
      whether all of its step writes went through. */
  datatype Finish = Finish(worker: string, token: nat, results: map<string, StepResult>, faithful: bool)

  /** The job's row, its steps by id, and its history: who made each delivery, how often
      each delivery called each step's agent, and the terminal events that were logged. */
  datatype Job = Job(row: JobRow, table: map<string, Step>, claims: seq<string>, calls: map<(nat, string), nat>,
                     finish: Option<Finish>, completed: nat, deadLettered: nat)

  // ---------- The state of a session ----------

  /** A step of the current wave: about to claim its row, in an agent call (`doomed` if
      the call started under a cancelled context), sleeping before a retry, or done but
      not yet recorded. */
  datatype Flight =
    | Claiming(prompt: string, tries: nat)
    | Calling(prompt: string, tries: nat, doomed: bool)
    | BackingOff(prompt: string, tries: nat)
    | Landed(result: StepResult)

  /** Why the run context is cancelled, if it is; the first cause stays. */
  datatype Stop = Going | LeaseLost | ShutDown

  /** The heartbeat asks the store first, then the queue. */
  datatype Beat = Resting | StoreAnswered(held: bool)

  datatype Phase =
    | Fetched
    | Refused
    | DeadLettering
    | Burying
    | Loading
    | Executing(results: map<string, StepResult>, flights: map<string, Flight>, fence: bool)
    | Recording(outcome: map<string, StepResult>, todo: seq<StepResult>, status: Status, error: string, faithful: bool)
    | Completing
    | Acking
    | Abandoning(lost: bool)
    | Releasing
    | Requeueing

  datatype Session = Session(job: string, token: nat, phase: Phase, stop: Stop, beat: Beat)

  /** What a session can do next, with the outcome of the call it makes. `ok` is false
      when the call returns an error; a failed call is taken to have had no effect. */
  datatype Act =
    | Claim(ok: bool)
    | Bury(ok: bool)
    | LogDeadLetter(ok: bool)
    | Load(ok: bool)
    | Unrunnable(message: string)
    | Start(step: string)
    | Skip(step: string)
    | ClaimStep(step: string)
    | ClaimStepFails(step: string, message: string)
    | AgentReplies(step: string, reply: Reply)
    | Wake(step: string)
    | Interrupt(step: string, why: string)
    | Land(step: string, ok: bool)
    | Return(ordered: seq<StepResult>, err: Option<WorkflowError>)
    | Record(ok: bool)
    | FinishUp(ok: bool)
    | LogCompleted(ok: bool)
    | Ack(ok: bool)
    | Abandon
    | Release(ok: bool)
    | Requeue(ok: bool)
    | BeatStore(ok: bool)
    | BeatQueue(held: Option<bool>)
    | Cancel

  /** The session, if it goes on, and the job after an act. */
  datatype Outcome = Blocked | Moves(session: Option<Session>, job: Job)

  function Goes(s: Session, phase: Phase, j: Job): Outcome {
    Moves(Some(s.(phase := phase)), j)
  }

  // ---------- Claiming a delivery ----------

  /** process: a refused claim is a duplicate delivery; a claim beyond the delivery limit
      goes to the dead letters. */
  function DoClaim(c: Settings, now: int, worker: string, s: Session, j: Job, ok: bool): Outcome {
    if !s.phase.Fetched? then Blocked
    else if !ok then Moves(None, j)
    else if !Claimable(j.row, worker, now) then Goes(s, Refused, j)
    else
      var token := j.row.attempts + 1;
      var claimed := j.(row := ClaimRow(j.row, worker, now + c.lease), claims := j.claims + [worker]);
      Goes(s.(token := token), if InBudget(c, token) then Loading else DeadLettering, claimed)
  }

  function DoBury(c: Settings, worker: string, s: Session, j: Job, ok: bool): Outcome {
    if !s.phase.DeadLettering? then Blocked
    else Goes(s, Burying, if ok then j.(row := FinishRow(j.row, worker, Failed, DeadLetterReason(c))) else j)
  }

  function DoLogDeadLetter(s: Session, j: Job, ok: bool): Outcome {
    if !s.phase.Burying? then Blocked
    else Goes(s, Acking, if ok then j.(deadLettered := j.deadLettered + 1) else j)
  }

  // ---------- Running ----------

  /** resumable: the results of the steps that already succeeded. */
  function Resumable(row: JobRow): map<string, StepResult> {
    map id | id in row.results && row.results[id].status == Succeeded :: row.results[id]
  }

  function DoLoad(s: Session, j: Job, ok: bool): Outcome {
    if !s.phase.Loading? then Blocked
    else if ok then Goes(s, Executing(Resumable(j.row), map[], false), j)
    else Goes(s, Abandoning(false), j)
  }

  /** The worker cannot run the definition, for example because it does not know an
      agent: the job fails without results. */
  function DoUnrunnable(s: Session, j: Job, message: string): Outcome {
    if !s.phase.Loading? then Blocked else Goes(s, Recording(map[], [], Failed, message, true), j)
  }

  predicate Remaining(j: Job, p: Phase, id: string)
    requires p.Executing?
  {
    id in j.table && id !in p.results && id !in p.flights
  }

  /** A ready step is rendered and started; rendering can fail it at once. */
  function DoStart(s: Session, j: Job, id: string): Outcome {
    var p := s.phase;
    if !p.Executing? || !Remaining(j, p, id) || !AllSucceeded(p.results, j.table[id].dependsOn) then Blocked
    else
      var flight := match Render(j.table[id].prompt, p.results)
        case Ok(prompt) => Claiming(prompt, 0)
        case Err(error) => Landed(StepResult(id, Failed, 0, "", error));
      Goes(s, p.(flights := p.flights[id := flight]), j)
  }

  function DoSkip(s: Session, j: Job, id: string): Outcome {
    var p := s.phase;
    if !p.Executing? || !Remaining(j, p, id) || !AnyFailed(p.results, j.table[id].dependsOn) then Blocked
    else Goes(s, p.(results := p.results[id := SkippedResult(id)]), j)
  }

  /** runStep after a failed call. */
  function AfterFault(c: Settings, id: string, prompt: string, tries: nat, error: string): Flight {
    if tries >= c.maxRetries then Landed(StepResult(id, Failed, tries, "", error)) else BackingOff(prompt, tries + 1)
  }

  /** runStep after a call has returned. */
  function AfterReply(c: Settings, id: string, prompt: string, tries: nat, reply: Reply): Flight {
    match reply
    case Answer(output) => Landed(StepResult(id, Succeeded, tries, output, ""))
    case Fault(error) => AfterFault(c, id, prompt, tries, error)
  }

  function CountCall(calls: map<(nat, string), nat>, key: (nat, string)): map<(nat, string), nat> {
    calls[key := if key in calls then calls[key] + 1 else 1]
  }

  /** The fenced agent: claims the step's row, and only then calls the real agent. A
      refusal trips the fence and fails the call. */
  function DoClaimStep(c: Settings, worker: string, s: Session, j: Job, id: string): Outcome {
    var p := s.phase;
    if !p.Executing? || id !in p.flights || !p.flights[id].Claiming? then Blocked
    else
      var f := p.flights[id];
      if StepClaimable(j.row, id, worker) then
        Goes(s, p.(flights := p.flights[id := Calling(f.prompt, f.tries, s.stop != Going)]),
             j.(row := ClaimStepRow(j.row, id, worker), calls := CountCall(j.calls, (s.token, id))))
      else
        Goes(s, p.(flights := p.flights[id := AfterFault(c, id, f.prompt, f.tries, LostStep(id))],
                   fence := true), j)
  }

  function DoClaimStepFails(c: Settings, s: Session, j: Job, id: string, message: string): Outcome {
    var p := s.phase;
    if !p.Executing? || id !in p.flights || !p.flights[id].Claiming? then Blocked
    else
      var f := p.flights[id];
      Goes(s, p.(flights := p.flights[id := AfterFault(c, id, f.prompt, f.tries, message)]), j)
  }

  function DoAgentReplies(c: Settings, s: Session, j: Job, id: string, reply: Reply): Outcome {
    var p := s.phase;
    if !p.Executing? || id !in p.flights || !p.flights[id].Calling? then Blocked
    else
      var f := p.flights[id];
      Goes(s, p.(flights := p.flights[id := AfterReply(c, id, f.prompt, f.tries, reply)]), j)
  }

  function DoWake(s: Session, j: Job, id: string): Outcome {
    var p := s.phase;
    if !p.Executing? || id !in p.flights || !p.flights[id].BackingOff? then Blocked
    else Goes(s, p.(flights := p.flights[id := Claiming(p.flights[id].prompt, p.flights[id].tries)]), j)
  }

  function DoInterrupt(s: Session, j: Job, id: string, why: string): Outcome {
    var p := s.phase;
    if !p.Executing? || id !in p.flights || !p.flights[id].BackingOff? || s.stop == Going then Blocked
    else Goes(s, p.(flights := p.flights[id := Landed(StepResult(id, Failed, p.flights[id].tries, "", why))]), j)
  }

  /** The drain loop: records a result in memory and, through OnStepState, in the store. */
  function DoLand(worker: string, s: Session, j: Job, id: string, ok: bool): Outcome {
    var p := s.phase;
    if !p.Executing? || id !in p.flights || !p.flights[id].Landed? then Blocked
    else
      var r := p.flights[id].result;
      Goes(s, p.(results := p.results[id := r], flights := p.flights - {id}),
           if ok then j.(row := UpdateStepRow(j.row, worker, r)) else j)
  }

  predicate Interrupted(s: Session) {
    s.stop != Going || (s.phase.Executing? && s.phase.fence)
  }

  /** Run returns: with the run cancelled or the fence tripped the job is abandoned,
      otherwise its outcome is recorded. A shutdown counts before a tripped fence. */
  ghost function DoReturn(s: Session, j: Job, ordered: seq<StepResult>, err: Option<WorkflowError>): Outcome {
    var p := s.phase;
    if !p.Executing? || p.flights != map[] || !(j.table.Keys <= p.results.Keys)
       || !Returns(j.row.steps, p.results, ordered, err) then Blocked
    else if Interrupted(s) then Goes(s, Abandoning(s.stop != ShutDown), j)
    else match err
      case None => Goes(s, Recording(p.results, ordered, Succeeded, "", true), j)
      case Some(e) => Goes(s, Recording(p.results, ordered, Failed, Message(e), true), j)
  }

  // ---------- Finishing ----------

  function DoRecord(worker: string, s: Session, j: Job, ok: bool): Outcome {
    var p := s.phase;
    if !p.Recording? || p.todo == [] then Blocked
    else
      var next := p.(todo := p.todo[1..], faithful := p.faithful && ok);
      Goes(s, next, if ok then j.(row := UpdateStepRow(j.row, worker, p.todo[0])) else j)
  }

  /** A finish that is not held, or fails, ends the session without an ack. */
  function DoFinishUp(worker: string, s: Session, j: Job, ok: bool): Outcome {
    var p := s.phase;
    if !p.Recording? || p.todo != [] then Blocked
    else if !ok || !Finishable(j.row, worker) then Moves(None, j)
    else Goes(s, Completing, j.(row := FinishRow(j.row, worker, p.status, p.error),
                                finish := Some(Finish(worker, s.token, p.outcome, p.faithful))))
  }

  function DoLogCompleted(s: Session, j: Job, ok: bool): Outcome {
    if !s.phase.Completing? then Blocked
    else Goes(s, Acking, if ok then j.(completed := j.completed + 1) else j)
  }

  function DoAck(s: Session, j: Job): Outcome {
    if !s.phase.Refused? && !s.phase.Acking? then Blocked else Moves(None, j)
  }

  // ---------- Abandoning ----------

  /** With the lease lost the job is left alone, otherwise it is handed back. */
  function DoAbandon(s: Session, j: Job): Outcome {
    if !s.phase.Abandoning? then Blocked
    else if s.phase.lost then Moves(None, j)
    else Goes(s, Releasing, j)
  }

  function DoRelease(worker: string, s: Session, j: Job, ok: bool): Outcome {
    if !s.phase.Releasing? then Blocked
    else if ok then Goes(s, Requeueing, j.(row := ReleaseRow(j.row, worker)))
    else Moves(None, j)
  }

  function DoRequeue(s: Session, j: Job): Outcome {
    if !s.phase.Requeueing? then Blocked else Moves(None, j)
  }

  // ---------- The heartbeat ----------

  /** A beat may still be in the middle of its calls when the run returns. */
  predicate Beating(s: Session) {
    (s.phase.Loading? || s.phase.Executing? || s.phase.Recording? || s.phase.Abandoning?) && s.stop == Going
  }

  function DoBeatStore(c: Settings, now: int, worker: string, s: Session, j: Job, ok: bool): Outcome {
    if !Beating(s) || !s.beat.Resting? then Blocked
    else if !ok then Moves(Some(s), j)
    else Moves(Some(s.(beat := StoreAnswered(OwnedBy(j.row, worker)))),
               j.(row := ExtendRow(j.row, worker, now + c.lease)))
  }

  /** The queue's answer, or an error; unless both hold, the run is cancelled. */
  function DoBeatQueue(s: Session, j: Job, held: Option<bool>): Outcome {
    if !Beating(s) || !s.beat.StoreAnswered? then Blocked
    else if held == None || (held.value && s.beat.held) then Moves(Some(s.(beat := Resting)), j)
    else Moves(Some(s.(beat := Resting, stop := LeaseLost)), j)
  }

  function DoCancel(s: Session, j: Job): Outcome {
    if !Beating(s) then Blocked else Moves(Some(s.(stop := ShutDown)), j)
  }

  ghost function Perform(c: Settings, now: int, worker: string, s: Session, j: Job, act: Act): Outcome {
    match act
    case Claim(ok) => DoClaim(c, now, worker, s, j, ok)
    case Bury(ok) => DoBury(c, worker, s, j, ok)
    case LogDeadLetter(ok) => DoLogDeadLetter(s, j, ok)
    case Load(ok) => DoLoad(s, j, ok)
    case Unrunnable(message) => DoUnrunnable(s, j, message)
    case Start(id) => DoStart(s, j, id)
    case Skip(id) => DoSkip(s, j, id)
    case ClaimStep(id) => DoClaimStep(c, worker, s, j, id)
    case ClaimStepFails(id, message) => DoClaimStepFails(c, s, j, id, message)
    case AgentReplies(id, reply) => DoAgentReplies(c, s, j, id, reply)
    case Wake(id) => DoWake(s, j, id)
    case Interrupt(id, why) => DoInterrupt(s, j, id, why)
    case Land(id, ok) => DoLand(worker, s, j, id, ok)
    case Return(ordered, err) => DoReturn(s, j, ordered, err)
    case Record(ok) => DoRecord(worker, s, j, ok)
    case FinishUp(ok) => DoFinishUp(worker, s, j, ok)
    case LogCompleted(ok) => DoLogCompleted(s, j, ok)
    case Ack(_) => DoAck(s, j)
    case Abandon => DoAbandon(s, j)
    case Release(ok) => DoRelease(worker, s, j, ok)
    case Requeue(_) => DoRequeue(s, j)
    case BeatStore(ok) => DoBeatStore(c, now, worker, s, j, ok)
    case BeatQueue(held) => DoBeatQueue(s, j, held)
    case Cancel => DoCancel(s, j)
  }
}
