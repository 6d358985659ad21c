/** A session that nobody interrupts: its acts one after the other, with no event of
    anybody else in between. The methods of the service are compared with this. */
module Solo {
  import opened Basics
  import opened Semantics
  import opened Queues
  import opened Stores
  import opened Sessions
  import opened Protocol

  /** A session, if it goes on, its job, and the queue. */
  datatype Scene = Scene(session: Option<Session>, job: Job, queue: QueueState)

  /** The setting does not change while a session acts alone. */
  datatype Desk = Desk(c: Settings, now: int, worker: string, deadline: int)

  ghost function OneAct(d: Desk, sc: Scene, act: Act): Option<Scene> {
    match sc.session
    case None => None
    case Some(s) =>
      if !QueueAgrees(sc.queue, d.worker, s.job, act) then None
      else match Perform(d.c, d.now, d.worker, s, sc.job, act)
        case Blocked => None
        case Moves(session, job) => Some(Scene(session, job, QueueAfter(sc.queue, d.worker, s.job, act, d.deadline)))
  }

  ghost function Alone(d: Desk, sc: Scene, acts: seq<Act>): Option<Scene>
    decreases |acts|
  {
    if acts == [] then Some(sc)
    else match OneAct(d, sc, acts[0])
      case None => None
      case Some(next) => Alone(d, next, acts[1..])
  }

  /** The cluster with what a session on this job has come to. */
  function Back(k: Cluster, worker: string, id: string, sc: Scene): Cluster {
    k.(jobs := k.jobs[id := sc.job], queue := sc.queue,
       sessions := if sc.session.Some? then k.sessions[worker := sc.session.value] else k.sessions - {worker})
  }

  /** One such act is an event of the cluster, and changes nothing else there. */
  lemma AloneIsAnEvent(k: Cluster, d: Desk, act: Act, next: Scene)
    requires d.worker in k.sessions && k.sessions[d.worker].job in k.jobs && d.now == k.now
    requires OneAct(d, Scene(Some(k.sessions[d.worker]), k.jobs[k.sessions[d.worker].job], k.queue), act) == Some(next)
    ensures Steps(d.c, k, Work(d.worker, act, d.deadline),
                  Back(k, d.worker, k.sessions[d.worker].job, next))
  {
    var s := k.sessions[d.worker];
    var o := Perform(d.c, k.now, d.worker, s, k.jobs[s.job], act);
    assert o == Moves(next.session, next.job);
  }

  lemma AloneOne(d: Desk, sc: Scene, act: Act, next: Scene)
    requires OneAct(d, sc, act) == Some(next)
    ensures Alone(d, sc, [act]) == Some(next)
  {
    assert Alone(d, next, []) == Some(next);
    assert [act][1..] == [];
  }

  /** First some acts, then some more. */
  lemma {:induction false} AloneConcat(d: Desk, sc: Scene, first: seq<Act>, mid: Scene, rest: seq<Act>)
    requires Alone(d, sc, first) == Some(mid)
    ensures Alone(d, sc, first + rest) == Alone(d, mid, rest)
    decreases |first|
  {
    if first == [] {
      assert first + rest == rest;
    } else {
      assert (first + rest)[1..] == first[1..] + rest;
      AloneConcat(d, OneAct(d, sc, first[0]).value, first[1..], mid, rest);
    }
  }

  lemma AloneThen(d: Desk, sc: Scene, first: seq<Act>, mid: Scene, act: Act, next: Scene)
    requires Alone(d, sc, first) == Some(mid) && OneAct(d, mid, act) == Some(next)
    ensures Alone(d, sc, first + [act]) == Some(next)
  {
    AloneConcat(d, sc, first, mid, [act]);
    AloneOne(d, mid, act, next);
  }

  // ---------- Taking a delivery ----------

  function Fresh(id: string): Session {
    Session(id, 0, Fetched, Going, Resting)
  }

  /** The acts of the opening of process, given how its calls end. */
  function DeliveryActs(d: Desk, row: JobRow, claimOk: bool, finishOk: bool, logOk: bool, ackOk: bool): seq<Act> {
    if !claimOk then [Claim(false)]
    else if !Claimable(row, d.worker, d.now) then [Claim(true)] + [Ack(ackOk)]
    else if InBudget(d.c, row.attempts + 1) then [Claim(true)]
    else [Claim(true)] + [Bury(finishOk)] + [LogDeadLetter(logOk)] + [Ack(ackOk)]
  }

  /** The scene has this row and queue, and the session goes on in this phase or is over. */
  ghost predicate Shows(sc: Option<Scene>, row: JobRow, queue: QueueState, next: Option<Phase>) {
    && sc.Some? && sc.value.job.row == row && sc.value.queue == queue
    && next == match sc.value.session
               case None => None
               case Some(s) => Some(s.phase)
  }

  lemma DeliveryAlone(d: Desk, id: string, j: Job, q: QueueState, claimOk: bool, finishOk: bool, logOk: bool,
                      ackOk: bool)
    ensures var sc := Alone(d, Scene(Some(Fresh(id)), j, q), DeliveryActs(d, j.row, claimOk, finishOk, logOk, ackOk));
            var acked := if ackOk then Acked(q, id) else q;
            var claimed := ClaimRow(j.row, d.worker, d.now + d.c.lease);
            if !claimOk then Shows(sc, j.row, q, None)
            else if !Claimable(j.row, d.worker, d.now) then Shows(sc, j.row, acked, None)
            else if InBudget(d.c, j.row.attempts + 1) then Shows(sc, claimed, q, Some(Loading))
            else
              && Shows(sc, if finishOk then FinishRow(claimed, d.worker, Failed, DeadLetterReason(d.c)) else claimed,
                       acked, None)
              && sc.value.job.deadLettered == j.deadLettered + if logOk then 1 else 0
  {
    var sc := Scene(Some(Fresh(id)), j, q);
    var first := OneAct(d, sc, Claim(claimOk)).value;
    AloneOne(d, sc, Claim(claimOk), first);
    if claimOk && !Claimable(j.row, d.worker, d.now) {
      AloneThen(d, sc, [Claim(true)], first, Ack(ackOk), OneAct(d, first, Ack(ackOk)).value);
    } else if claimOk && !InBudget(d.c, j.row.attempts + 1) {
      BurialAlone(d, sc, first, finishOk, logOk, ackOk);
    }
  }

  lemma BurialAlone(d: Desk, sc: Scene, first: Scene, finishOk: bool, logOk: bool, ackOk: bool)
    requires Alone(d, sc, [Claim(true)]) == Some(first)
    requires first.session.Some? && first.session.value.phase.DeadLettering?
    ensures var end := Alone(d, sc, [Claim(true)] + [Bury(finishOk)] + [LogDeadLetter(logOk)] + [Ack(ackOk)]);
            && Shows(end,
                     if finishOk then FinishRow(first.job.row, d.worker, Failed, DeadLetterReason(d.c))
                     else first.job.row,
                     if ackOk then Acked(first.queue, first.session.value.job) else first.queue, None)
            && end.value.job.deadLettered == first.job.deadLettered + if logOk then 1 else 0
  {
    var buried := OneAct(d, first, Bury(finishOk)).value;
    AloneThen(d, sc, [Claim(true)], first, Bury(finishOk), buried);
    var logged := OneAct(d, buried, LogDeadLetter(logOk)).value;
    AloneThen(d, sc, [Claim(true)] + [Bury(finishOk)], buried, LogDeadLetter(logOk), logged);
    AloneThen(d, sc, [Claim(true)] + [Bury(finishOk)] + [LogDeadLetter(logOk)], logged, Ack(ackOk),
              OneAct(d, logged, Ack(ackOk)).value);
  }

  // ---------- The heartbeat ----------

  /** One turn of holdLease: an error of the store's renewal skips the queue's. */
  function BeatActs(d: Desk, id: string, q: QueueState, storeOk: bool, queueOk: bool): seq<Act> {
    if !storeOk then [BeatStore(false)]
    else [BeatStore(true)] + [BeatQueue(if queueOk then Some(Holds(q, id, d.worker)) else None)]
  }

  /** A run that has not been stopped, between two beats: from the claim to the moment
      when its outcome has been recorded or it has been released. */
  predicate UnderWay(s: Session) {
    && s.stop == Going && s.beat == Resting
    && (s.phase.Loading? || s.phase.Executing? || s.phase.Recording? || s.phase.Abandoning?)
  }

  lemma BeatAlone(d: Desk, s: Session, j: Job, q: QueueState, storeOk: bool, queueOk: bool)
    requires UnderWay(s)
    ensures var sc := Alone(d, Scene(Some(s), j, q), BeatActs(d, s.job, q, storeOk, queueOk));
            var lost := storeOk && queueOk && !(OwnedBy(j.row, d.worker) && Holds(q, s.job, d.worker));
            && sc.Some? && sc.value.session == Some(s.(stop := if lost then LeaseLost else Going))
            && sc.value.job == j.(row := if storeOk then ExtendRow(j.row, d.worker, d.now + d.c.lease) else j.row)
            && sc.value.queue == if storeOk && queueOk then Extended(q, s.job, d.worker, d.deadline) else q
  {
    var sc := Scene(Some(s), j, q);
    var first := OneAct(d, sc, BeatStore(storeOk)).value;
    AloneOne(d, sc, BeatStore(storeOk), first);
    if storeOk {
      var answer := BeatQueue(if queueOk then Some(Holds(q, s.job, d.worker)) else None);
      AloneThen(d, sc, [BeatStore(true)], first, answer, OneAct(d, first, answer).value);
    }
  }

  // ---------- The fenced agent ----------

  function FencedActs(d: Desk, row: JobRow, step: string, claimError: Option<string>, inner: Reply): seq<Act> {
    match claimError
    case Some(e) => [ClaimStepFails(step, FailedClaim(step, e))]
    case None =>
      if StepClaimable(row, step, d.worker) then [ClaimStep(step)] + [AgentReplies(step, inner)] else [ClaimStep(step)]
  }

  /** The fenced call, and what runStep makes of its reply. */
  lemma FencedCallAlone(d: Desk, s: Session, j: Job, q: QueueState, step: string, claimError: Option<string>,
                        inner: Reply)
    requires s.phase.Executing? && step in s.phase.flights && s.phase.flights[step].Claiming?
    ensures var f := s.phase.flights[step];
            var sc := Alone(d, Scene(Some(s), j, q), FencedActs(d, j.row, step, claimError, inner));
            var called := claimError.None? && StepClaimable(j.row, step, d.worker);
            var reply := match claimError
                         case Some(e) => Fault(FailedClaim(step, e))
                         case None => if called then inner else Fault(LostStep(step));
            && sc.Some? && sc.value.queue == q
            && sc.value.job.row == (if called then ClaimStepRow(j.row, step, d.worker) else j.row)
            && sc.value.session == Some(s.(phase := s.phase.(
                  flights := s.phase.flights[step := AfterReply(d.c, step, f.prompt, f.tries, reply)],
                  fence := s.phase.fence || (claimError.None? && !called))))
  {
    var sc := Scene(Some(s), j, q);
    match claimError
    case Some(e) =>
      var act := ClaimStepFails(step, FailedClaim(step, e));
      AloneOne(d, sc, act, OneAct(d, sc, act).value);
    case None =>
      var first := OneAct(d, sc, ClaimStep(step)).value;
      AloneOne(d, sc, ClaimStep(step), first);
      if StepClaimable(j.row, step, d.worker) {
        CalledAlone(d, sc, s, first, step, inner);
      }
  }

  lemma CalledAlone(d: Desk, sc: Scene, s: Session, first: Scene, step: string, inner: Reply)
    requires s.phase.Executing? && step in s.phase.flights && s.phase.flights[step].Claiming?
    requires Alone(d, sc, [ClaimStep(step)]) == Some(first)
    requires var f := s.phase.flights[step];
             first.session == Some(s.(phase := s.phase.(
                 flights := s.phase.flights[step := Calling(f.prompt, f.tries, s.stop != Going)])))
    ensures var f := s.phase.flights[step];
            Alone(d, sc, [ClaimStep(step)] + [AgentReplies(step, inner)])
                == Some(first.(session := Some(s.(phase := s.phase.(
                flights := s.phase.flights[step := AfterReply(d.c, step, f.prompt, f.tries, inner)])))))
  {
    var next := OneAct(d, first, AgentReplies(step, inner)).value;
    AloneThen(d, sc, [ClaimStep(step)], first, AgentReplies(step, inner), next);
    assert next.session.value.phase.flights
        == s.phase.flights[step := AfterReply(d.c, step, s.phase.flights[step].prompt, s.phase.flights[step].tries,
                                              inner)];
  }

  // ---------- Finishing ----------

  /** A row after these results have been written one by one, where the writes went
      through. */
  function Written(row: JobRow, worker: string, results: seq<StepResult>, oks: seq<bool>): JobRow
    requires |oks| == |results|
    decreases |results|
  {
    if results == [] then row
    else
      var next := if oks[0] then UpdateStepRow(row, worker, results[0]) else row;
      Written(next, worker, results[1..], oks[1..])
  }

  function RecordActs(oks: seq<bool>): seq<Act> {
    seq(|oks|, i requires 0 <= i < |oks| => Record(oks[i]))
  }

  /** The end of process: writes, finish, and only if the finish is held, event and ack. */
  function ConcludeActs(d: Desk, row: JobRow, oks: seq<bool>, finishOk: bool, logOk: bool, ackOk: bool): seq<Act> {
    RecordActs(oks) + [FinishUp(finishOk)] +
    if finishOk && Finishable(row, d.worker) then [LogCompleted(logOk)] + [Ack(ackOk)] else []
  }

  lemma {:induction false} RecordsAlone(d: Desk, s: Session, j: Job, q: QueueState, oks: seq<bool>)
    requires s.phase.Recording? && |oks| == |s.phase.todo|
    ensures var sc := Alone(d, Scene(Some(s), j, q), RecordActs(oks));
            && sc.Some? && sc.value.queue == q
            && sc.value.job == j.(row := Written(j.row, d.worker, s.phase.todo, oks))
            && sc.value.session.Some? && sc.value.session.value.job == s.job
            && sc.value.session.value.phase.Recording? && sc.value.session.value.phase.todo == []
            && sc.value.session.value.phase.status == s.phase.status
            && sc.value.session.value.phase.error == s.phase.error
            && sc.value.session.value.phase.outcome == s.phase.outcome
            && sc.value.session.value.phase.faithful == (s.phase.faithful && forall i :: 0 <= i < |oks| ==> oks[i])
            && sc.value.session.value.token == s.token
    decreases |oks|
  {
    if oks != [] {
      var next := OneAct(d, Scene(Some(s), j, q), Record(oks[0])).value;
      assert RecordActs(oks)[1..] == RecordActs(oks[1..]);
      RecordsAlone(d, next.session.value, next.job, q, oks[1..]);
    }
  }

  lemma {:induction false} WrittenKeepsOwner(row: JobRow, worker: string, results: seq<StepResult>, oks: seq<bool>)
    requires |oks| == |results|
    ensures Written(row, worker, results, oks) == row.(results := Written(row, worker, results, oks).results)
    ensures worker != "" && row.owner != Some(worker) ==> Written(row, worker, results, oks) == row
    decreases |oks|
  {
    if oks != [] {
      WrittenKeepsOwner(if oks[0] then UpdateStepRow(row, worker, results[0]) else row, worker, results[1..], oks[1..]);
    }
  }

  /** One more completed event was logged, or none. */
  ghost predicate LoggedMore(after: Job, before: Job, logged: bool) {
    after.completed == before.completed + if logged then 1 else 0
  }

  lemma ConcludeAlone(d: Desk, s: Session, j: Job, q: QueueState, oks: seq<bool>, finishOk: bool, logOk: bool,
                      ackOk: bool)
    requires s.phase.Recording? && |oks| == |s.phase.todo| && d.worker != ""
    ensures var sc := Alone(d, Scene(Some(s), j, q), ConcludeActs(d, j.row, oks, finishOk, logOk, ackOk));
            var written := Written(j.row, d.worker, s.phase.todo, oks);
            if finishOk && Finishable(j.row, d.worker) then
              && Shows(sc, FinishRow(written, d.worker, s.phase.status, s.phase.error),
                       if ackOk then Acked(q, s.job) else q, None)
              && LoggedMore(sc.value.job, j, logOk)
              && sc.value.job.finish == Some(Finish(d.worker, s.token, s.phase.outcome,
                                                    s.phase.faithful && forall i :: 0 <= i < |oks| ==> oks[i]))
            else Shows(sc, written, q, None) && LoggedMore(sc.value.job, j, false) && sc.value.job.finish == j.finish
  {
    var sc := Scene(Some(s), j, q);
    RecordsAlone(d, s, j, q, oks);
    WrittenKeepsOwner(j.row, d.worker, s.phase.todo, oks);
    var recorded := Alone(d, sc, RecordActs(oks)).value;
    EndAlone(d, sc, recorded, RecordActs(oks), finishOk, logOk, ackOk);
    assert RecordActs(oks) + [FinishUp(finishOk)] + [] == RecordActs(oks) + [FinishUp(finishOk)];
  }

  lemma EndAlone(d: Desk, sc: Scene, recorded: Scene, acts: seq<Act>, finishOk: bool, logOk: bool, ackOk: bool)
    requires Alone(d, sc, acts) == Some(recorded)
    requires recorded.session.Some? && recorded.session.value.phase.Recording?
             && recorded.session.value.phase.todo == []
    ensures var (s, row) := (recorded.session.value, recorded.job.row);
            if finishOk && Finishable(row, d.worker) then
              var end := Alone(d, sc, acts + [FinishUp(true)] + ([LogCompleted(logOk)] + [Ack(ackOk)]));
              && Shows(end, FinishRow(row, d.worker, s.phase.status, s.phase.error),
                       if ackOk then Acked(recorded.queue, s.job) else recorded.queue, None)
              && LoggedMore(end.value.job, recorded.job, logOk)
              && end.value.job.finish == Some(Finish(d.worker, s.token, s.phase.outcome, s.phase.faithful))
            else
              var end := Alone(d, sc, acts + [FinishUp(finishOk)]);
              && Shows(end, row, recorded.queue, None) && LoggedMore(end.value.job, recorded.job, false)
              && end.value.job.finish == recorded.job.finish
  {
    var finished := OneAct(d, recorded, FinishUp(finishOk)).value;
    AloneThen(d, sc, acts, recorded, FinishUp(finishOk), finished);
    if finishOk && Finishable(recorded.job.row, d.worker) {
      CloseAlone(d, sc, finished, acts + [FinishUp(true)], logOk, ackOk);
    }
  }

  lemma CloseAlone(d: Desk, sc: Scene, finished: Scene, acts: seq<Act>, logOk: bool, ackOk: bool)
    requires Alone(d, sc, acts) == Some(finished)
    requires finished.session.Some? && finished.session.value.phase.Completing?
    ensures var end := Alone(d, sc, acts + ([LogCompleted(logOk)] + [Ack(ackOk)]));
            && Shows(end, finished.job.row,
                     if ackOk then Acked(finished.queue, finished.session.value.job) else finished.queue, None)
            && LoggedMore(end.value.job, finished.job, logOk) && end.value.job.finish == finished.job.finish
  {
    var logged := OneAct(d, finished, LogCompleted(logOk)).value;
    AloneThen(d, sc, acts, finished, LogCompleted(logOk), logged);
    AloneThen(d, sc, acts + [LogCompleted(logOk)], logged, Ack(ackOk), OneAct(d, logged, Ack(ackOk)).value);
    Regroup(acts, LogCompleted(logOk), Ack(ackOk));
  }

  lemma Regroup(acts: seq<Act>, a: Act, b: Act)
    ensures acts + ([a] + [b]) == acts + [a] + [b]
  {
  }

  // ---------- Abandoning ----------

  function AbandonActs(lost: bool, releaseOk: bool, requeueOk: bool): seq<Act> {
    if lost then [Act.Abandon]
    else if !releaseOk then [Act.Abandon] + [Release(false)]
    else [Act.Abandon] + [Release(true)] + [Requeue(requeueOk)]
  }

  lemma AbandonAlone(d: Desk, s: Session, j: Job, q: QueueState, releaseOk: bool, requeueOk: bool)
    requires s.phase.Abandoning?
    ensures var sc := Alone(d, Scene(Some(s), j, q), AbandonActs(s.phase.lost, releaseOk, requeueOk));
            if s.phase.lost || !releaseOk then Shows(sc, j.row, q, None)
            else Shows(sc, ReleaseRow(j.row, d.worker), if requeueOk then Requeued(q, s.job) else q, None)
  {
    var sc := Scene(Some(s), j, q);
    var first := OneAct(d, sc, Act.Abandon).value;
    AloneOne(d, sc, Act.Abandon, first);
    if !s.phase.lost {
      var released := OneAct(d, first, Release(releaseOk)).value;
      AloneThen(d, sc, [Act.Abandon], first, Release(releaseOk), released);
      if releaseOk {
        AloneThen(d, sc, [Act.Abandon] + [Release(true)], released, Requeue(requeueOk),
                  OneAct(d, released, Requeue(requeueOk)).value);
      }
    }
  }

  /** An abandoned job that was not lost is released and requeued. */
  lemma AbandonedAlone(d: Desk, sc: Scene, s: Session, end: Scene)
    requires sc.session == Some(s) && s.phase == Abandoning(false)
    requires end == Scene(None, sc.job.(row := ReleaseRow(sc.job.row, d.worker)), Requeued(sc.queue, s.job))
    ensures Alone(d, sc, [Act.Abandon] + [Release(true)] + [Requeue(true)]) == Some(end)
  {
    var left := sc.(session := Some(s.(phase := Releasing)));
    AloneOne(d, sc, Act.Abandon, left);
    var released := Scene(Some(s.(phase := Requeueing)), end.job, sc.queue);
    AloneThen(d, sc, [Act.Abandon], left, Release(true), released);
    AloneThen(d, sc, [Act.Abandon] + [Release(true)], released, Requeue(true), end);
  }
}
