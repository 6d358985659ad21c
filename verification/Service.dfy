/** The job service as it reads in the source: each method is a straight sequence of store
    and queue calls, and its parameters say how the calls end. What each comes to when
    nobody intervenes is stated here, and that the steps of a session, or the events of
    the cluster, come to the same. */
module Services {
  import opened Basics
  import opened Workflows
  import opened Semantics
  import opened Queues
  import opened Stores
  import opened Sessions
  import opened Fencing
  import opened Protocol
  import opened Scenarios
  import opened Solo

  datatype SubmitError =
    | UnknownAgent
    | Invalid(reason: Rejection)
    | NotStored
    | NotRecorded
    | NotQueued

  predicate Resolvable(steps: seq<Step>, known: set<string>) {
    forall i :: 0 <= i < |steps| ==> steps[i].agent.Some? && steps[i].agent.value in known
  }

  /** What validation asks of a submission. */
  ghost predicate Runnable(steps: seq<Step>, options: Options) {
    options.maxRetries >= 0 && options.retryDelay >= 0 && ValidDag(steps)
  }

  // ---------- Resuming ----------

  /** The workflow option built from the succeeded rows starts a run from exactly those
      rows: what a session resumes from is what the engine is seeded with. */
  lemma {:induction false} ResumeSeeds(ids: set<string>, done: seq<StepResult>, row: JobRow)
    requires row.results.Keys == ids && forall id :: id in row.results ==> row.results[id].id == id
    requires forall r :: r in done <==> r.id in row.results && r == row.results[r.id] && r.status == Succeeded
    ensures Seeds(ids, done) == Resumable(row)
  {
    SeedsSucceeded(ids, done);
    forall id | id in Resumable(row) ensures id in Seeds(ids, done) {
      assert row.results[id] in done;
      var k :| 0 <= k < |done| && done[k] == row.results[id];
      EntrySeeds(ids, done, k);
    }
  }

  lemma {:induction false} EntrySeeds(ids: set<string>, done: seq<StepResult>, k: nat)
    requires k < |done| && done[k].status == Succeeded && done[k].id in ids
    ensures done[k].id in Seeds(ids, done)
  {
    if k < |done| - 1 {
      EntrySeeds(ids, done[..|done| - 1], k);
    }
  }

  /** resumable. */
  method SucceededResults(results: seq<StepResult>) returns (done: seq<StepResult>)
    ensures forall r :: r in done <==> r in results && r.status == Succeeded
  {
    done := [];
    for i := 0 to |results|
      invariant forall r :: r in done <==> r in results[..i] && r.status == Succeeded
    {
      assert results[..i + 1] == results[..i] + [results[i]];
      if results[i].status == Succeeded {
        done := done + [results[i]];
      }
    }
    assert results[..|results|] == results;
  }

  // ---------- Writing results ----------

  lemma {:induction false} WrittenSnoc(row: JobRow, worker: string, results: seq<StepResult>, oks: seq<bool>, i: nat)
    requires |oks| == |results| && i < |results|
    ensures var before := Written(row, worker, results[..i], oks[..i]);
            Written(row, worker, results[..i + 1], oks[..i + 1])
            == if oks[i] then UpdateStepRow(before, worker, results[i]) else before
    decreases i
  {
    if i == 0 {
      assert results[..1] == [results[0]] && oks[..1] == [oks[0]];
    } else {
      var next := if oks[0] then UpdateStepRow(row, worker, results[0]) else row;
      WrittenSnoc(next, worker, results[1..], oks[1..], i - 1);
      assert results[..i][1..] == results[1..][..i - 1] && oks[..i][1..] == oks[1..][..i - 1];
      assert results[..i + 1][1..] == results[1..][..i] && oks[..i + 1][1..] == oks[1..][..i];
    }
  }

  /** With ownership every result whose write goes through ends up in its row. */
  lemma {:induction false} WrittenMeans(row: JobRow, worker: string, results: seq<StepResult>, oks: seq<bool>)
    requires |oks| == |results| && row.owner == Some(worker)
    requires forall i, j :: 0 <= i < j < |results| ==> results[i].id != results[j].id
    ensures Written(row, worker, results, oks).results.Keys == row.results.Keys
    ensures forall i :: 0 <= i < |results| && results[i].id in row.results ==>
              Written(row, worker, results, oks).results[results[i].id]
              == if oks[i] then results[i] else row.results[results[i].id]
    ensures forall id :: id in row.results && (forall i :: 0 <= i < |results| ==> results[i].id != id) ==>
              Written(row, worker, results, oks).results[id] == row.results[id]
    decreases |results|
  {
    if results != [] {
      var next := if oks[0] then UpdateStepRow(row, worker, results[0]) else row;
      WrittenMeans(next, worker, results[1..], oks[1..]);
      assert forall i :: 0 < i < |results| ==> results[1..][i - 1] == results[i];
    }
  }

  // ---------- Pushing what was freed ----------

  /** Pushes after one another. */
  function PushedAll(q: QueueState, ids: seq<string>): QueueState {
    if ids == [] then q else Pushed(PushedAll(q, ids[..|ids| - 1]), ids[|ids| - 1])
  }

  /** The ids whose push goes through. */
  function Kept(ids: seq<string>, failing: set<string>): seq<string> {
    if ids == [] then []
    else
      var front := Kept(ids[..|ids| - 1], failing);
      if ids[|ids| - 1] in failing then front else front + [ids[|ids| - 1]]
  }

  /** The last push ends up in front; leases and owners are not touched. */
  lemma {:induction false} PushedAllMeans(q: QueueState, ids: seq<string>)
    ensures PushedAll(q, ids) == q.(ready := Reverse(ids) + q.ready)
  {
    if ids != [] {
      PushedAllMeans(q, ids[..|ids| - 1]);
    }
  }

  /** The ids that do not fail, and if none fails all of them, in order. */
  lemma {:induction false} KeptMeans(ids: seq<string>, failing: set<string>)
    ensures forall id :: id in Kept(ids, failing) <==> id in ids && id !in failing
    ensures (forall id :: id in ids ==> id !in failing) ==> Kept(ids, failing) == ids
  {
    if ids != [] {
      var front := ids[..|ids| - 1];
      assert ids == front + [ids[|ids| - 1]];
      KeptMeans(front, failing);
    }
  }

  lemma NothingReturned(q: QueueState)
    ensures Returned(q, []) == q && PushedAll(q, []) == q
  {
  }

  /** The queue after both sweeps. */
  lemma ReapedQueue(q: QueueState, recovered: seq<string>, orphans: seq<string>, failing: set<string>)
    ensures var q2 := PushedAll(Returned(q, recovered), Kept(orphans, failing));
            && q2.ready == Reverse(Kept(orphans, failing)) + Reverse(recovered) + q.ready
            && q2.leases == q.leases - Elems(recovered)
            && forall id :: id in orphans ==> id in q2.ready || id in failing
  {
    ReturnedMeans(q, recovered);
    PushedAllMeans(Returned(q, recovered), Kept(orphans, failing));
    KeptMeans(orphans, failing);
    Associative(Reverse(Kept(orphans, failing)), Reverse(recovered), q.ready);
    forall id | id in orphans && id !in failing ensures id in Reverse(Kept(orphans, failing)) {
      ReverseKeeps(Kept(orphans, failing), id);
    }
  }

  // ---------- The service ----------

  /** The lease fence of one run. */
  class LeaseFence {
    var lost: bool

    constructor ()
      ensures !lost
    {
      lost := false;
    }
  }

  class Service {
    const store: Store
    const queue: Queue
    const settings: Settings
    const known: set<string>

    constructor (store: Store, queue: Queue, settings: Settings, known: set<string>)
      ensures this.store == store && this.queue == queue && this.settings == settings && this.known == known
    {
      this.store, this.queue, this.settings, this.known := store, queue, settings, known;
    }

    ghost function DeskOf(worker: string, deadline: int): Desk
      reads store
    {
      Desk(settings, store.now, worker, deadline)
    }

    /** Resolves every agent, then validates the definition. */
    method Check(steps: seq<Step>, options: Options) returns (problem: Option<SubmitError>)
      ensures problem.None? <==> Resolvable(steps, known) && Runnable(steps, options)
      ensures problem == Some(UnknownAgent) <==> !Resolvable(steps, known)
      ensures problem == Some(UnknownAgent) <==>
              exists i :: 0 <= i < |steps| && (steps[i].agent.None? || steps[i].agent.value !in known)
      ensures problem.Some? ==> problem.value.UnknownAgent? || problem.value.Invalid?
      ensures problem.Some? && problem.value.Invalid? ==> Explains(steps, options, problem.value.reason)
    {
      for i := 0 to |steps|
        invariant Resolvable(steps[..i], known)
      {
        if steps[i].agent.None? || steps[i].agent.value !in known {
          return Some(UnknownAgent);
        }
      }
      var checked := NewWorkflow(steps, options);
      problem := if checked.Err? then Some(Invalid(checked.error)) else None;
    }

    /** Validates, records and enqueues. `eventOk`, `pushError` and `finishOk` say how the
        event append, the push and, if that fails, failing the job end: a failed event
        append leaves the job pending and unqueued, and so does a failed push whose job
        cannot be failed either. */
    method Submit(id: string, steps: seq<Step>, options: Options, eventOk: bool, pushError: Option<string>,
                  finishOk: bool)
      returns (r: Result<string, SubmitError>)
      modifies store`jobs, queue
      ensures r == Err(UnknownAgent) <==> !Resolvable(steps, known)
      ensures r.Err? && r.error.Invalid? <==> Resolvable(steps, known) && !Runnable(steps, options)
      ensures r.Err? && r.error.Invalid? ==> Explains(steps, options, r.error.reason)
      ensures r == Err(NotStored) <==> Resolvable(steps, known) && Runnable(steps, options) && id in old(store.jobs)
      ensures var created := Resolvable(steps, known) && Runnable(steps, options) && id !in old(store.jobs);
              && (r == Err(NotRecorded) <==> created && !eventOk)
              && (r == Err(NotQueued) <==> created && eventOk && pushError.Some?)
              && (r.Ok? <==> created && eventOk && pushError.None?)
              && store.jobs == (if !created then old(store.jobs)
                                else if r == Err(NotQueued) && finishOk then
                                  old(store.jobs)[id := FinishRow(NewRow(steps), "", Failed,
                                                                  "enqueue failed: " + pushError.value)]
                                else old(store.jobs)[id := NewRow(steps)])
      ensures queue.State() == if r.Ok? then Pushed(old(queue.State()), id) else old(queue.State())
    {
      var problem := Check(steps, options);
      if problem.Some? {
        return Err(problem.value);
      }
      var created := store.Create(id, steps);
      if !created {
        return Err(NotStored);
      }
      if !eventOk {
        return Err(NotRecorded);
      }
      if pushError.Some? {
        if finishOk {
          var held := store.FinishJob(id, "", Failed, "enqueue failed: " + pushError.value);
        }
        return Err(NotQueued);
      }
      queue.Push(id);
      r := Ok(id);
    }

    /** The opening of process. The session goes on in phase `next`, or it is over. The
        outcome of the event append, `logOk`, is ignored. An id without a row is dropped
        like a duplicate. */
    method TakeDelivery(worker: string, id: string, claimOk: bool, finishOk: bool, logOk: bool, ackOk: bool,
                        ghost j: Job)
      returns (next: Option<Phase>)
      requires worker != "" && (id in store.jobs ==> j.row == store.jobs[id])
      modifies store`jobs, queue
      ensures id !in old(store.jobs) ==>
                && next == None && store.jobs == old(store.jobs)
                && queue.State() == if claimOk && ackOk then Acked(old(queue.State()), id) else old(queue.State())
      ensures id in old(store.jobs) ==>
              var (row, q) := (old(store.jobs)[id], old(queue.State()));
              var acked := if ackOk then Acked(q, id) else q;
              var claimed := ClaimRow(row, worker, store.now + settings.lease);
              if !claimOk then
                next == None && store.jobs == old(store.jobs) && queue.State() == q
              else if !Claimable(row, worker, store.now) then
                next == None && store.jobs == old(store.jobs) && queue.State() == acked
              else if settings.maxAttempts <= 0 || claimed.attempts <= settings.maxAttempts then
                next == Some(Loading) && store.jobs == old(store.jobs)[id := claimed] && queue.State() == q
              else
                && next == None && queue.State() == acked
                && store.jobs == old(store.jobs)[id :=
                     if !finishOk then claimed
                     else FinishRow(claimed, worker, Failed,
                                    "exceeded " + Decimal(settings.maxAttempts) + " delivery attempt(s)")]
      ensures id in old(store.jobs) ==>
              Shows(Alone(DeskOf(worker, 0), Scene(Some(Fresh(id)), j, old(queue.State())),
                          DeliveryActs(DeskOf(worker, 0), j.row, claimOk, finishOk, logOk, ackOk)),
                    store.jobs[id], queue.State(), next)
    {
      DeliveryAlone(DeskOf(worker, 0), id, j, queue.State(), claimOk, finishOk, logOk, ackOk);
      if !claimOk {
        return None;
      }
      var attempts := store.ClaimJob(id, worker, settings.lease);
      if attempts.None? {
        if ackOk {
          queue.Ack(id);
        }
        return None;
      }
      if settings.maxAttempts > 0 && attempts.value > settings.maxAttempts {
        if finishOk {
          var held := store.FinishJob(id, worker, Failed, DeadLetterReason(settings));
        }
        if ackOk {
          queue.Ack(id);
        }
        return None;
      }
      next := Some(Loading);
    }

    /** One turn of holdLease: an error skips the rest of the turn; otherwise the lease
        counts as lost unless both sides still hold it. */
    method Beat(worker: string, id: string, deadline: int, storeOk: bool, queueOk: bool, ghost s: Session, ghost j: Job)
      returns (lost: bool)
      requires id in store.jobs && j.row == store.jobs[id] && s.job == id && UnderWay(s)
      modifies store`jobs, queue
      ensures var bothHold := OwnedBy(old(store.jobs)[id], worker) && Holds(old(queue.State()), id, worker);
              lost == (storeOk && queueOk && !bothHold)
      ensures queue.State() == if storeOk && queueOk then Extended(old(queue.State()), id, worker, deadline)
                               else old(queue.State())
      ensures var extended := ExtendRow(old(store.jobs)[id], worker, store.now + settings.lease);
              store.jobs == if storeOk then old(store.jobs)[id := extended] else old(store.jobs)
      ensures Alone(DeskOf(worker, deadline), Scene(Some(s), j, old(queue.State())),
                    BeatActs(DeskOf(worker, deadline), id, old(queue.State()), storeOk, queueOk))
              == Some(Scene(Some(s.(stop := if lost then LeaseLost else Going)), j.(row := store.jobs[id]),
                            queue.State()))
    {
      BeatAlone(DeskOf(worker, deadline), s, j, queue.State(), storeOk, queueOk);
      if !storeOk {
        return false;
      }
      var heldStore := store.ExtendLease(id, worker, settings.lease);
      if !queueOk {
        return false;
      }
      var heldQueue := queue.Extend(id, worker, deadline);
      lost := !heldStore || !heldQueue;
    }

    /** fencedAgent.Run: the inner agent is called only after the step's row is claimed; a
        refusal trips the fence, an error does not. `inner` is what the inner agent would
        reply. */
    method RunFenced(fence: LeaseFence, worker: string, id: string, step: string, claimError: Option<string>,
                     inner: Reply, ghost s: Session, ghost j: Job)
      returns (reply: Reply, called: bool)
      requires id in store.jobs && j.row == store.jobs[id]
      requires s.phase.Executing? && s.phase.fence == fence.lost
      requires step in s.phase.flights && s.phase.flights[step].Claiming?
      modifies store`jobs, fence
      ensures called <==> claimError.None? && StepClaimable(old(store.jobs)[id], step, worker)
      ensures reply == match claimError
                       case Some(e) => Fault("claim step \"" + step + "\": " + e)
                       case None => if called then inner
                                    else Fault("job lease lost: step \"" + step + "\" is no longer ours")
      ensures fence.lost == (old(fence.lost) || (claimError.None? && !called))
      ensures var claimed := ClaimStepRow(old(store.jobs)[id], step, worker);
              store.jobs == if called then old(store.jobs)[id := claimed] else old(store.jobs)
      ensures var f := s.phase.flights[step];
              var sc := Alone(DeskOf(worker, 0), Scene(Some(s), j, queue.State()),
                              FencedActs(DeskOf(worker, 0), j.row, step, claimError, inner));
              && sc.Some? && sc.value.job.row == store.jobs[id] && sc.value.queue == queue.State()
              && sc.value.session == Some(s.(phase := s.phase.(fence := fence.lost,
                    flights := s.phase.flights[step := AfterReply(settings, step, f.prompt, f.tries, reply)])))
    {
      FencedCallAlone(DeskOf(worker, 0), s, j, queue.State(), step, claimError, inner);
      called := false;
      if claimError.Some? {
        return Fault(FailedClaim(step, claimError.value)), called;
      }
      called := store.ClaimStep(id, step, worker);
      if !called {
        fence.lost := true;
        return Fault(LostStep(step)), called;
      }
      reply := inner;
    }

    /** The close of process: writes every result, finishes, and acks only if the finish
        was held. Errors of the writes are ignored. */
    method Conclude(worker: string, id: string, results: seq<StepResult>, status: Status, error: string,
                    oks: seq<bool>, finishOk: bool, logOk: bool, ackOk: bool, ghost s: Session, ghost j: Job)
      returns (held: bool)
      requires worker != "" && id in store.jobs && j.row == store.jobs[id] && |oks| == |results| && s.job == id
      requires s.phase.Recording? && s.phase.todo == results && s.phase.status == status && s.phase.error == error
      modifies store`jobs, queue
      ensures held <==> finishOk && old(store.jobs)[id].owner == Some(worker)
      ensures var written := Written(old(store.jobs)[id], worker, results, oks);
              store.jobs == old(store.jobs)[id := if held then FinishRow(written, worker, status, error) else written]
      ensures old(store.jobs)[id].owner != Some(worker) ==> store.jobs == old(store.jobs)
      ensures queue.State() == if held && ackOk then Acked(old(queue.State()), id) else old(queue.State())
      ensures Shows(Alone(DeskOf(worker, 0), Scene(Some(s), j, old(queue.State())),
                          ConcludeActs(DeskOf(worker, 0), j.row, oks, finishOk, logOk, ackOk)),
                    store.jobs[id], queue.State(), None)
    {
      ConcludeAlone(DeskOf(worker, 0), s, j, queue.State(), oks, finishOk, logOk, ackOk);
      WriteAll(worker, id, results, oks);
      WrittenKeepsOwner(old(store.jobs)[id], worker, results, oks);
      held := false;
      if finishOk {
        held := store.FinishJob(id, worker, status, error);
      }
      if held && ackOk {
        queue.Ack(id);
      }
    }

    method WriteAll(worker: string, id: string, results: seq<StepResult>, oks: seq<bool>)
      requires id in store.jobs && |oks| == |results|
      modifies store`jobs
      ensures store.jobs == old(store.jobs)[id := Written(old(store.jobs)[id], worker, results, oks)]
    {
      for i := 0 to |results|
        invariant store.jobs == old(store.jobs)[id := Written(old(store.jobs)[id], worker, results[..i], oks[..i])]
      {
        WrittenSnoc(old(store.jobs)[id], worker, results, oks, i);
        if oks[i] {
          store.UpdateStep(id, worker, results[i]);
        }
      }
      assert results[..|results|] == results && oks[..|oks|] == oks;
    }

    /** abandon: leaves a lost job alone, hands any other back. The requeue does not ask
        whether the release took effect, but an error of the release prevents it. */
    method AbandonJob(worker: string, id: string, lost: bool, releaseOk: bool, requeueOk: bool, ghost s: Session,
                      ghost j: Job)
      requires id in store.jobs && j.row == store.jobs[id] && s.job == id && s.phase == Abandoning(lost)
      modifies store`jobs, queue
      ensures store.jobs == if !lost && releaseOk then old(store.jobs)[id := ReleaseRow(old(store.jobs)[id], worker)]
                            else old(store.jobs)
      ensures queue.State() == if !lost && releaseOk && requeueOk then Requeued(old(queue.State()), id)
                               else old(queue.State())
      ensures Shows(Alone(DeskOf(worker, 0), Scene(Some(s), j, old(queue.State())),
                          AbandonActs(lost, releaseOk, requeueOk)),
                    store.jobs[id], queue.State(), None)
    {
      AbandonAlone(DeskOf(worker, 0), s, j, queue.State(), releaseOk, requeueOk);
      if lost {
        return;
      }
      if !releaseOk {
        return;
      }
      store.ReleaseJob(id, worker);
      if requeueOk {
        queue.Requeue(id);
      }
    }

    /** reap: expired queue leases first, then, also if that fails, jobs whose store lease
        has been expired for a whole lease more. Every job it frees is pending, and in the
        ready list unless its push failed. */
    method Reap(time: int, batch: int, queueOk: bool, storeOk: bool, failing: set<string>)
      returns (recovered: seq<string>, orphans: seq<string>)
      modifies store`jobs, queue
      ensures if queueOk then IsExpired(old(queue.leases), time, Batch(batch), recovered) else recovered == []
      ensures if storeOk then IsSweep(old(store.jobs), store.now, settings.lease, Batch(batch), orphans)
              else orphans == []
      ensures queueOk ==>
                UpTo(if batch > 0 then batch else 100, recovered,
                     set b | b in old(queue.leases) && old(queue.leases)[b] <= time)
      ensures storeOk ==>
                UpTo(if batch > 0 then batch else 100, orphans,
                     set b | b in old(store.jobs) && old(store.jobs)[b].status == Running
                         && old(store.jobs)[b].lease.Some?
                             && old(store.jobs)[b].lease.value + settings.lease <= store.now)
      ensures store.jobs == Swept(old(store.jobs), orphans)
      ensures queue.State() == PushedAll(Returned(old(queue.State()), recovered), Kept(orphans, failing))
      ensures queue.ready == Reverse(Kept(orphans, failing)) + Reverse(recovered) + old(queue.ready)
      ensures queue.leases == old(queue.leases) - Elems(recovered)
      ensures forall id :: id in orphans ==>
                store.jobs[id].status == Pending && (id in queue.State().ready || id in failing)
    {
      recovered, orphans := [], [];
      NothingReturned(queue.State());
      if queueOk {
        recovered := queue.Reclaim(time, batch);
      }
      if !storeOk {
        assert Swept(store.jobs, []) == store.jobs;
        ReapedQueue(old(queue.State()), recovered, orphans, failing);
        return;
      }
      orphans := store.ReclaimExpiredJobs(settings.lease, batch);
      for i := 0 to |orphans|
        invariant store.jobs == Swept(old(store.jobs), orphans)
        invariant queue.State() == PushedAll(Returned(old(queue.State()), recovered), Kept(orphans[..i], failing))
      {
        assert orphans[..i + 1][..i] == orphans[..i];
        if orphans[i] !in failing {
          queue.Push(orphans[i]);
        }
      }
      assert orphans[..|orphans|] == orphans;
      ReapedQueue(old(queue.State()), recovered, orphans, failing);
    }
  }

  // ---------- The methods as events of the cluster ----------

  lemma CreatedNext(t: Run, id: string, steps: seq<Step>) returns (t2: Run)
    requires ValidDag(steps) && id !in Last(t).jobs
    ensures t2.c == t.c
    ensures Last(t2) == Last(t).(jobs := Last(t).jobs[id := Submitted(steps)], submitting := Last(t).submitting + {id})
  {
    t2 := OneMore(t, Submit(id, steps),
                  Last(t).(jobs := Last(t).jobs[id := Submitted(steps)], submitting := Last(t).submitting + {id}));
  }

  lemma AbortedNext(t: Run, id: string) returns (t2: Run)
    requires id in Last(t).submitting
    ensures t2.c == t.c && Last(t2) == Last(t).(submitting := Last(t).submitting - {id})
  {
    t2 := OneMore(t, AbortSubmit(id), Last(t).(submitting := Last(t).submitting - {id}));
  }

  lemma PushedNext(t: Run, id: string) returns (t2: Run)
    requires id in Last(t).submitting
    ensures t2.c == t.c
    ensures Last(t2) == Last(t).(submitting := Last(t).submitting - {id}, queue := Pushed(Last(t).queue, id))
  {
    t2 := OneMore(t, PushNew(id),
                  Last(t).(submitting := Last(t).submitting - {id}, queue := Pushed(Last(t).queue, id)));
  }

  lemma GivenUpNext(t: Run, id: string, message: string, ok: bool) returns (t2: Run)
    requires id in Last(t).submitting && id in Last(t).jobs
    ensures t2.c == t.c
    ensures Last(t2) == Last(t).(submitting := Last(t).submitting - {id},
              jobs := if ok then Last(t).jobs[id := GivenUp(Last(t).jobs[id], message)] else Last(t).jobs)
  {
    var k := Last(t);
    t2 := OneMore(t, GiveUp(id, message, ok),
                  k.(submitting := k.submitting - {id},
                     jobs := if ok then k.jobs[id := GivenUp(k.jobs[id], message)] else k.jobs));
  }

  /** A submission that is created, as events: what Submit does to store and queue is what
      they do. */
  lemma SubmitIsEvents(t: Run, id: string, steps: seq<Step>, eventOk: bool, pushError: Option<string>, finishOk: bool)
    returns (t2: Run)
    requires ValidDag(steps) && id !in Last(t).jobs && id !in Last(t).submitting
    ensures t2.c == t.c && Last(t2) == Last(t).(jobs := Last(t2).jobs, queue := Last(t2).queue)
    ensures Last(t2).queue == if eventOk && pushError.None? then Pushed(Last(t).queue, id) else Last(t).queue
    ensures Rows(Last(t2).jobs) == Rows(Last(t).jobs)[id :=
              if eventOk && pushError.Some? && finishOk
              then FinishRow(NewRow(steps), "", Failed, "enqueue failed: " + pushError.value) else NewRow(steps)]
  {
    var t1 := CreatedNext(t, id, steps);
    RowAdded(Last(t).jobs, id, Submitted(steps));
    t2 := CreatedEnding(t, t1, id, NewRow(steps), eventOk, pushError, finishOk);
  }

  lemma RowAdded(jobs: map<string, Job>, id: string, j: Job)
    ensures Rows(jobs[id := j]) == Rows(jobs)[id := j.row]
  {
  }

  lemma CreatedEnding(t: Run, t1: Run, id: string, row: JobRow, eventOk: bool, pushError: Option<string>,
                      finishOk: bool)
    returns (t2: Run)
    requires t1.c == t.c && id !in Last(t).submitting
    requires Last(t1) == Last(t).(jobs := Last(t1).jobs, submitting := Last(t).submitting + {id})
    requires id in Last(t1).jobs && Rows(Last(t1).jobs) == Rows(Last(t).jobs)[id := row]
    ensures t2.c == t.c && Last(t2) == Last(t).(jobs := Last(t2).jobs, queue := Last(t2).queue)
    ensures Last(t2).queue == if eventOk && pushError.None? then Pushed(Last(t).queue, id) else Last(t).queue
    ensures Rows(Last(t2).jobs) == Rows(Last(t).jobs)[id :=
              if eventOk && pushError.Some? && finishOk
              then FinishRow(row, "", Failed, "enqueue failed: " + pushError.value) else row]
  {
    t2 := SubmissionEnding(t1, id, eventOk, pushError, finishOk);
    assert Last(t).submitting + {id} - {id} == Last(t).submitting;
    assert Last(t1).jobs[id].row == Rows(Last(t1).jobs)[id] == row;
  }

  lemma SubmissionEnding(t: Run, id: string, eventOk: bool, pushError: Option<string>, finishOk: bool) returns (t2: Run)
    requires id in Last(t).submitting && id in Last(t).jobs
    ensures t2.c == t.c
    ensures Last(t2)
            == Last(t).(jobs := Last(t2).jobs, queue := Last(t2).queue, submitting := Last(t).submitting - {id})
    ensures Last(t2).queue == if eventOk && pushError.None? then Pushed(Last(t).queue, id) else Last(t).queue
    ensures Rows(Last(t2).jobs) == Rows(Last(t).jobs)[id :=
              if eventOk && pushError.Some? && finishOk
              then FinishRow(Last(t).jobs[id].row, "", Failed, "enqueue failed: " + pushError.value)
              else Last(t).jobs[id].row]
  {
    if !eventOk {
      t2 := AbortedNext(t, id);
    } else if pushError.None? {
      t2 := PushedNext(t, id);
    } else {
      t2 := GivenUpNext(t, id, "enqueue failed: " + pushError.value, finishOk);
    }
  }

  /** What Reap does to store and queue is what these events do. */
  lemma ReapIsEvents(t: Run, time: int, batch: int, queueOk: bool, storeOk: bool, recovered: seq<string>,
                     orphans: seq<string>, failing: set<string>)
    returns (t2: Run)
    requires if queueOk then IsExpired(Last(t).queue.leases, time, Batch(batch), recovered) else recovered == []
    requires if storeOk then IsSweep(Rows(Last(t).jobs), Last(t).now, t.c.lease, Batch(batch), orphans)
             else orphans == []
    ensures t2.c == t.c && Last(t2) == Last(t).(jobs := Last(t2).jobs, queue := Last(t2).queue)
    ensures Rows(Last(t2).jobs) == Swept(Rows(Last(t).jobs), orphans)
    ensures Last(t2).queue == PushedAll(Returned(Last(t).queue, recovered), Kept(orphans, failing))
  {
    t2 := t;
    if queueOk {
      t2 := QueueSweptNext(t2, time, batch, recovered);
    }
    if storeOk {
      t2 := StoreSweptNext(t2, batch, orphans);
    } else {
      assert Swept(Rows(Last(t).jobs), []) == Rows(Last(t).jobs);
      assert multiset(orphans) == multiset{};
    }
    t2 := PushesAreEvents(t2, orphans, failing);
    assert Last(t).orphans + multiset(orphans) - multiset(orphans) == Last(t).orphans;
  }

  lemma QueueSweptNext(t: Run, time: int, batch: int, recovered: seq<string>) returns (t2: Run)
    requires IsExpired(Last(t).queue.leases, time, Batch(batch), recovered)
    ensures t2.c == t.c && Last(t2) == Last(t).(queue := Returned(Last(t).queue, recovered))
  {
    t2 := OneMore(t, SweepQueue(time, batch, recovered), Last(t).(queue := Returned(Last(t).queue, recovered)));
  }

  lemma StoreSweptNext(t: Run, batch: int, orphans: seq<string>) returns (t2: Run)
    requires IsSweep(Rows(Last(t).jobs), Last(t).now, t.c.lease, Batch(batch), orphans)
    ensures t2.c == t.c
    ensures Last(t2) == Last(t).(jobs := Last(t2).jobs, orphans := Last(t).orphans + multiset(orphans))
    ensures Rows(Last(t2).jobs) == Swept(Rows(Last(t).jobs), orphans)
  {
    var k := Last(t);
    t2 := OneMore(t, SweepStore(batch, orphans),
                  k.(jobs := ReapedJobs(k.jobs, orphans), orphans := k.orphans + multiset(orphans)));
  }

  lemma OrphanNext(t: Run, id: string, ok: bool) returns (t2: Run)
    requires id in Last(t).orphans
    ensures t2.c == t.c
    ensures Last(t2) == Last(t).(orphans := Last(t).orphans - multiset{id},
                                 queue := if ok then Pushed(Last(t).queue, id) else Last(t).queue)
  {
    var k := Last(t);
    if ok {
      t2 := OneMore(t, PushOrphan(id), k.(orphans := k.orphans - multiset{id}, queue := Pushed(k.queue, id)));
    } else {
      t2 := OneMore(t, DropOrphan(id), k.(orphans := k.orphans - multiset{id}));
    }
  }

  lemma {:induction false} PushesAreEvents(t: Run, ids: seq<string>, failing: set<string>) returns (t2: Run)
    requires multiset(ids) <= Last(t).orphans
    ensures t2.c == t.c
    ensures Last(t2)
            == Last(t).(orphans := Last(t).orphans - multiset(ids),
                        queue := PushedAll(Last(t).queue, Kept(ids, failing)))
    decreases |ids|
  {
    if ids == [] {
      t2 := t;
    } else {
      var (front, last) := (ids[..|ids| - 1], ids[|ids| - 1]);
      assert ids == front + [last];
      LastOrphan(Last(t).orphans, front, last);
      t2 := PushesAreEvents(t, front, failing);
      t2 := OrphanNext(t2, last, last !in failing);
      KeptSnoc(Last(t).queue, front, last, failing);
    }
  }

  lemma LastOrphan(orphans: multiset<string>, front: seq<string>, last: string)
    requires multiset(front + [last]) <= orphans
    ensures multiset(front) <= orphans && last in orphans - multiset(front)
    ensures orphans - multiset(front) - multiset{last} == orphans - multiset(front + [last])
  {
    assert multiset(front + [last]) == multiset(front) + multiset{last};
    assert multiset(front + [last])[last] <= orphans[last];
  }

  lemma KeptSnoc(q: QueueState, front: seq<string>, last: string, failing: set<string>)
    ensures PushedAll(q, Kept(front + [last], failing))
         == if last in failing then PushedAll(q, Kept(front, failing))
            else Pushed(PushedAll(q, Kept(front, failing)), last)
  {
    assert (front + [last])[..|front|] == front;
    assert (Kept(front, failing) + [last])[..|Kept(front, failing)|] == Kept(front, failing);
  }
}
