/** No job is lost: a job waiting to run is always in the ready list or in the hands of
    somebody about to put it there or take it. */
module Delivery {
  import opened Basics
  import opened Queues
  import opened QueueHistories
  import opened Stores
  import opened Sessions
  import opened Fencing
  import opened Protocol

  /** A session that has fetched the job but not yet claimed it, or released it but not
      yet requeued it. */
  predicate InHand(s: Session, id: string) {
    s.job == id && (s.phase.Fetched? || s.phase.Requeueing?)
  }

  ghost predicate Held(k: Cluster, id: string) {
    exists w :: w in k.sessions && InHand(k.sessions[w], id)
  }

  ghost predicate Reachable(k: Cluster, id: string) {
    id in k.queue.ready || id in k.submitting || id in k.orphans || Held(k, id)
  }

  ghost predicate NothingLost(k: Cluster) {
    forall id :: id in k.jobs && k.jobs[id].row.status == Pending ==> Reachable(k, id)
  }

  /** No call that hands a job over returns an error or is cut off by a crash. A worker
      may crash anywhere else, and any other call may fail. */
  predicate SafeAct(act: Act) {
    act != Claim(false) && act != Requeue(false)
  }

  predicate SafeEvent(k: Cluster, e: Event) {
    match e
    case AbortSubmit(_) => false
    case GiveUp(_, _, ok) => ok
    case DropOrphan(_) => false
    case Die(worker) => worker in k.sessions ==>
          !k.sessions[worker].phase.Fetched? && !k.sessions[worker].phase.Requeueing?
    case Work(_, act, _) => SafeAct(act)
    case _ => true
  }

  // ---------- Acts ----------

  /** An act that leaves the job pending either found it pending and did not let go of
      it, or released it and now has it in hand, or has just requeued it. */
  ghost predicate HandsOver(s: Session, j: Job, act: Act, o: Outcome)
    requires o.Moves?
  {
    o.job.row.status == Pending ==>
      || (o.session.Some? && InHand(o.session.value, s.job))
      || act == Requeue(true)
      || (j.row.status == Pending && !s.phase.Fetched? && !s.phase.Requeueing?)
  }

  lemma ActHandsOver(c: Settings, now: int, worker: string, s: Session, j: Job, act: Act)
    requires OwnershipKept(j) && SafeAct(act) && Perform(c, now, worker, s, j, act).Moves?
    requires s.phase.Recording? ==> s.phase.status != Pending
    ensures HandsOver(s, j, act, Perform(c, now, worker, s, j, act))
  {
  }

  lemma ReadyOnlyGrows(q: QueueState, worker: string, job: string, act: Act, deadline: int, id: string)
    requires id in q.ready || (act == Requeue(true) && id == job)
    ensures id in QueueAfter(q, worker, job, act, deadline).ready
  {
  }

  lemma StillReachable(k: Cluster, worker: string, act: Act, deadline: int, o: Outcome, k2: Cluster, id: string)
    requires Applies(k, worker, act, deadline, o, k2) && Reachable(k, id)
    requires !InHand(k.sessions[worker], id)
    ensures Reachable(k2, id)
  {
    if id in k.queue.ready {
      ReadyOnlyGrows(k.queue, worker, k.sessions[worker].job, act, deadline, id);
    } else if Held(k, id) {
      var w :| w in k.sessions && InHand(k.sessions[w], id);
      assert w in k2.sessions && InHand(k2.sessions[w], id);
    }
  }

  lemma ActLosesNothing(k: Cluster, worker: string, act: Act, deadline: int, o: Outcome, k2: Cluster)
    requires NothingLost(k) && Applies(k, worker, act, deadline, o, k2)
    requires HandsOver(k.sessions[worker], k.jobs[k.sessions[worker].job], act, o)
    ensures NothingLost(k2)
  {
    var s := k.sessions[worker];
    forall id | id in k2.jobs && k2.jobs[id].row.status == Pending ensures Reachable(k2, id) {
      if id != s.job || (k.jobs[id].row.status == Pending && !s.phase.Fetched? && !s.phase.Requeueing?) {
        StillReachable(k, worker, act, deadline, o, k2, id);
      } else if act == Requeue(true) {
        ReadyOnlyGrows(k.queue, worker, s.job, act, deadline, id);
      } else {
        assert InHand(k2.sessions[worker], id);
      }
    }
  }

  lemma WorkLosesNothing(c: Settings, k: Cluster, worker: string, act: Act, deadline: int, k2: Cluster)
    requires Sound(c, k) && NothingLost(k) && Works(c, k, worker, act, deadline, k2) && SafeAct(act)
    ensures NothingLost(k2)
  {
    var s := k.sessions[worker];
    var o := Perform(c, k.now, worker, s, k.jobs[s.job], act);
    assert SessionKept(c, worker, s, k.jobs[s.job]) && OwnershipKept(k.jobs[s.job]);
    if o.job.row.status == Pending {
      ActHandsOver(c, k.now, worker, s, k.jobs[s.job], act);
    }
    ActLosesNothing(k, worker, act, deadline, o, k2);
  }

  // ---------- Other events ----------

  lemma EventLosesNothing(c: Settings, k: Cluster, e: Event, k2: Cluster)
    requires Sound(c, k) && NothingLost(k) && Happens(c, k, e, k2) && SafeEvent(k, e)
    ensures NothingLost(k2)
  {
    forall id | id in k2.jobs && k2.jobs[id].row.status == Pending ensures Reachable(k2, id) {
      if e.SweepStore? && id in e.ids {
        assert id in k2.orphans;
      } else if e.Submit? && id == e.id {
        assert id in k2.submitting;
      } else {
        assert JobKept(c, k.jobs[id]) && Reachable(k, id);
        EventKeepsReachable(c, k, e, k2, id);
      }
    }
  }

  lemma EventKeepsReachable(c: Settings, k: Cluster, e: Event, k2: Cluster, id: string)
    requires Happens(c, k, e, k2) && SafeEvent(k, e) && Reachable(k, id)
    requires id in k.jobs && OwnershipKept(k.jobs[id]) && SubmissionsFresh(k)
    requires id in k2.jobs && k2.jobs[id].row.status == Pending
    ensures Reachable(k2, id)
  {
    if id in k.queue.ready {
      ReadyMovesOn(c, k, e, k2, id);
    } else if Held(k, id) {
      var w :| w in k.sessions && InHand(k.sessions[w], id);
      assert w in k2.sessions && InHand(k2.sessions[w], id);
    }
  }

  /** A ready id stays ready, or a worker fetches it. */
  lemma ReadyMovesOn(c: Settings, k: Cluster, e: Event, k2: Cluster, id: string)
    requires Happens(c, k, e, k2) && id in k.queue.ready
    ensures id in k2.queue.ready || Held(k2, id)
  {
    match e {
      case SweepQueue(_, _, expired) => ReturnedMeans(k.queue, expired);
      case Fetch(worker, _) =>
        var ready := k.queue.ready;
        assert ready == ready[..|ready| - 1] + [ready[|ready| - 1]];
        assert worker in k2.sessions && InHand(k2.sessions[worker], ready[|ready| - 1]);
      case _ =>
    }
  }

  // ---------- Every run ----------

  ghost predicate SafeRun(c: Settings, states: seq<Cluster>, events: seq<Event>) {
    IsRun(c, states, events) && forall i :: 0 <= i < |events| ==> SafeEvent(states[i], events[i])
  }

  /** In every state of a safe run each pending job is ready, being submitted, being
      re-enqueued, or in the hand of a worker, however often other sessions acked it. */
  lemma {:induction false} NoJobIsLost(c: Settings, states: seq<Cluster>, events: seq<Event>, n: nat)
    requires SafeRun(c, states, events) && n < |states|
    ensures NothingLost(states[n])
  {
    if n > 0 {
      NoJobIsLost(c, states, events, n - 1);
      StepHappens(c, states, events, n - 1);
      assert Sound(c, states[n - 1]) by { RunsAreSound(c, states, events, n - 1); }
      StepLosesNothing(c, states[n - 1], events[n - 1], states[n]);
    }
  }

  lemma StepLosesNothing(c: Settings, k: Cluster, e: Event, k2: Cluster)
    requires Sound(c, k) && NothingLost(k) && Steps(c, k, e, k2) && SafeEvent(k, e)
    ensures NothingLost(k2)
  {
    if e.Work? {
      WorkLosesNothing(c, k, e.worker, e.act, e.deadline, k2);
    } else {
      EventLosesNothing(c, k, e, k2);
    }
  }

  /** In every run, safe or not, the store reaper will select a running job unless its
      lease is renewed: once the clock is a grace period past the deadline it is overdue. */
  lemma RunningIsRecoverable(c: Settings, states: seq<Cluster>, events: seq<Event>, n: nat, id: string)
    requires IsRun(c, states, events) && n < |states| && id in states[n].jobs
    requires states[n].jobs[id].row.status == Status.Running
    ensures states[n].jobs[id].row.lease.Some?
    ensures forall now :: Overdue(states[n].jobs[id].row, now, c.lease) <==>
              now >= states[n].jobs[id].row.lease.value + c.lease
  {
    RunsAreSound(c, states, events, n);
  }

  // ---------- Failed hand-overs ----------

  /** Known to the store as pending, but to nobody else. */
  ghost predicate Forgotten(k: Cluster, id: string) {
    && id in k.jobs && k.jobs[id].row.status == Pending
    && !Queued(k, id) && id !in k.submitting
    && forall w :: w in k.sessions ==> k.sessions[w].job != id
  }

  /** A submission is given up without its job being queued or failed exactly if recording
      the queued event fails, or the push fails and then failing the job fails too. The
      job is forgotten in these cases and in no other. */
  lemma SubmissionForgotten(c: Settings, k: Cluster, e: Event, k2: Cluster, id: string)
    requires Sound(c, k) && Steps(c, k, e, k2)
    requires id in k.submitting && id !in k2.submitting
    ensures Forgotten(k2, id) <==> e == AbortSubmit(id) || (e.GiveUp? && e.id == id && !e.ok)
  {
    assert OwnershipKept(k.jobs[id]) by { assert JobKept(c, k.jobs[id]); }
    SubmissionEnds(c, k, e, k2, id);
  }

  /** The three ways a submission ends. */
  lemma SubmissionEnds(c: Settings, k: Cluster, e: Event, k2: Cluster, id: string)
    requires Steps(c, k, e, k2) && id in k.submitting && id !in k2.submitting && id in k.jobs
    ensures e == AbortSubmit(id) || e == PushNew(id) || (e.GiveUp? && e.id == id)
    ensures k2.sessions == k.sessions && k2.orphans == k.orphans
    ensures k2.queue == if e == PushNew(id) then Pushed(k.queue, id) else k.queue
    ensures k2.jobs == if e.GiveUp? && e.ok then k.jobs[id := GivenUp(k.jobs[id], e.message)] else k.jobs
  {
  }

  /** A freed job whose re-enqueue fails is forgotten exactly if nobody else has it: the
      sweep that freed it has made it pending, and sweeps look at running jobs only. */
  lemma DroppedOrphanForgotten(c: Settings, k: Cluster, k2: Cluster, id: string)
    requires Sound(c, k) && Steps(c, k, DropOrphan(id), k2) && k.jobs[id].row.status == Pending
    ensures Forgotten(k2, id) <==>
              && k.orphans[id] == 1 && id !in k.queue.ready && id !in k.queue.leases
              && forall w :: w in k.sessions ==> k.sessions[w].job != id
  {
  }

  // ---------- When a session on the job ends ----------

  /** The acts that end a session: a failed claim, an ack, a finish that fails or is not
      held, leaving a lost job alone, a failed release, and a requeue. */
  predicate LastAct(k: Cluster, worker: string, act: Act)
    requires worker in k.sessions && k.sessions[worker].job in k.jobs
  {
    var p := k.sessions[worker].phase;
    match act
    case Claim(ok) => p.Fetched? && !ok
    case Ack(_) => p.Refused? || p.Acking?
    case FinishUp(ok) =>
      p.Recording? && p.todo == [] && (!ok || !Finishable(k.jobs[k.sessions[worker].job].row, worker))
    case Abandon => p.Abandoning? && p.lost
    case Release(ok) => p.Releasing? && !ok
    case Requeue(_) => p.Requeueing?
    case _ => false
  }

  lemma LastActEnds(c: Settings, k: Cluster, worker: string, act: Act)
    requires worker in k.sessions && k.sessions[worker].job in k.jobs
    ensures var o := Perform(c, k.now, worker, k.sessions[worker], k.jobs[k.sessions[worker].job], act);
            LastAct(k, worker, act) <==> o.Moves? && o.session.None?
  {
  }

  /** The worker's session is about the job, and no other session is. */
  predicate OnlySession(k: Cluster, id: string, worker: string) {
    && worker in k.sessions && k.sessions[worker].job == id
    && forall w :: w in k.sessions && w != worker ==> k.sessions[w].job != id
  }

  /** A session that ends leaves the row as it is, and the queue too unless its act is an
      ack or a requeue. */
  lemma LastActLeavesRow(c: Settings, k: Cluster, worker: string, act: Act, deadline: int, k2: Cluster)
    requires Works(c, k, worker, act, deadline, k2) && LastAct(k, worker, act)
    ensures k2 == k.(sessions := k.sessions - {worker}, queue := k2.queue)
    ensures var id := k.sessions[worker].job;
            k2.queue == if act == Ack(true) then Acked(k.queue, id)
                        else if act == Requeue(true) then Requeued(k.queue, id) else k.queue
  {
    var s := k.sessions[worker];
    LastActEnds(c, k, worker, act);
    LastActKeepsJob(c, k.now, worker, s, k.jobs[s.job], act);
    assert k.jobs[s.job := k.jobs[s.job]] == k.jobs;
  }

  lemma LastActKeepsJob(c: Settings, now: int, worker: string, s: Session, j: Job, act: Act)
    requires Perform(c, now, worker, s, j, act).Moves? && Perform(c, now, worker, s, j, act).session.None?
    ensures Perform(c, now, worker, s, j, act).job == j && !act.BeatQueue?
  {
  }

  /** A worker's act forgets a job exactly if it ends the only session on a pending job
      without requeueing it, nobody is to push it and it is not ready, and the queue has
      no lease of it or this very act acks it, whoever the lease is from. */
  lemma WorkForgetsExactly(c: Settings, k: Cluster, worker: string, act: Act, deadline: int, k2: Cluster, id: string)
    requires Sound(c, k) && Works(c, k, worker, act, deadline, k2) && !Forgotten(k, id)
    ensures Forgotten(k2, id) <==> WorkForgets(k, worker, act, id)
  {
    LastActEnds(c, k, worker, act);
    if LastAct(k, worker, act) {
      LastActLeavesRow(c, k, worker, act, deadline, k2);
      EndingForgets(c, k, worker, act, k2, id);
    } else {
      GoingOnRemembers(c, k, worker, act, deadline, k2, id);
    }
  }

  ghost predicate WorkForgets(k: Cluster, worker: string, act: Act, id: string) {
    && OnlySession(k, id, worker) && id in k.jobs && k.jobs[id].row.status == Pending
    && LastAct(k, worker, act) && act != Requeue(true)
    && id !in k.queue.ready && id !in k.orphans && (act == Ack(true) || id !in k.queue.leases)
  }

  lemma EndingForgets(c: Settings, k: Cluster, worker: string, act: Act, k2: Cluster, id: string)
    requires Sound(c, k) && worker in k.sessions && LastAct(k, worker, act) && !Forgotten(k, id)
    requires k2 == k.(sessions := k.sessions - {worker}, queue := k2.queue)
    requires var job := k.sessions[worker].job;
             k2.queue == if act == Ack(true) then Acked(k.queue, job)
                         else if act == Requeue(true) then Requeued(k.queue, job) else k.queue
    ensures Forgotten(k2, id) <==> WorkForgets(k, worker, act, id)
  {
    if Forgotten(k2, id) {
      forall w | w in k.sessions && w != worker ensures k.sessions[w].job != id {
        assert w in k2.sessions;
      }
    }
  }

  /** A session that goes on still has its job, and others are not touched. */
  lemma GoingOnRemembers(c: Settings, k: Cluster, worker: string, act: Act, deadline: int, k2: Cluster, id: string)
    requires Sound(c, k) && Works(c, k, worker, act, deadline, k2)
    requires !LastAct(k, worker, act) && !Forgotten(k, id)
    ensures !Forgotten(k2, id)
  {
    var o := WorkIsFair(c, k, worker, act, deadline, k2);
    LastActEnds(c, k, worker, act);
    assert worker in k2.sessions && k2.sessions[worker].job == k.sessions[worker].job;
    assert forall w :: w in k.sessions ==> w in k2.sessions && k2.sessions[w].job == k.sessions[w].job;
    if id != k.sessions[worker].job && Present(k.queue, id) {
      OthersStayQueued(k.queue, worker, k.sessions[worker].job, act, deadline, id);
    }
  }

  lemma OthersStayQueued(q: QueueState, worker: string, job: string, act: Act, deadline: int, id: string)
    requires id != job && Present(q, id)
    ensures Present(QueueAfter(q, worker, job, act, deadline), id)
  {
  }

  // ---------- Every way a job is forgotten ----------

  /** The event loses the job: each way reads off the state before it. */
  ghost predicate Loses(k: Cluster, e: Event, id: string) {
    match e
    case AbortSubmit(x) => x == id
    case GiveUp(x, _, ok) => x == id && !ok
    case DropOrphan(x) =>
      && x == id && id in k.jobs && k.jobs[id].row.status == Pending
      && k.orphans[id] == 1 && id !in k.queue.ready && id !in k.queue.leases
      && forall w :: w in k.sessions ==> k.sessions[w].job != id
    case Die(worker) =>
      && OnlySession(k, id, worker) && id in k.jobs && k.jobs[id].row.status == Pending
      && !Queued(k, id)
    case Work(worker, act, _) => WorkForgets(k, worker, act, id)
    case _ => false
  }

  /** The exact condition, for every event: a job is forgotten afterwards exactly if it
      was already or the event loses it. */
  lemma ForgottenExactly(c: Settings, k: Cluster, e: Event, k2: Cluster, id: string)
    requires Sound(c, k) && Steps(c, k, e, k2)
    ensures Forgotten(k2, id) <==> Forgotten(k, id) || Loses(k, e, id)
  {
    if Forgotten(k, id) {
      ForgottenStaysForgotten(c, k, e, k2, id);
    } else if e.Work? {
      WorkForgetsExactly(c, k, e.worker, e.act, e.deadline, k2, id);
    } else {
      EventForgetsExactly(c, k, e, k2, id);
    }
  }

  lemma EventForgetsExactly(c: Settings, k: Cluster, e: Event, k2: Cluster, id: string)
    requires Sound(c, k) && Happens(c, k, e, k2) && !Forgotten(k, id)
    ensures Forgotten(k2, id) <==> Loses(k, e, id)
  {
    if id in k.submitting && id !in k2.submitting {
      SubmissionLoses(c, k, e, k2, id);
    } else if e.Die? {
      DeathForgets(c, k, e.worker, k2, id);
    } else if e == DropOrphan(id) && k.jobs[id].row.status == Pending {
      DroppedOrphanForgotten(c, k, k2, id);
    } else {
      OthersRemember(c, k, e, k2, id);
      OthersLoseNothing(k, e, k2, id);
    }
  }

  lemma SubmissionLoses(c: Settings, k: Cluster, e: Event, k2: Cluster, id: string)
    requires Sound(c, k) && Steps(c, k, e, k2) && id in k.submitting && id !in k2.submitting
    ensures Forgotten(k2, id) <==> Loses(k, e, id)
  {
    SubmissionForgotten(c, k, e, k2, id);
    SubmissionEnds(c, k, e, k2, id);
  }

  lemma OthersLoseNothing(k: Cluster, e: Event, k2: Cluster, id: string)
    requires !e.Work? && !e.Die? && (id in k.submitting ==> id in k2.submitting)
    requires e.AbortSubmit? || e.GiveUp? ==> e.id in k.submitting && k2.submitting == k.submitting - {e.id}
    requires e == DropOrphan(id) && id in k.jobs ==> k.jobs[id].row.status != Pending
    ensures !Loses(k, e, id)
  {
  }

  lemma DeathForgets(c: Settings, k: Cluster, worker: string, k2: Cluster, id: string)
    requires Sound(c, k) && Steps(c, k, Die(worker), k2) && !Forgotten(k, id)
    ensures Forgotten(k2, id) <==> Loses(k, Die(worker), id)
  {
    if Forgotten(k2, id) {
      forall w | w in k.sessions && w != worker ensures k.sessions[w].job != id {
        assert w in k2.sessions;
      }
    }
  }

  /** Any other event keeps or hands over what there is. */
  lemma OthersRemember(c: Settings, k: Cluster, e: Event, k2: Cluster, id: string)
    requires Sound(c, k) && Happens(c, k, e, k2) && !Forgotten(k, id) && !e.Die?
    requires id in k.submitting ==> id in k2.submitting
    requires e == DropOrphan(id) ==> k.jobs[id].row.status != Pending
    ensures !Forgotten(k2, id)
  {
    if id in k.jobs && k.jobs[id].row.status == Pending {
      PendingStaysKnown(c, k, e, k2, id);
    } else {
      BecomesPending(c, k, e, k2, id);
    }
  }

  lemma PendingStaysKnown(c: Settings, k: Cluster, e: Event, k2: Cluster, id: string)
    requires Happens(c, k, e, k2) && !e.Die? && e != DropOrphan(id)
    requires id in k.jobs && k.jobs[id].row.status == Pending && !Forgotten(k, id)
    requires id in k.submitting ==> id in k2.submitting
    ensures !Forgotten(k2, id)
  {
    if Queued(k, id) {
      QueuedMovesOn(c, k, e, k2, id);
    } else if id !in k.submitting {
      var w :| w in k.sessions && k.sessions[w].job == id;
      assert w in k2.sessions && k2.sessions[w].job == id;
    }
  }

  /** A job that an event makes pending was just submitted, or freed by the store reaper. */
  lemma BecomesPending(c: Settings, k: Cluster, e: Event, k2: Cluster, id: string)
    requires Happens(c, k, e, k2) && (id in k.jobs ==> k.jobs[id].row.status != Pending)
    ensures !Forgotten(k2, id)
  {
    if e.SweepStore? && id in e.ids {
      assert id in multiset(e.ids);
    }
  }

  lemma QueuedMovesOn(c: Settings, k: Cluster, e: Event, k2: Cluster, id: string)
    requires Happens(c, k, e, k2) && Queued(k, id) && e != DropOrphan(id)
    ensures Queued(k2, id)
  {
    match e {
      case SweepQueue(_, _, expired) =>
        ReturnedMeans(k.queue, expired);
        ReverseKeeps(expired, id);
      case Fetch(_, _) =>
        var ready := k.queue.ready;
        assert ready == ready[..|ready| - 1] + [ready[|ready| - 1]];
      case _ =>
    }
  }

  ghost predicate LosesAt(states: seq<Cluster>, events: seq<Event>, i: nat, id: string)
    requires |states| == |events| + 1 && i < |events|
  {
    Loses(states[i], events[i], id)
  }

  lemma ForgottenExactlyAt(c: Settings, states: seq<Cluster>, events: seq<Event>, i: nat, id: string)
    requires IsRun(c, states, events) && i < |events|
    ensures Forgotten(states[i + 1], id) <==> Forgotten(states[i], id) || LosesAt(states, events, i, id)
  {
    RunsAreSound(c, states, events, i);
    StepHappens(c, states, events, i);
    ForgottenExactly(c, states[i], events[i], states[i + 1], id);
  }

  lemma NothingForgottenYet(c: Settings, states: seq<Cluster>, events: seq<Event>, id: string)
    requires IsRun(c, states, events)
    ensures !Forgotten(states[0], id)
  {
  }

  /** Over a whole run: a job is forgotten at some point exactly if an event before lost it. */
  lemma {:induction false} LostExactly(c: Settings, states: seq<Cluster>, events: seq<Event>, n: nat, id: string)
    requires IsRun(c, states, events) && n < |states|
    ensures Forgotten(states[n], id) <==> exists i :: 0 <= i < n && LosesAt(states, events, i, id)
  {
    if n == 0 {
      NothingForgottenYet(c, states, events, id);
    } else {
      LostExactly(c, states, events, n - 1, id);
      ForgottenExactlyAt(c, states, events, n - 1, id);
    }
  }

  lemma ForgottenStaysForgotten(c: Settings, k: Cluster, e: Event, k2: Cluster, id: string)
    requires Sound(c, k) && Forgotten(k, id) && Steps(c, k, e, k2)
    ensures Forgotten(k2, id) && k2.jobs[id] == k.jobs[id]
  {
    if e.Work? {
      var o := WorkIsFair(c, k, e.worker, e.act, e.deadline, k2);
      WorkKeepsForgotten(k, e.worker, e.act, e.deadline, o, k2, id);
    } else {
      EventKeepsForgotten(c, k, e, k2, id);
    }
  }

  lemma WorkKeepsForgotten(k: Cluster, worker: string, act: Act, deadline: int, o: Outcome, k2: Cluster, id: string)
    requires Forgotten(k, id) && Applies(k, worker, act, deadline, o, k2)
    requires o.session.Some? ==> o.session.value.job == k.sessions[worker].job
    ensures Forgotten(k2, id) && k2.jobs[id] == k.jobs[id]
  {
    if Queued(k2, id) {
      ActAddsAtMostItsJob(k.queue, worker, k.sessions[worker].job, act, deadline, id);
    }
  }

  lemma EventKeepsForgotten(c: Settings, k: Cluster, e: Event, k2: Cluster, id: string)
    requires Forgotten(k, id) && Happens(c, k, e, k2)
    ensures Forgotten(k2, id) && k2.jobs[id] == k.jobs[id]
  {
    if e.SweepStore? {
      assert id in e.ids ==> Overdue(Rows(k.jobs)[id], k.now, c.lease);
    }
    if Queued(k2, id) {
      EventAddsOnlySubmissions(c, k, e, k2, id);
    }
  }

  /** A forgotten job stays pending for ever, untouched, in every continuation. */
  lemma {:induction false} ForgottenForEver(c: Settings, states: seq<Cluster>, events: seq<Event>, i: nat, m: nat,
                                            id: string)
    requires IsRun(c, states, events) && i <= m < |states| && Forgotten(states[i], id)
    ensures Forgotten(states[m], id) && states[m].jobs[id] == states[i].jobs[id]
    decreases m - i
  {
    if i < m {
      ForgottenForEver(c, states, events, i, m - 1, id);
      RunsAreSound(c, states, events, m - 1);
      StepHappens(c, states, events, m - 1);
      ForgottenStaysForgotten(c, states[m - 1], events[m - 1], states[m], id);
    }
  }
}
