/** The cluster: one store, one queue, any number of workers, submitters and reapers,
    interleaved one store or queue call at a time. Workers have unique, non-empty ids and
    run one session at a time; a crash ends a session between any two of its calls. */
module Protocol {
  import opened Basics
  import opened Workflows
  import opened Queues
  import opened QueueHistories
  import opened Stores
  import opened Sessions
  import opened Fencing

  /** `submitting` are jobs created but not yet pushed; `orphans` are ids a store reaper
      has freed but not yet pushed. */
  datatype Cluster = Cluster(now: int, jobs: map<string, Job>, queue: QueueState, sessions: map<string, Session>,
                             submitting: set<string>, orphans: multiset<string>)

  datatype Event =
    | Tick(time: int)
    | Submit(id: string, steps: seq<Step>)
    | AbortSubmit(id: string)
    | PushNew(id: string)
    | GiveUp(id: string, message: string, ok: bool)
    | Fetch(worker: string, deadline: int)
    | Work(worker: string, act: Act, deadline: int)
    | Die(worker: string)
    | SweepQueue(time: int, limit: int, expired: seq<string>)
    | SweepStore(limit: int, ids: seq<string>)
    | PushOrphan(id: string)
    | DropOrphan(id: string)

  // ---------- Steps ----------

  /** What a session's act does to the queue. */
  function QueueAfter(q: QueueState, worker: string, job: string, act: Act, deadline: int): QueueState {
    match act
    case Ack(true) => Acked(q, job)
    case Requeue(true) => Requeued(q, job)
    case BeatQueue(Some(_)) => Extended(q, job, worker, deadline)
    case _ => q
  }

  /** The queue's answer to a heartbeat is the extend script's. */
  predicate QueueAgrees(q: QueueState, worker: string, job: string, act: Act) {
    act.BeatQueue? && act.held.Some? ==> (act.held.value <==> Holds(q, job, worker))
  }

  /** The cluster once a session's act has come to outcome `o`. */
  function Moved(k: Cluster, worker: string, id: string, act: Act, deadline: int, o: Outcome): Cluster
    requires o.Moves?
  {
    k.(jobs := k.jobs[id := o.job],
       sessions := if o.session.Some? then k.sessions[worker := o.session.value] else k.sessions - {worker},
       queue := QueueAfter(k.queue, worker, id, act, deadline))
  }

  /** A session acts; what follows from its own outcome `o` is the same for every act. */
  ghost predicate Applies(k: Cluster, worker: string, act: Act, deadline: int, o: Outcome, k2: Cluster) {
    && worker in k.sessions && k.sessions[worker].job in k.jobs && o.Moves?
    && var id := k.sessions[worker].job;
       && QueueAgrees(k.queue, worker, id, act)
       && k2 == Moved(k, worker, id, act, deadline, o)
  }

  ghost predicate Works(c: Settings, k: Cluster, worker: string, act: Act, deadline: int, k2: Cluster) {
    && worker in k.sessions && k.sessions[worker].job in k.jobs
    && Applies(k, worker, act, deadline,
               Perform(c, k.now, worker, k.sessions[worker], k.jobs[k.sessions[worker].job], act), k2)
  }

  function Rows(jobs: map<string, Job>): map<string, JobRow> {
    map id | id in jobs :: jobs[id].row
  }

  function ReapedJobs(jobs: map<string, Job>, ids: seq<string>): map<string, Job> {
    map id | id in jobs :: if id in ids then Reaped(jobs[id]) else jobs[id]
  }

  ghost predicate Steps(c: Settings, k: Cluster, e: Event, k2: Cluster) {
    if e.Work? then Works(c, k, e.worker, e.act, e.deadline, k2) else Happens(c, k, e, k2)
  }

  /** Everything but the acts of sessions. */
  ghost predicate Happens(c: Settings, k: Cluster, e: Event, k2: Cluster) {
    match e
    case Tick(time) => time >= k.now && k2 == k.(now := time)
    case Submit(id, steps) =>
      id !in k.jobs && ValidDag(steps)
      && k2 == k.(jobs := k.jobs[id := Submitted(steps)], submitting := k.submitting + {id})
    case AbortSubmit(id) => id in k.submitting && k2 == k.(submitting := k.submitting - {id})
    case PushNew(id) =>
      id in k.submitting && k2 == k.(submitting := k.submitting - {id}, queue := Pushed(k.queue, id))
    case GiveUp(id, message, ok) =>
      id in k.submitting && id in k.jobs
      && k2 == k.(submitting := k.submitting - {id},
                  jobs := if ok then k.jobs[id := GivenUp(k.jobs[id], message)] else k.jobs)
    case Fetch(worker, deadline) =>
      worker != "" && worker !in k.sessions && Next(k.queue).Some?
      && k2 == k.(queue := Claimed(k.queue, worker, deadline),
                  sessions := k.sessions[worker := Session(Next(k.queue).value, 0, Fetched, Going, Resting)])
    case Work(_, _, _) => false
    case Die(worker) => worker in k.sessions && k2 == k.(sessions := k.sessions - {worker})
    case SweepQueue(time, limit, expired) =>
      IsExpired(k.queue.leases, time, Batch(limit), expired) && k2 == k.(queue := Returned(k.queue, expired))
    case SweepStore(limit, ids) =>
      IsSweep(Rows(k.jobs), k.now, c.lease, Batch(limit), ids)
      && k2 == k.(jobs := ReapedJobs(k.jobs, ids), orphans := k.orphans + multiset(ids))
    case PushOrphan(id) =>
      id in k.orphans && k2 == k.(orphans := k.orphans - multiset{id}, queue := Pushed(k.queue, id))
    case DropOrphan(id) => id in k.orphans && k2 == k.(orphans := k.orphans - multiset{id})
  }

  /** Who changes jobs in an event; reapers and submitters are nobody. */
  function Actor(e: Event): string {
    if e.Work? then e.worker else ""
  }

  // ---------- The invariant ----------

  ghost predicate AllFounded(jobs: map<string, Job>) {
    forall id {:trigger Founded(jobs[id])} :: id in jobs ==> Founded(jobs[id])
  }

  ghost predicate JobsKept(c: Settings, jobs: map<string, Job>) {
    AllFounded(jobs) && forall id :: id in jobs ==> JobKept(c, jobs[id])
  }

  ghost predicate SessionsKept(c: Settings, k: Cluster) {
    forall w :: w in k.sessions ==>
      w != "" && k.sessions[w].job in k.jobs && SessionKept(c, w, k.sessions[w], k.jobs[k.sessions[w].job])
  }

  /** An id somebody could deliver from. */
  ghost predicate Queued(k: Cluster, id: string) {
    Present(k.queue, id) || id in k.orphans
  }

  ghost predicate IdsKnown(k: Cluster) {
    && (forall id :: Queued(k, id) || id in k.submitting ==> id in k.jobs)
    && (forall w :: w in k.sessions ==> k.sessions[w].job in k.jobs)
  }

  /** A job being submitted has never been seen by the queue or a worker. */
  ghost predicate SubmissionsFresh(k: Cluster) {
    && (forall id :: id in k.submitting ==>
          id in k.jobs && k.jobs[id].row.status == Pending && k.jobs[id].row.attempts == 0)
    && (forall id :: id in k.submitting ==> !Queued(k, id))
    && (forall w :: w in k.sessions ==> k.sessions[w].job !in k.submitting)
  }

  ghost predicate Sound(c: Settings, k: Cluster) {
    JobsKept(c, k.jobs) && SessionsKept(c, k) && IdsKnown(k) && SubmissionsFresh(k)
  }

  /** Within one event every job changes only as its actor is allowed to. */
  ghost predicate Evolves(e: Event, jobs: map<string, Job>, jobs2: map<string, Job>) {
    forall id :: id in jobs ==> id in jobs2 && (jobs2[id] == jobs[id] || Guarantee(Actor(e), jobs[id], jobs2[id]))
  }

  /** A session's act, seen from outside: its job and session are kept and its worker
      stays within the guarantee. */
  ghost predicate FairWork(c: Settings, k: Cluster, worker: string, act: Act, deadline: int, o: Outcome, k2: Cluster) {
    Applies(k, worker, act, deadline, o, k2) && Fair(c, worker, k.jobs[k.sessions[worker].job], o)
  }

  /** A session is about one job, and past its claim about one delivery. */
  lemma SessionStays(c: Settings, now: int, worker: string, s: Session, j: Job, act: Act)
    ensures var o := Perform(c, now, worker, s, j, act);
            o.Moves? && o.session.Some? ==>
                  o.session.value.job == s.job && (!act.Claim? ==> o.session.value.token == s.token)
  {
  }

  lemma WorkIsFair(c: Settings, k: Cluster, worker: string, act: Act, deadline: int, k2: Cluster) returns (o: Outcome)
    requires Sound(c, k) && Works(c, k, worker, act, deadline, k2)
    ensures FairWork(c, k, worker, act, deadline, o, k2)
    ensures o.session.Some? ==> o.session.value.job == k.sessions[worker].job
  {
    var s := k.sessions[worker];
    SessionStays(c, k.now, worker, s, k.jobs[s.job], act);
    PerformIsFair(c, k.now, worker, s, k.jobs[s.job], act);
    o := Perform(c, k.now, worker, s, k.jobs[s.job], act);
  }

  /** Only a worker's own acts change its session. */
  lemma OthersLeaveSession(c: Settings, k: Cluster, e: Event, k2: Cluster, worker: string)
    requires Steps(c, k, e, k2) && worker in k2.sessions && !(e.Work? && e.worker == worker)
    ensures if worker in k.sessions then k2.sessions[worker] == k.sessions[worker]
            else k2.sessions[worker].phase == Fetched
  {
  }

  // ---------- Sessions' acts keep the invariant ----------

  /** Definitions never change. */
  lemma StillFounded(jobs: map<string, Job>, jobs2: map<string, Job>)
    requires AllFounded(jobs)
    requires forall id :: id in jobs2 ==>
               id in jobs && jobs2[id].row.steps == jobs[id].row.steps && jobs2[id].table == jobs[id].table
    ensures AllFounded(jobs2)
  {
    forall id | id in jobs2 ensures Founded(jobs2[id]) {
      assert Founded(jobs[id]);
    }
  }

  lemma OneJobEvolves(c: Settings, e: Event, jobs: map<string, Job>, id: string, j2: Job)
    requires JobsKept(c, jobs) && id in jobs
    requires JobKept(c, j2) && Guarantee(Actor(e), jobs[id], j2)
    ensures JobsKept(c, jobs[id := j2]) && Evolves(e, jobs, jobs[id := j2])
  {
    StillFounded(jobs, jobs[id := j2]);
  }

  lemma WorkKeepsJobs(c: Settings, k: Cluster, e: Event, o: Outcome, k2: Cluster)
    requires JobsKept(c, k.jobs) && e.Work? && FairWork(c, k, e.worker, e.act, e.deadline, o, k2)
    ensures JobsKept(c, k2.jobs) && Evolves(e, k.jobs, k2.jobs)
  {
    OneJobEvolves(c, e, k.jobs, k.sessions[e.worker].job, o.job);
  }

  lemma WorkKeepsSessions(c: Settings, k: Cluster, e: Event, o: Outcome, k2: Cluster)
    requires Sound(c, k) && e.Work? && FairWork(c, k, e.worker, e.act, e.deadline, o, k2)
    requires JobsKept(c, k2.jobs) && Evolves(e, k.jobs, k2.jobs)
    requires o.session.Some? ==> o.session.value.job == k.sessions[e.worker].job
    ensures SessionsKept(c, k2)
  {
    forall w | w in k2.sessions
      ensures w != "" && k2.sessions[w].job in k2.jobs && SessionKept(c, w, k2.sessions[w], k2.jobs[k2.sessions[w].job])
    {
      if w != e.worker {
        OthersUndisturbed(c, e, k.jobs, k2.jobs, w, k.sessions[w]);
      }
    }
  }

  /** A session whose worker does not act is not disturbed. */
  lemma OthersUndisturbed(c: Settings, e: Event, jobs: map<string, Job>, jobs2: map<string, Job>, worker: string,
                          s: Session)
    requires JobsKept(c, jobs) && JobsKept(c, jobs2) && Evolves(e, jobs, jobs2)
    requires worker != Actor(e) && s.job in jobs && SessionKept(c, worker, s, jobs[s.job])
    ensures s.job in jobs2 && SessionKept(c, worker, s, jobs2[s.job])
  {
    if jobs2[s.job] != jobs[s.job] {
      Undisturbed(c, Actor(e), jobs[s.job], jobs2[s.job], worker, s);
    }
  }

  lemma ActAddsAtMostItsJob(q: QueueState, worker: string, job: string, act: Act, deadline: int, id: string)
    requires Present(QueueAfter(q, worker, job, act, deadline), id)
    ensures id == job || Present(q, id)
  {
  }

  lemma WorkKeepsIds(k: Cluster, worker: string, act: Act, deadline: int, o: Outcome, k2: Cluster)
    requires IdsKnown(k) && SubmissionsFresh(k) && Applies(k, worker, act, deadline, o, k2)
    requires o.session.Some? ==> o.session.value.job == k.sessions[worker].job
    ensures IdsKnown(k2) && SubmissionsFresh(k2)
  {
    forall id | Queued(k2, id) ensures Queued(k, id) || id == k.sessions[worker].job {
      if id !in k.orphans {
        ActAddsAtMostItsJob(k.queue, worker, k.sessions[worker].job, act, deadline, id);
      }
    }
  }

  // ---------- Other events keep the invariant ----------

  lemma OneJobAdded(c: Settings, e: Event, jobs: map<string, Job>, id: string, j: Job)
    requires JobsKept(c, jobs) && id !in jobs && Founded(j) && JobKept(c, j)
    ensures JobsKept(c, jobs[id := j]) && Evolves(e, jobs, jobs[id := j])
  {
    OneMoreFounded(jobs, id, j);
  }

  lemma OneMoreFounded(jobs: map<string, Job>, id: string, j: Job)
    requires AllFounded(jobs) && Founded(j)
    ensures AllFounded(jobs[id := j])
  {
    var jobs2 := jobs[id := j];
    forall x | x in jobs2 ensures Founded(jobs2[x]) {
      if x != id {
        assert Founded(jobs[x]);
      }
    }
  }

  lemma EventKeepsJobs(c: Settings, k: Cluster, e: Event, k2: Cluster)
    requires JobsKept(c, k.jobs) && SubmissionsFresh(k) && Happens(c, k, e, k2)
    ensures JobsKept(c, k2.jobs) && Evolves(e, k.jobs, k2.jobs)
  {
    match e {
      case Submit(id, steps) => SubmissionKept(c, e, k.jobs, id, steps);
      case GiveUp(id, message, ok) =>
        if ok {
          GivenUpKept(c, e, k.jobs, id, message);
        }
      case SweepStore(_, _) => SweepEvolves(c, k, e, k2);
      case _ =>
    }
  }

  lemma SubmissionKept(c: Settings, e: Event, jobs: map<string, Job>, id: string, steps: seq<Step>)
    requires JobsKept(c, jobs) && id !in jobs && ValidDag(steps)
    ensures JobsKept(c, jobs[id := Submitted(steps)]) && Evolves(e, jobs, jobs[id := Submitted(steps)])
  {
    SubmittedIsKept(c, steps);
    OneJobAdded(c, e, jobs, id, Submitted(steps));
  }

  lemma GivenUpKept(c: Settings, e: Event, jobs: map<string, Job>, id: string, message: string)
    requires JobsKept(c, jobs) && id in jobs && Actor(e) == ""
    requires jobs[id].row.status == Pending && jobs[id].row.attempts == 0
    ensures JobsKept(c, jobs[id := GivenUp(jobs[id], message)])
    ensures Evolves(e, jobs, jobs[id := GivenUp(jobs[id], message)])
  {
    GiveUpIsFair(c, jobs[id], message);
    OneJobEvolves(c, e, jobs, id, GivenUp(jobs[id], message));
  }

  lemma SweepEvolves(c: Settings, k: Cluster, e: Event, k2: Cluster)
    requires JobsKept(c, k.jobs) && Happens(c, k, e, k2) && e.SweepStore?
    ensures JobsKept(c, k2.jobs) && Evolves(e, k.jobs, k2.jobs)
  {
    assert forall id :: id in e.ids ==> id in Rows(k.jobs) && Overdue(Rows(k.jobs)[id], k.now, c.lease);
    ReapedEvolve(c, k.now, e, k.jobs, e.ids);
  }

  lemma ReapedEvolve(c: Settings, now: int, e: Event, jobs: map<string, Job>, ids: seq<string>)
    requires JobsKept(c, jobs) && Actor(e) == ""
    requires forall id :: id in ids ==> id in jobs && Overdue(jobs[id].row, now, c.lease)
    ensures JobsKept(c, ReapedJobs(jobs, ids)) && Evolves(e, jobs, ReapedJobs(jobs, ids))
  {
    StillFounded(jobs, ReapedJobs(jobs, ids));
    forall id | id in jobs ensures JobKept(c, ReapedJobs(jobs, ids)[id])
      ensures ReapedJobs(jobs, ids)[id] == jobs[id] || Guarantee("", jobs[id], ReapedJobs(jobs, ids)[id])
    {
      if id in ids {
        ReapIsFair(c, now, c.lease, jobs[id]);
      }
    }
  }

  lemma EventKeepsSessions(c: Settings, k: Cluster, e: Event, k2: Cluster)
    requires Sound(c, k) && Happens(c, k, e, k2)
    requires JobsKept(c, k2.jobs) && Evolves(e, k.jobs, k2.jobs)
    ensures SessionsKept(c, k2)
  {
    forall w | w in k2.sessions
      ensures w != "" && k2.sessions[w].job in k2.jobs && SessionKept(c, w, k2.sessions[w], k2.jobs[k2.sessions[w].job])
    {
      if w in k.sessions {
        OthersUndisturbed(c, e, k.jobs, k2.jobs, w, k.sessions[w]);
      } else {
        assert Queued(k, Next(k.queue).value);
      }
    }
  }

  /** Which ids an event can bring into circulation: those it pushes itself. */
  lemma EventAddsOnlySubmissions(c: Settings, k: Cluster, e: Event, k2: Cluster, id: string)
    requires Happens(c, k, e, k2) && Queued(k2, id)
    ensures Queued(k, id) || e == PushNew(id) || (e.SweepStore? && id in e.ids)
  {
    match e {
      case SweepQueue(_, _, expired) =>
        ReturnedMeans(k.queue, expired);
        ReverseKeeps(expired, id);
      case Fetch(_, _) =>
        var ready := k.queue.ready;
        assert ready == ready[..|ready| - 1] + [ready[|ready| - 1]];
      case _ =>
    }
  }

  lemma EventKeepsIds(c: Settings, k: Cluster, e: Event, k2: Cluster)
    requires IdsKnown(k) && SubmissionsFresh(k) && Happens(c, k, e, k2)
    ensures IdsKnown(k2) && SubmissionsFresh(k2)
  {
    forall id | Queued(k2, id) ensures Queued(k, id) || e == PushNew(id) || (e.SweepStore? && id in e.ids) {
      EventAddsOnlySubmissions(c, k, e, k2, id);
    }
    SubmittingShrinks(c, k, e, k2);
    SubmittingStayPending(c, k, e, k2);
  }

  lemma SubmittingShrinks(c: Settings, k: Cluster, e: Event, k2: Cluster)
    requires IdsKnown(k) && SubmissionsFresh(k) && Happens(c, k, e, k2)
    ensures forall id :: id in k2.submitting ==>
              id in k2.jobs && (if id in k.submitting then !e.PushNew? || e.id != id else id !in k.jobs)
    ensures forall w :: w in k2.sessions ==> k2.sessions[w].job in k.jobs && k2.sessions[w].job !in k.submitting
    ensures forall id :: id in k.jobs ==> id in k2.jobs
  {
    if e.Fetch? {
      assert Queued(k, Next(k.queue).value);
    }
  }

  lemma SubmittingStayPending(c: Settings, k: Cluster, e: Event, k2: Cluster)
    requires IdsKnown(k) && SubmissionsFresh(k) && Happens(c, k, e, k2)
    ensures forall id :: id in k2.submitting ==>
              id in k2.jobs && k2.jobs[id].row.status == Pending && k2.jobs[id].row.attempts == 0
    ensures e.SweepStore? ==> forall id :: id in e.ids ==> id in k.jobs && id !in k.submitting
  {
    if e.SweepStore? {
      assert forall id :: id in e.ids ==> id in Rows(k.jobs) && Overdue(Rows(k.jobs)[id], k.now, c.lease);
    }
    forall id | id in k2.submitting
      ensures id in k2.jobs && k2.jobs[id].row.status == Pending && k2.jobs[id].row.attempts == 0
    {
      SubmittingUntouched(c, k, e, k2, id);
    }
  }

  /** A job being submitted is new, or as it was. */
  lemma SubmittingUntouched(c: Settings, k: Cluster, e: Event, k2: Cluster, id: string)
    requires Happens(c, k, e, k2) && id in k2.submitting
    requires id in k.submitting ==> id in k.jobs && k.jobs[id].row.status == Pending
    ensures if id in k.submitting then id in k2.jobs && k2.jobs[id] == k.jobs[id]
            else id in k2.jobs && k2.jobs[id].row.status == Pending && k2.jobs[id].row.attempts == 0
  {
    if e.SweepStore? {
      assert forall x :: x in e.ids ==> x in Rows(k.jobs) && Overdue(Rows(k.jobs)[x], k.now, c.lease);
    }
  }

  // ---------- Every reachable state ----------

  lemma StepKeepsSound(c: Settings, k: Cluster, e: Event, k2: Cluster)
    requires Sound(c, k) && Steps(c, k, e, k2)
    ensures Sound(c, k2) && Evolves(e, k.jobs, k2.jobs)
  {
    if e.Work? {
      var o := WorkIsFair(c, k, e.worker, e.act, e.deadline, k2);
      WorkKeepsJobs(c, k, e, o, k2);
      WorkKeepsSessions(c, k, e, o, k2);
      WorkKeepsIds(k, e.worker, e.act, e.deadline, o, k2);
    } else {
      EventKeepsJobs(c, k, e, k2);
      EventKeepsSessions(c, k, e, k2);
      EventKeepsIds(c, k, e, k2);
    }
  }

  const START := Cluster(0, map[], EMPTY, map[], {}, multiset{})

  /** A run of the cluster: states[i + 1] comes from states[i] by events[i]. */
  ghost predicate IsRun(c: Settings, states: seq<Cluster>, events: seq<Event>) {
    && |states| == |events| + 1 && states[0] == START
    && forall i {:trigger StepAt(c, states, events, i)} :: 0 <= i < |events| ==> StepAt(c, states, events, i)
  }

  ghost predicate StepAt(c: Settings, states: seq<Cluster>, events: seq<Event>, i: nat)
    requires i < |events| && |states| == |events| + 1
  {
    Steps(c, states[i], events[i], states[i + 1])
  }

  lemma StepHappens(c: Settings, states: seq<Cluster>, events: seq<Event>, i: nat)
    requires IsRun(c, states, events) && i < |events|
    ensures Steps(c, states[i], events[i], states[i + 1])
  {
    assert StepAt(c, states, events, i);
  }

  lemma {:induction false} RunsAreSound(c: Settings, states: seq<Cluster>, events: seq<Event>, n: nat)
    requires IsRun(c, states, events) && n < |states|
    ensures Sound(c, states[n])
    ensures n > 0 ==> Evolves(events[n - 1], states[n - 1].jobs, states[n].jobs)
  {
    if n > 0 {
      RunsAreSound(c, states, events, n - 1);
      StepHappens(c, states, events, n - 1);
      StepKeepsSound(c, states[n - 1], events[n - 1], states[n]);
    }
  }
}
