/** Runs of the cluster that do happen: a takeover after a crash, and a duplicate delivery
    that makes a healthy worker give its job up. */
module Scenarios {
  import opened Basics
  import opened Workflows
  import opened Queues
  import opened Stores
  import opened Sessions
  import opened Fencing
  import opened Protocol
  import opened Solo
  import opened Delivery

  datatype Trace = Trace(c: Settings, states: seq<Cluster>, events: seq<Event>)

  type Run = t: Trace | IsRun(t.c, t.states, t.events) witness Trace(Settings(1, 0, 0), [START], [])

  function Last(t: Run): Cluster {
    t.states[|t.states| - 1]
  }

  /** Extends a run by one event. */
  lemma OneMore(t: Run, e: Event, k2: Cluster) returns (t2: Run)
    requires Steps(t.c, Last(t), e, k2)
    ensures t2 == Trace(t.c, t.states + [k2], t.events + [e])
  {
    var (s2, e2) := (t.states + [k2], t.events + [e]);
    forall i | 0 <= i < |e2| ensures StepAt(t.c, s2, e2, i) {
      if i < |t.events| {
        assert StepAt(t.c, t.states, t.events, i);
      }
    }
    t2 := Trace(t.c, s2, e2);
  }

  function JustFetched(id: string, j: Job, worker: string): Cluster {
    Cluster(0, map[id := j], QueueState([], map[id := 0], map[id := worker]),
            map[worker := Fresh(id)], {}, multiset{})
  }

  /** Pending, and never delivered. */
  predicate Waiting(j: Job) {
    j.row.status == Pending && j.row.owner == None && j.row.attempts == 0
  }

  /** Submitted, pushed, and fetched by a worker. */
  lemma Delivered(c: Settings, steps: seq<Step>, id: string, a: string) returns (t: Run)
    requires ValidDag(steps) && a != ""
    ensures t.c == c && Last(t) == JustFetched(id, Submitted(steps), a)
  {
    var job := Submitted(steps);
    t := Trace(c, [START], []);
    t := OneMore(t, Submit(id, steps), START.(jobs := map[id := job], submitting := {id}));
    t := OneMore(t, PushNew(id), Cluster(0, map[id := job], QueueState([id], map[], map[]), map[], {}, multiset{}));
    t := OneMore(t, Fetch(a, 0), Cluster(0, map[id := job], QueueState([], map[id := 0], map[id := a]),
                                         map[a := Fresh(id)], {}, multiset{}));
  }

  function ClaimedBy(j: Job, worker: string, until: int): Job {
    j.(row := ClaimRow(j.row, worker, until), claims := j.claims + [worker])
  }

  /** A fetched, claimable job is claimed. */
  lemma ClaimNext(t: Run, id: string, worker: string) returns (t2: Run)
    requires id in Last(t).jobs && Last(t).sessions == map[worker := Fresh(id)]
    requires Claimable(Last(t).jobs[id].row, worker, Last(t).now)
    ensures t2.c == t.c && |t2.states| == |t.states| + 1 && t2.states[..|t.states|] == t.states
    ensures Last(t2).jobs == Last(t).jobs[id := ClaimedBy(Last(t).jobs[id], worker, Last(t).now + t.c.lease)]
    ensures Last(t2) == Last(t).(jobs := Last(t2).jobs, sessions := Last(t2).sessions)
            && Last(t2).sessions.Keys == {worker}
  {
    var k := Last(t);
    var o := DoClaim(t.c, k.now, worker, k.sessions[worker], k.jobs[id], true);
    var k2 := k.(jobs := k.jobs[id := o.job], sessions := k.sessions[worker := o.session.value]);
    assert Applies(k, worker, Claim(true), 0, o, k2);
    t2 := OneMore(t, Work(worker, Claim(true), 0), k2);
  }

  /** The owner dies and its store lease runs out. */
  lemma OwnerDies(t: Run, worker: string, now: int) returns (t2: Run)
    requires Last(t).sessions.Keys == {worker} && Last(t).now <= now
    ensures t2.c == t.c && |t2.states| == |t.states| + 2 && t2.states[..|t.states|] == t.states
    ensures Last(t2) == Last(t).(sessions := map[], now := now)
  {
    var k := Last(t);
    var k1 := k.(sessions := k.sessions - {worker});
    t2 := OneMore(t, Die(worker), k1);
    t2 := OneMore(t2, Tick(now), k1.(now := now));
  }

  /** The queue lease lapses and somebody else fetches the job. */
  lemma Redelivered(t: Run, id: string, worker: string) returns (t2: Run)
    requires worker != "" && worker !in Last(t).sessions && Last(t).queue.ready == []
             && Last(t).queue.leases == map[id := 0]
    ensures t2.c == t.c && |t2.states| == |t.states| + 2 && t2.states[..|t.states|] == t.states
    ensures Last(t2) == Last(t).(queue := Last(t2).queue, sessions := Last(t).sessions[worker := Fresh(id)])
    ensures Last(t2).queue == QueueState([], map[id := 0], Last(t).queue.owners[id := worker])
  {
    var k := Last(t);
    assert Returned(k.queue, []) == k.queue;
    assert Returned(k.queue, [id]) == Requeued(k.queue, id);
    var k1 := k.(queue := Returned(k.queue, [id]));
    t2 := OneMore(t, SweepQueue(0, 1, [id]), k1);
    t2 := OneMore(t2, Fetch(worker, 0),
                  k1.(queue := Claimed(k1.queue, worker, 0), sessions := k1.sessions[worker := Fresh(id)]));
  }

  /** One worker claims the job and dies, both leases lapse, and another one claims it. */
  lemma TakenOver(t: Run, id: string, j: Job, a: string, b: string) returns (t2: Run)
    requires Last(t) == JustFetched(id, j, a) && Waiting(j) && b != "" && t.c.lease > 0
    ensures t2.c == t.c && |t2.states| > |t.states|
            && t2.states[|t.states|].jobs == map[id := ClaimedBy(j, a, t.c.lease)]
    ensures Last(t2).jobs == map[id := ClaimedBy(ClaimedBy(j, a, t.c.lease), b, 2 * t.c.lease)]
  {
    t2 := ClaimNext(t, id, a);
    t2 := OwnerDies(t2, a, t.c.lease);
    t2 := Redelivered(t2, id, b);
    t2 := ClaimNext(t2, id, b);
  }

  /** The crash that all of this is about can happen: one worker claims the job and dies,
      both leases lapse, and another worker claims the next delivery. */
  lemma TakeoverHappens(c: Settings, steps: seq<Step>, id: string, a: string, b: string) returns (t: Run, i: nat)
    requires ValidDag(steps) && a != "" && b != "" && c.lease > 0
    ensures t.c == c && i < |t.states| && id in t.states[i].jobs && id in Last(t).jobs
    ensures t.states[i].jobs[id].row.owner == Some(a) && t.states[i].jobs[id].row.attempts == 1
    ensures Last(t).jobs[id].row.owner == Some(b) && Last(t).jobs[id].row.attempts == 2
  {
    t := Delivered(c, steps, id, a);
    i := |t.states|;
    t := TakenOver(t, id, Submitted(steps), a, b);
  }

  // ---------- Uninterrupted acts ----------

  function SceneOf(k: Cluster, worker: string): Scene
    requires worker in k.sessions && k.sessions[worker].job in k.jobs
  {
    Scene(Some(k.sessions[worker]), k.jobs[k.sessions[worker].job], k.queue)
  }

  /** What a session does alone is a run of the cluster that changes its session, its job
      and the queue as it does alone, and nothing else. */
  lemma {:induction false} AloneIsARun(t: Run, d: Desk, acts: seq<Act>, end: Scene) returns (t2: Run)
    requires d.c == t.c && d.now == Last(t).now
    requires d.worker in Last(t).sessions && Last(t).sessions[d.worker].job in Last(t).jobs
    requires Alone(d, SceneOf(Last(t), d.worker), acts) == Some(end)
    ensures t2.c == t.c && |t2.states| == |t.states| + |acts| && t2.states[..|t.states|] == t.states
    ensures Last(t2) == Back(Last(t), d.worker, Last(t).sessions[d.worker].job, end)
    decreases |acts|
  {
    var (k, w) := (Last(t), d.worker);
    var id := k.sessions[w].job;
    if acts == [] {
      t2 := t;
      assert k.jobs[id := k.jobs[id]] == k.jobs && k.sessions[w := k.sessions[w]] == k.sessions;
    } else {
      var next := OneAct(d, SceneOf(k, w), acts[0]).value;
      AloneIsAnEvent(k, d, acts[0], next);
      SessionStays(d.c, k.now, w, k.sessions[w], k.jobs[id], acts[0]);
      var t1 := OneMore(t, Work(w, acts[0], d.deadline), Back(k, w, id, next));
      if next.session.Some? {
        assert SceneOf(Last(t1), w) == next;
        t2 := AloneIsARun(t1, d, acts[1..], end);
        assert t2.states[..|t.states|] == t2.states[..|t1.states|][..|t.states|];
        BackTwice(k, w, id, next, end);
      } else {
        t2 := t1;
      }
    }
  }

  lemma BackTwice(k: Cluster, worker: string, id: string, a: Scene, b: Scene)
    requires a.session.Some?
    ensures Back(Back(k, worker, id, a), worker, id, b) == Back(k, worker, id, b)
  {
    assert k.jobs[id := a.job][id := b.job] == k.jobs[id := b.job];
    if b.session.Some? {
      assert k.sessions[worker := a.session.value][worker := b.session.value]
          == k.sessions[worker := b.session.value];
    } else {
      assert k.sessions[worker := a.session.value] - {worker} == k.sessions - {worker};
    }
  }

  // ---------- Duplicate deliveries ----------

  /** A session acts. */
  lemma ActNext(t: Run, worker: string, act: Act, o: Outcome) returns (t2: Run)
    requires worker in Last(t).sessions && Last(t).sessions[worker].job in Last(t).jobs && o.Moves?
    requires var s := Last(t).sessions[worker];
             && o == Perform(t.c, Last(t).now, worker, s, Last(t).jobs[s.job], act)
             && QueueAgrees(Last(t).queue, worker, s.job, act)
    ensures t2.c == t.c && |t2.states| == |t.states| + 1 && t2.states[..|t.states|] == t.states
    ensures t2.events == t.events + [Work(worker, act, 0)]
    ensures Last(t2) == Moved(Last(t), worker, Last(t).sessions[worker].job, act, 0, o)
  {
    var k := Last(t);
    var k2 := Moved(k, worker, k.sessions[worker].job, act, 0, o);
    assert Applies(k, worker, act, 0, o, k2);
    t2 := OneMore(t, Work(worker, act, 0), k2);
  }

  /** The store reaper frees the only job, whose lease has been expired long enough. */
  lemma SweptNext(t: Run, id: string) returns (t2: Run)
    requires Last(t).jobs.Keys == {id} && Overdue(Last(t).jobs[id].row, Last(t).now, t.c.lease)
    ensures t2.c == t.c
    ensures Last(t2) == Last(t).(jobs := map[id := Reaped(Last(t).jobs[id])], orphans := Last(t).orphans + multiset{id})
  {
    var k := Last(t);
    assert multiset([id]) == multiset{id};
    assert ReapedJobs(k.jobs, [id]) == map[id := Reaped(k.jobs[id])];
    assert IsSweep(Rows(k.jobs), k.now, t.c.lease, 1, [id]);
    t2 := OneMore(t, SweepStore(1, [id]), k.(jobs := ReapedJobs(k.jobs, [id]), orphans := k.orphans + multiset([id])));
  }

  /** One worker dies, both reapers sweep the job up, and another worker claims it before
      the store reaper has pushed it. */
  lemma ClaimedTwice(t: Run, id: string, j: Job, a: string, b: string) returns (t2: Run)
    requires Last(t) == JustFetched(id, j, a) && Waiting(j) && b != "" && t.c.lease > 0 && InBudget(t.c, 2)
    ensures t2.c == t.c && Last(t2).now == 2 * t.c.lease && Last(t2).orphans == multiset{id}
    ensures Last(t2).jobs == map[id := ClaimedBy(Reaped(ClaimedBy(j, a, t.c.lease)), b, 3 * t.c.lease)]
    ensures Last(t2).sessions == map[b := Session(id, 2, Loading, Going, Resting)]
    ensures Last(t2).queue == QueueState([], map[id := 0], map[id := b])
  {
    t2 := FreedOnce(t, id, j, a);
    t2 := Redelivered(t2, id, b);
    assert Last(t2).queue == QueueState([], map[id := 0], map[id := b]);
    t2 := SecondClaim(t2, id, b);
  }

  lemma FreedOnce(t: Run, id: string, j: Job, a: string) returns (t2: Run)
    requires Last(t) == JustFetched(id, j, a) && Waiting(j) && t.c.lease > 0
    ensures t2.c == t.c
    ensures Last(t2) == Cluster(2 * t.c.lease, map[id := Reaped(ClaimedBy(j, a, t.c.lease))],
                                QueueState([], map[id := 0], map[id := a]), map[], {}, multiset{id})
  {
    t2 := ClaimNext(t, id, a);
    t2 := OwnerDies(t2, a, 2 * t.c.lease);
    t2 := SweptNext(t2, id);
  }

  lemma SecondClaim(t: Run, id: string, b: string) returns (t2: Run)
    requires Last(t).sessions == map[b := Fresh(id)] && Last(t).jobs.Keys == {id}
    requires Last(t).jobs[id].row.status == Pending && Last(t).jobs[id].row.owner == None
    requires Last(t).jobs[id].row.attempts == 1 && InBudget(t.c, 2)
    ensures t2.c == t.c
    ensures Last(t2) == Last(t).(jobs := map[id := ClaimedBy(Last(t).jobs[id], b, Last(t).now + t.c.lease)],
                                 sessions := map[b := Session(id, 2, Loading, Going, Resting)])
  {
    var k := Last(t);
    t2 := ActNext(t, b, Claim(true), DoClaim(t.c, k.now, b, k.sessions[b], k.jobs[id], true));
    assert Last(t2).jobs == map[id := ClaimedBy(k.jobs[id], b, k.now + t.c.lease)];
  }

  /** The store reaper pushes the job it freed, although it is running again, and a third
      worker fetches it: the fetch overwrites the owner in the queue. */
  lemma DuplicateFetched(t: Run, id: string, b: string, d: string) returns (t2: Run)
    requires Last(t).orphans == multiset{id} && Last(t).queue == QueueState([], map[id := 0], map[id := b])
    requires d != "" && d !in Last(t).sessions
    ensures t2.c == t.c
    ensures Last(t2) == Last(t).(orphans := multiset{}, queue := QueueState([], map[id := 0], map[id := d]),
                                 sessions := Last(t).sessions[d := Fresh(id)])
  {
    var k := Last(t);
    var k1 := k.(orphans := k.orphans - multiset{id}, queue := Pushed(k.queue, id));
    t2 := OneMore(t, PushOrphan(id), k1);
    var k2 := k1.(queue := Claimed(k1.queue, d, 0),
                  sessions := k1.sessions[d := Fresh(id)]);
    t2 := OneMore(t2, Fetch(d, 0), k2);
    assert k2.queue == QueueState([], map[id := 0], map[id := d]);
  }

  lemma DuplicateRefused(t: Run, id: string, d: string) returns (t2: Run)
    requires d in Last(t).sessions && Last(t).sessions[d] == Fresh(id)
    requires id in Last(t).jobs && !Claimable(Last(t).jobs[id].row, d, Last(t).now)
    ensures t2.c == t.c
    ensures Last(t2) == Last(t).(sessions := Last(t).sessions[d := Fresh(id).(phase := Refused)])
  {
    var k := Last(t);
    assert k.jobs[id := k.jobs[id]] == k.jobs;
    t2 := ActNext(t, d, Claim(true), DoClaim(t.c, k.now, d, k.sessions[d], k.jobs[id], true));
  }

  lemma RefusedAcks(t: Run, id: string, d: string) returns (t2: Run)
    requires d in Last(t).sessions && Last(t).sessions[d] == Fresh(id).(phase := Refused) && id in Last(t).jobs
    ensures t2.c == t.c && t2.events == t.events + [Work(d, Ack(true), 0)]
    ensures |t2.states| == |t.states| + 1 && t2.states[..|t.states|] == t.states
    ensures Last(t2) == Last(t).(sessions := Last(t).sessions - {d}, queue := Acked(Last(t).queue, id))
  {
    var k := Last(t);
    assert k.jobs[id := k.jobs[id]] == k.jobs;
    t2 := ActNext(t, d, Ack(true), DoAck(k.sessions[d], k.jobs[id]));
  }

  /** The store refuses the duplicate, and dropping it acks the job for everybody. */
  lemma DuplicateDropped(t: Run, id: string, d: string) returns (t2: Run)
    requires d in Last(t).sessions && Last(t).sessions[d] == Fresh(id)
    requires id in Last(t).jobs && !Claimable(Last(t).jobs[id].row, d, Last(t).now)
    ensures t2.c == t.c
    ensures Last(t2) == Last(t).(sessions := Last(t).sessions - {d}, queue := Acked(Last(t).queue, id))
  {
    t2 := DuplicateRefused(t, id, d);
    t2 := RefusedAcks(t2, id, d);
    assert Last(t2).sessions == Last(t).sessions - {d};
  }

  /** The owner's next heartbeat: the store still holds its lease, the queue does not. */
  lemma OwnerAlarmed(t: Run, id: string, b: string) returns (t2: Run)
    requires b in Last(t).sessions && Last(t).sessions[b] == Session(id, 2, Loading, Going, Resting)
    requires id in Last(t).jobs && OwnedBy(Last(t).jobs[id].row, b) && !Holds(Last(t).queue, id, b)
    ensures t2.c == t.c
    ensures Last(t2).jobs == Last(t).jobs[id := Last(t).jobs[id].(
                row := ExtendRow(Last(t).jobs[id].row, b, Last(t).now + t.c.lease))]
    ensures Last(t2) == Last(t).(jobs := Last(t2).jobs,
                                 sessions := Last(t).sessions[b := Session(id, 2, Loading, LeaseLost, Resting)])
  {
    var k := Last(t);
    t2 := ActNext(t, b, BeatStore(true), DoBeatStore(t.c, k.now, b, k.sessions[b], k.jobs[id], true));
    var k2 := Last(t2);
    assert k2.jobs[id := k2.jobs[id]] == k2.jobs;
    t2 := ActNext(t2, b, BeatQueue(Some(false)), DoBeatQueue(k2.sessions[b], k2.jobs[id], Some(false)));
    assert Last(t2).sessions == k.sessions[b := Session(id, 2, Loading, LeaseLost, Resting)];
  }

  /** The duplicate arrives while b owns the job. */
  lemma DuplicateArrives(t: Run, id: string, b: string, d: string) returns (t2: Run)
    requires d != "" && d != b && t.c.lease > 0
    requires Last(t).sessions == map[b := Session(id, 2, Loading, Going, Resting)] && Last(t).orphans == multiset{id}
    requires Last(t).queue == QueueState([], map[id := 0], map[id := b]) && Last(t).jobs.Keys == {id}
    requires OwnedBy(Last(t).jobs[id].row, b) && Last(t).jobs[id].row.lease == Some(Last(t).now + t.c.lease)
    ensures t2.c == t.c
    ensures Last(t2) == Last(t).(queue := EMPTY, orphans := multiset{},
                                 sessions := map[b := Session(id, 2, Loading, LeaseLost, Resting)])
  {
    t2 := DuplicateFetched(t, id, b, d);
    t2 := DuplicateDropped(t2, id, d);
    assert Last(t2).queue == EMPTY;
    t2 := OwnerAlarmed(t2, id, b);
  }

  /** The worker owns its job in the store, with a full lease, and yet has cancelled its
      run as having lost the lease; the queue knows nothing of the job. */
  ghost predicate StoppedInHealth(c: Settings, k: Cluster, id: string, worker: string) {
    && k.jobs.Keys == {id} && k.sessions.Keys == {worker} && k.sessions[worker].job == id
    && k.jobs[id].row.owner == Some(worker) && k.jobs[id].row.lease == Some(k.now + c.lease)
    && k.sessions[worker].stop == LeaseLost && !Queued(k, id)
  }

  lemma HealthyOwnerStopped(t: Run, id: string, j: Job, a: string, b: string, d: string) returns (t2: Run)
    requires Last(t) == JustFetched(id, j, a) && Waiting(j)
    requires b != "" && d != "" && d != b && t.c.lease > 0 && InBudget(t.c, 2)
    ensures t2.c == t.c && StoppedInHealth(t.c, Last(t2), id, b)
  {
    t2 := ClaimedTwice(t, id, j, a, b);
    t2 := DuplicateArrives(t2, id, b, d);
  }

  /** A duplicate delivery makes a healthy worker give its job up: for every valid
      definition and any three workers there is such a run, with one crash and without a
      failed call. */
  lemma DuplicateStopsHealthyOwner(c: Settings, steps: seq<Step>, id: string, a: string, b: string, d: string)
    returns (t: Run)
    requires ValidDag(steps) && a != "" && b != "" && d != "" && d != b && c.lease > 0 && InBudget(c, 2)
    ensures t.c == c && StoppedInHealth(c, Last(t), id, b)
  {
    t := Delivered(c, steps, id, a);
    assert Waiting(Submitted(steps));
    t := HealthyOwnerStopped(t, id, Submitted(steps), a, b, d);
  }

  // ---------- A crash and somebody else's ack ----------

  /** The worker is shut down before it has loaded the job, and hands it back. */
  lemma HandsBack(t: Run, id: string, a: string) returns (t2: Run)
    requires a in Last(t).sessions && Last(t).sessions[a] == Session(id, 1, Loading, Going, Resting)
    requires id in Last(t).jobs
    ensures t2.c == t.c
    ensures Last(t2) == Last(t).(sessions := Last(t).sessions - {a}, queue := Requeued(Last(t).queue, id),
                                 jobs := Last(t).jobs[id := Last(t).jobs[id].(
                                     row := ReleaseRow(Last(t).jobs[id].row, a))])
  {
    var k := Last(t);
    var d := Desk(t.c, k.now, a, 0);
    var (sc, s) := (SceneOf(k, a), k.sessions[a]);
    var end := Scene(None, k.jobs[id].(row := ReleaseRow(k.jobs[id].row, a)), Requeued(k.queue, id));
    var acts := ShutDownAlone(d, sc, s, end);
    t2 := AloneIsARun(t, d, acts, end);
  }

  lemma ShutDownAlone(d: Desk, sc: Scene, s: Session, end: Scene) returns (acts: seq<Act>)
    requires sc.session == Some(s) && s.phase.Loading? && s.stop == Going
    requires end == Scene(None, sc.job.(row := ReleaseRow(sc.job.row, d.worker)), Requeued(sc.queue, s.job))
    ensures Alone(d, sc, acts) == Some(end)
  {
    var cancelled := sc.(session := Some(s.(stop := ShutDown)));
    AloneOne(d, sc, Cancel, cancelled);
    var unloaded := sc.(session := Some(s.(stop := ShutDown, phase := Abandoning(false))));
    AloneThen(d, sc, [Cancel], cancelled, Load(false), unloaded);
    AbandonedAlone(d, unloaded, unloaded.session.value, end);
    var rest := [Act.Abandon] + [Release(true)] + [Requeue(true)];
    acts := [Cancel] + [Load(false)] + rest;
    AloneConcat(d, sc, [Cancel] + [Load(false)], unloaded, rest);
  }

  /** A worker fetches the only ready job and dies before claiming it. */
  lemma FetchedAndDied(t: Run, id: string, d: string) returns (t2: Run)
    requires d != "" && d !in Last(t).sessions && Last(t).queue == QueueState([id], map[], map[])
    ensures t2.c == t.c
    ensures Last(t2) == Last(t).(queue := QueueState([], map[id := 0], map[id := d]))
  {
    var k := Last(t);
    var k1 := k.(queue := Claimed(k.queue, d, 0), sessions := k.sessions[d := Fresh(id)]);
    t2 := OneMore(t, Fetch(d, 0), k1);
    assert k.sessions[d := Fresh(id)] - {d} == k.sessions;
    assert k1.queue == QueueState([], map[id := 0], map[id := d]);
    t2 := OneMore(t2, Die(d), k1.(sessions := k1.sessions - {d}));
  }

  /** Refused while the owner still had the job, and about to ack it. */
  function Duplicate(id: string): Session {
    Fresh(id).(phase := Refused)
  }

  lemma OwnerAndDuplicate(t: Run, id: string, j: Job, a: string, b: string) returns (t2: Run)
    requires Last(t) == JustFetched(id, j, a) && Waiting(j) && b != "" && b != a && t.c.lease > 0 && InBudget(t.c, 1)
    ensures t2.c == t.c
    ensures Last(t2) == Cluster(0, map[id := ClaimedBy(j, a, t.c.lease)],
                                QueueState([], map[id := 0], map[id := b]),
                                map[a := Session(id, 1, Loading, Going, Resting), b := Duplicate(id)], {}, multiset{})
  {
    var k := Last(t);
    t2 := ActNext(t, a, Claim(true), DoClaim(t.c, 0, a, k.sessions[a], k.jobs[id], true));
    assert Last(t2).jobs == map[id := ClaimedBy(j, a, t.c.lease)];
    assert Last(t2).sessions == map[a := Session(id, 1, Loading, Going, Resting)];
    t2 := Redelivered(t2, id, b);
    t2 := DuplicateRefused(t2, id, b);
    assert Last(t2).queue == QueueState([], map[id := 0], map[id := b]);
  }

  lemma AckForgets(t: Run, id: string, j: Job, a: string, b: string, d: string) returns (t2: Run)
    requires Last(t) == JustFetched(id, j, a) && Waiting(j) && t.c.lease > 0 && InBudget(t.c, 1)
    requires b != "" && b != a && d != "" && d != b
    ensures t2.c == t.c && LastLoses(t2, id) && Forgotten(Last(t2), id)
    ensures Final(t2) == Work(b, Ack(true), 0)
  {
    t2 := OwnerAndDuplicate(t, id, j, a, b);
    t2 := HandsBack(t2, id, a);
    assert Last(t2).sessions == map[b := Duplicate(id)];
    assert Last(t2).queue == QueueState([id], map[], map[]);
    var t1 := FetchedAndDied(t2, id, d);
    t2 := RefusedAcks(t1, id, b);
    assert t2.states[|t2.events| - 1] == Last(t1);
    LostByTheLast(t2, id);
  }

  /** The run's last event lost the job, and no event before it did. */
  ghost predicate LastLoses(t: Run, id: string) {
    && t.events != [] && LosesAt(t.states, t.events, |t.events| - 1, id)
    && forall i :: 0 <= i < |t.events| - 1 ==> !LosesAt(t.states, t.events, i, id)
  }

  function Final(t: Run): Event
    requires t.events != []
  {
    t.events[|t.events| - 1]
  }

  lemma LostByTheLast(t: Run, id: string)
    requires t.events != [] && Forgotten(Last(t), id) && !Forgotten(t.states[|t.events| - 1], id)
    ensures LastLoses(t, id)
  {
    LostExactly(t.c, t.states, t.events, |t.events|, id);
    LostExactly(t.c, t.states, t.events, |t.events| - 1, id);
  }

  /** An ack alone can lose a job: for every valid definition and any workers there is a
      run in which a worker is shut down and hands its job back, the next one dies with it
      before claiming it, and the ack of a duplicate that was refused long before removes
      the queue lease that the dead one left behind. */
  lemma AckAfterCrashForgets(c: Settings, steps: seq<Step>, id: string, a: string, b: string, d: string)
    returns (t: Run)
    requires ValidDag(steps) && a != "" && b != "" && d != "" && b != a && b != d && c.lease > 0 && InBudget(c, 1)
    ensures t.c == c && Forgotten(Last(t), id)
    ensures LastLoses(t, id) && Final(t) == Work(b, Ack(true), 0)
  {
    t := Delivered(c, steps, id, a);
    t := AckForgets(t, id, Submitted(steps), a, b, d);
  }

  // ---------- What a false alarm does ----------

  /** A heartbeat that gets through stops the run of a worker that owns the job exactly if
      the queue has lost its lease, whoever acked it; and the worker goes on owning it. */
  lemma AlarmIsTheQueues(c: Settings, k: Cluster, worker: string, held: bool, deadline: int, k2: Cluster)
    requires Works(c, k, worker, BeatQueue(Some(held)), deadline, k2)
    requires k.sessions[worker].beat == StoreAnswered(true)
    ensures worker in k2.sessions && k2.jobs == k.jobs
    ensures k2.sessions[worker].stop == (if Holds(k.queue, k.sessions[worker].job, worker) then Going else LeaseLost)
  {
    var s := k.sessions[worker];
    assert DoBeatQueue(s, k.jobs[s.job], Some(held)).Moves?;
    assert k.jobs[s.job := k.jobs[s.job]] == k.jobs;
  }

  /** A run that ends after such an alarm is abandoned without releasing the job: the
      worker's session ends while the row still names it as the owner, so nobody can have
      the job before its lease runs out. */
  lemma AlarmedRunKeepsTheJob(worker: string, s: Session, j: Job, ordered: seq<StepResult>,
                              err: Option<Executions.WorkflowError>)
    requires s.stop == LeaseLost && DoReturn(s, j, ordered, err).Moves?
    ensures var o := DoReturn(s, j, ordered, err);
            o.session.Some? && DoAbandon(o.session.value, o.job) == Moves(None, j)
  {
  }
}
