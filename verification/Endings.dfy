/** How a session ends once its run does not stand: a refused or alarmed run leaves its job
    alone, a run that is shut down hands it back, and a job that cannot be run fails. */
module Endings {
  import opened Basics
  import opened Executions
  import opened Queues
  import opened Stores
  import opened Sessions
  import opened Protocol
  import opened Solo

  // ---------- Lost runs ----------

  /** The run was refused a step or told that its lease is lost, and not shut down; or it
      has returned as such. */
  predicate Lost(s: Session) {
    && s.stop != ShutDown
    && ((s.phase.Executing? && (s.phase.fence || s.stop == LeaseLost)) || s.phase == Abandoning(true))
  }

  /** Event i is a step claim by the worker that the store refuses. */
  ghost predicate Refused(states: seq<Cluster>, events: seq<Event>, i: nat, worker: string, step: string)
    requires |states| == |events| + 1 && i < |events|
  {
    && events[i].Work? && events[i].worker == worker && events[i].act == ClaimStep(step)
    && worker in states[i].sessions && states[i].sessions[worker].job in states[i].jobs
    && var row := states[i].jobs[states[i].sessions[worker].job].row;
       !(row.owner == Some(worker) && step in row.results && row.results[step].status != Succeeded)
  }

  lemma RefusalLoses(c: Settings, now: int, worker: string, s: Session, j: Job, step: string)
    requires Perform(c, now, worker, s, j, ClaimStep(step)).Moves? && s.stop != ShutDown
    requires !(j.row.owner == Some(worker) && step in j.row.results && j.row.results[step].status != Succeeded)
    ensures var o := Perform(c, now, worker, s, j, ClaimStep(step));
            o.session.Some? && Lost(o.session.value)
  {
    var o := DoClaimStep(c, worker, s, j, step);
    assert !StepClaimable(j.row, step, worker);
  }

  /** An act that records, finishes, acks, releases or requeues. */
  predicate HandsOn(act: Act) {
    act.Record? || act.FinishUp? || act.Bury? || act.Ack? || act.Release? || act.Requeue?
  }

  /** A lost run stays lost to its end, hands nothing on, and leaves the job as it is when it
      returns and is abandoned. */
  lemma LostActs(c: Settings, now: int, worker: string, s: Session, j: Job, act: Act)
    requires Lost(s) && act != Cancel && Perform(c, now, worker, s, j, act).Moves?
    ensures !HandsOn(act)
    ensures var o := Perform(c, now, worker, s, j, act);
            && (o.session.Some? ==> Lost(o.session.value))
            && (act.Return? ==> o.session.Some? && o.session.value.phase == Abandoning(true) && o.job == j)
            && (act.Abandon? ==> o.session.None? && o.job == j)
  {
  }

  /** The session goes on from i to m, and nobody shuts it down. */
  ghost predicate GoesOn(states: seq<Cluster>, events: seq<Event>, i: nat, m: nat, worker: string)
    requires |states| == |events| + 1 && i <= m < |states|
  {
    && (forall p :: i <= p <= m ==> worker in states[p].sessions)
    && (forall p :: i <= p < m ==> !(events[p].Work? && events[p].worker == worker && events[p].act == Cancel))
  }

  lemma StepKeepsLost(c: Settings, k: Cluster, e: Event, k2: Cluster, worker: string)
    requires Steps(c, k, e, k2) && worker in k.sessions && worker in k2.sessions && Lost(k.sessions[worker])
    requires !(e.Work? && e.worker == worker && e.act == Cancel)
    ensures Lost(k2.sessions[worker])
  {
    if e.Work? && e.worker == worker {
      var s := k.sessions[worker];
      LostActs(c, k.now, worker, s, k.jobs[s.job], e.act);
    } else {
      OthersLeaveSession(c, k, e, k2, worker);
    }
  }

  lemma {:induction false} LostStaysLost(c: Settings, states: seq<Cluster>, events: seq<Event>, i: nat, m: nat,
                                         worker: string)
    requires IsRun(c, states, events) && i <= m < |states| && GoesOn(states, events, i, m, worker)
    requires Lost(states[i].sessions[worker])
    ensures Lost(states[m].sessions[worker])
    decreases m - i
  {
    if i < m {
      LostStaysLost(c, states, events, i, m - 1, worker);
      StepHappens(c, states, events, m - 1);
      StepKeepsLost(c, states[m - 1], events[m - 1], states[m], worker);
    }
  }

  lemma RefusedIsLost(c: Settings, states: seq<Cluster>, events: seq<Event>, i: nat, worker: string, step: string)
    requires IsRun(c, states, events) && i < |events| && Refused(states, events, i, worker, step)
    requires worker in states[i + 1].sessions && states[i].sessions[worker].stop != ShutDown
    ensures Lost(states[i + 1].sessions[worker])
  {
    StepHappens(c, states, events, i);
    var k := states[i];
    var s := k.sessions[worker];
    RefusalLoses(c, k.now, worker, s, k.jobs[s.job], step);
  }

  /** What the worker does in event m leaves its job's row and the queue as they are. */
  ghost predicate LeavesAlone(states: seq<Cluster>, m: nat, id: string) {
    && m + 1 < |states| && id in states[m].jobs && id in states[m + 1].jobs
    && states[m + 1].jobs[id].row == states[m].jobs[id].row && states[m + 1].queue == states[m].queue
  }

  /** Over all runs: once a session has been refused a step, unless it is shut down, it never
      records, finishes, acks, releases or requeues; its return and its abandoning, with
      which it ends, leave the row and the queue to the new owner. */
  lemma RefusedRunLeavesTheJob(c: Settings, states: seq<Cluster>, events: seq<Event>, i: nat, m: nat, worker: string,
                               step: string)
    requires IsRun(c, states, events) && i < m < |events| && Refused(states, events, i, worker, step)
    requires GoesOn(states, events, i, m, worker) && states[i].sessions[worker].stop != ShutDown
    requires events[m].Work? && events[m].worker == worker && events[m].act != Cancel
    ensures !HandsOn(events[m].act)
    ensures events[m].act.Return? || events[m].act.Abandon? ==>
              LeavesAlone(states, m, states[m].sessions[worker].job)
    ensures events[m].act.Return? ==>
              worker in states[m + 1].sessions && states[m + 1].sessions[worker].phase == Abandoning(true)
    ensures events[m].act.Abandon? ==> worker !in states[m + 1].sessions
  {
    RefusedIsLost(c, states, events, i, worker, step);
    LostStaysLost(c, states, events, i + 1, m, worker);
    LostEventLeaves(c, states, events, m, worker);
  }

  /** The same after a heartbeat has reported the lease lost. */
  lemma AlarmedRunLeavesTheJob(c: Settings, states: seq<Cluster>, events: seq<Event>, i: nat, m: nat, worker: string)
    requires IsRun(c, states, events) && i <= m < |events| && GoesOn(states, events, i, m, worker)
    requires states[i].sessions[worker].phase.Executing? && states[i].sessions[worker].stop == LeaseLost
    requires events[m].Work? && events[m].worker == worker && events[m].act != Cancel
    ensures !HandsOn(events[m].act)
    ensures events[m].act.Return? || events[m].act.Abandon? ==>
              LeavesAlone(states, m, states[m].sessions[worker].job)
    ensures events[m].act.Abandon? ==> worker !in states[m + 1].sessions
  {
    LostStaysLost(c, states, events, i, m, worker);
    LostEventLeaves(c, states, events, m, worker);
  }

  lemma LostEventLeaves(c: Settings, states: seq<Cluster>, events: seq<Event>, m: nat, worker: string)
    requires IsRun(c, states, events) && m < |events|
    requires events[m].Work? && events[m].worker == worker && events[m].act != Cancel
    requires worker in states[m].sessions && Lost(states[m].sessions[worker])
    ensures !HandsOn(events[m].act)
    ensures events[m].act.Return? || events[m].act.Abandon? ==>
              LeavesAlone(states, m, states[m].sessions[worker].job)
    ensures events[m].act.Return? ==>
              worker in states[m + 1].sessions && states[m + 1].sessions[worker].phase == Abandoning(true)
    ensures events[m].act.Abandon? ==> worker !in states[m + 1].sessions
  {
    StepHappens(c, states, events, m);
    var k := states[m];
    var s := k.sessions[worker];
    LostActs(c, k.now, worker, s, k.jobs[s.job], events[m].act);
  }

  // ---------- Shutdown ----------

  /** The row as the owner hands it back; anybody else's row is not touched. */
  ghost predicate HandedBack(row: JobRow, worker: string, after: JobRow) {
    if row.owner == Some(worker) && row.status == Status.Running then
      && after.status == Pending && after.owner == None && after.lease == None
      && after == row.(status := Pending, owner := None, lease := None)
    else after == row
  }

  /** A run that returns after a shutdown, whether or not it was refused a step too, gives
      its job back: the owner's row is pending and free again, and the job is ready. */
  lemma ShutDownHandsBack(d: Desk, sc: Scene, s: Session, ordered: seq<StepResult>, err: Option<WorkflowError>)
    returns (end: Scene)
    requires sc.session == Some(s) && s.phase.Executing? && s.phase.flights == map[] && s.stop == ShutDown
    requires sc.job.table.Keys <= s.phase.results.Keys && Returns(sc.job.row.steps, s.phase.results, ordered, err)
    ensures Alone(d, sc, [Return(ordered, err)] + ([Act.Abandon] + [Release(true)] + [Requeue(true)])) == Some(end)
    ensures end.session.None? && HandedBack(sc.job.row, d.worker, end.job.row)
    ensures end.queue.ready == [s.job] + sc.queue.ready
    ensures end.queue.leases == sc.queue.leases - {s.job} && end.queue.owners == sc.queue.owners - {s.job}
  {
    var back := sc.(session := Some(s.(phase := Abandoning(false))));
    AloneOne(d, sc, Return(ordered, err), back);
    end := Scene(None, sc.job.(row := ReleaseRow(sc.job.row, d.worker)), Requeued(sc.queue, s.job));
    AbandonedAlone(d, back, back.session.value, end);
    AloneConcat(d, sc, [Return(ordered, err)], back, [Act.Abandon] + [Release(true)] + [Requeue(true)]);
  }

  // ---------- Jobs that cannot be run ----------

  /** A job whose definition its owner cannot run fails for good, with that message; its
      steps' rows stay as they are. */
  lemma UnrunnableFails(d: Desk, sc: Scene, s: Session, message: string) returns (end: Scene)
    requires sc.session == Some(s) && s.phase.Loading? && sc.job.row.owner == Some(d.worker)
    ensures Alone(d, sc, [Unrunnable(message)] + [FinishUp(true)] + [LogCompleted(true)] + [Ack(true)]) == Some(end)
    ensures end.session.None? && end.queue.ready == sc.queue.ready
    ensures end.queue.leases == sc.queue.leases - {s.job} && end.queue.owners == sc.queue.owners - {s.job}
    ensures end.job.row == sc.job.row.(status := Failed, error := message, owner := None, lease := None)
    ensures end.job.completed == sc.job.completed + 1
  {
    var ready := OneAct(d, sc, Unrunnable(message)).value;
    AloneOne(d, sc, Unrunnable(message), ready);
    var finished := OneAct(d, ready, FinishUp(true)).value;
    AloneThen(d, sc, [Unrunnable(message)], ready, FinishUp(true), finished);
    var logged := OneAct(d, finished, LogCompleted(true)).value;
    AloneThen(d, sc, [Unrunnable(message)] + [FinishUp(true)], finished, LogCompleted(true), logged);
    end := OneAct(d, logged, Ack(true)).value;
    AloneThen(d, sc, [Unrunnable(message)] + [FinishUp(true)] + [LogCompleted(true)], logged, Ack(true), end);
  }
}
